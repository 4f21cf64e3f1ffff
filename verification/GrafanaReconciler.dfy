/**
 GrafanaDashboardReconciler as the imperative code it is, driving the machine of GrafanaSync call
 by call. Before each call the environment makes any number of moves.
 */
module GrafanaReconciler {
  import opened Kube
  import opened GrafanaSync
  import Machine = GrafanaSync

  datatype Turn = Turn(moves: seq<Step>, c: Choice)

  predicate Foreign(moves: seq<Step>) {
    forall s :: s in moves ==> !s.Call?
  }

  lemma {:induction false} ForeignKeepsPc(w: World, moves: seq<Step>)
    requires Machine.Valid(w) && Foreign(moves)
    ensures Run(w, moves).pc == w.pc && Run(w, moves).run == w.run
  {
    if moves != [] {
      ForeignKeepsPc(w, moves[..|moves| - 1]);
      assert moves[|moves| - 1] in moves;
    }
  }

  lemma Counted(w: World, c: Choice)
    requires Machine.Valid(w)
    ensures Apply(w, Step.Call(c)).run == if w.pc.Idle? then w.run + 1 else w.run
  {
  }

  class Reconciler {
    const turns: nat -> Turn
    ghost const first: World
    var w: World
    var next: nat
    ghost var trace: seq<Step>
    ghost var pc: Pc
    ghost var runs: nat

    constructor (w: World, turns: nat -> Turn)
      requires Machine.Valid(w) && w.pc.Idle? && forall i: nat :: Foreign(turns(i).moves)
      ensures Valid() && this.w == w && first == w && pc == Idle
    {
      this.w, this.turns, first := w, turns, w;
      next, trace, pc, runs := 0, [], Idle, w.run;
    }

    ghost predicate Valid()
      reads this
    {
      Machine.Valid(first) && w == Run(first, trace) && w.pc == pc && w.run == runs && forall i: nat :: Foreign(turns(i).moves)
    }

    /** The environment makes its moves. */
    method Wait(moves: seq<Step>)
      requires Valid() && Foreign(moves)
      modifies this`w, this`trace
      ensures Valid() && w == Run(old(w), moves)
    {
      ForeignKeepsPc(w, moves);
      RunAppend(first, trace, moves);
      w, trace := Run(w, moves), trace + moves;
    }

    /** The call at; seen is the world it finds. */
    method Call(ghost at: Pc) returns (seen: World, c: Choice)
      requires Valid() && pc == at
      modifies this
      ensures Valid() && Machine.Valid(seen) && seen.pc == at && pc == Apply(seen, Step.Call(c)).pc
      ensures runs == if at.Idle? then old(runs) + 1 else old(runs)
    {
      Wait(turns(next).moves);
      seen, c := w, turns(next).c;
      RunStep(first, trace, Step.Call(c));
      Counted(seen, c);
      w := Apply(seen, Step.Call(c));
      trace, next, pc, runs := trace + [Step.Call(c)], next + 1, w.pc, w.run;
    }

    /** Reconcile */
    method Reconcile() returns (err: bool)
      requires Valid() && pc == Idle
      modifies this
      ensures Valid() && pc == Idle && runs == old(runs) + 1
    {
      var seen, c := Call(Idle);
      if !c.ok { return true; }
      var obj := seen.db.Cached();
      if obj.Absent? { return false; }
      if obj.deleting {
        err := Finalize(obj);
        return;
      }
      err := Converge(obj);
    }

    /** The deletion branch. */
    method Finalize(obj: Held) returns (err: bool)
      requires Valid() && pc == if obj.phase != Terminating then MarkTerminating(obj) else DeleteRemote(obj)
      modifies this
      ensures Valid() && pc == Idle && runs == old(runs)
    {
      var o := obj;
      if o.phase != Terminating {
        var seen, c := Call(MarkTerminating(o));
        if !c.ok || seen.db.Live().Absent? { return true; }
        o := seen.db.Live().(phase := Terminating);
      }
      err := DeleteExternalDashboard(o);
      if err { return; }
      var _, c := Call(DropFinalizer(o));
      return !c.ok;
    }

    /** deleteExternalDashboard; a dashboard that is gone, or whose AppBinding or auth Secret is gone,
        counts as deleted. */
    method DeleteExternalDashboard(o: Held) returns (err: bool)
      requires Valid() && pc == DeleteRemote(o)
      modifies this
      ensures Valid() && runs == old(runs)
      ensures pc == if err then Idle else DropFinalizer(o)
    {
      var seen, c := Call(DeleteRemote(o));
      if o.ref.Some? {
        if !Reachable(seen) { return false; }  // AppBinding or auth Secret not found
        return !c.ok;                          // 404 counts as deleted
      }
      return false;
    }

    /** The rest of Reconcile for a live object. */
    method Converge(obj: Held) returns (err: bool)
      requires Valid() && pc == if obj.fin then AfterFinalizer(obj) else AddFinalizer(obj)
      modifies this
      ensures Valid() && pc == Idle && runs == old(runs)
    {
      var o: Held := obj;
      if !o.fin {
        var seen, c := Call(AddFinalizer(o));
        if !c.ok { return true; }
        var live := seen.db.Live();
        if live.Absent? {
          if !c.seen { return true; }
          o := Db(true, false, Unset, None, o.model);
        } else {
          if live.deleting && !live.fin { return true; }
          o := live.(fin := true);
        }
      }
      err := Process(o);
    }

    method Process(obj: Held) returns (err: bool)
      requires Valid() && pc == AfterFinalizer(obj)
      modifies this
      ensures Valid() && pc == Idle && runs == old(runs)
    {
      var o: Held := obj;
      if o.phase != Processing && o.phase != Failed {
        var seen, c := Call(MarkProcessing(o));
        if !c.ok || seen.db.Live().Absent? { return true; }
        o := seen.db.Live().(phase := Processing);
      }
      err := SetDashboard(o);
    }

    /** setDashboard */
    method SetDashboard(o: Held) returns (err: bool)
      requires Valid() && pc == ReadApp(o)
      modifies this
      ensures Valid() && pc == Idle && runs == old(runs)
    {
      var seen, c := Call(ReadApp(o));
      if !c.ok || seen.app.Cached().None? {
        err := HandleSetDashboardError();
        return;
      }
      var state := seen.app.Cached().value.state;
      seen, c := Call(SetRemote(o, state));
      if !c.ok || !Reachable(seen) || !Accepts(seen, o, state) {
        err := HandleSetDashboardError();
        return;
      }
      err := RecordDashboard(state, SetUid(o, state, c));
    }

    method RecordDashboard(state: string, uid: string) returns (err: bool)
      requires Valid() && pc == ReadOrg(state, uid)
      modifies this
      ensures Valid() && pc == Idle && runs == old(runs)
    {
      var seen, c := Call(ReadOrg(state, uid));
      if !c.ok {
        err := HandleSetDashboardError();
        return;
      }
      seen, c := Call(RecordSync(state, uid));
      return !c.ok;
    }

    /** handleSetDashboardError */
    method HandleSetDashboardError() returns (err: bool)
      requires Valid() && pc == RecordFailure
      modifies this
      ensures Valid() && pc == Idle && runs == old(runs)
    {
      var _, c := Call(RecordFailure);
      return !c.ok;
    }

    /** One whole reconcile is a run of the machine with exactly one reconcile in it. */
    method Execute() returns (err: bool, ghost steps: seq<Step>)
      requires Valid() && pc == Idle && w == first
      modifies this
      ensures Valid() && w == Run(old(w), steps) && w.pc == Idle && w.run == old(w.run) + 1
    {
      err := Reconcile();
      steps := trace;
    }
  }
}
