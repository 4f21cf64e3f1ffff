/**
 The part of PrometheusReconciler that registers a Prometheus, as the imperative code it is: the
 deletion path and SetupClusterForPrometheus from the cluster state on, driving the step machine
 call by call. The controller works on one Prometheus at a time.
 */
module PrometheusReconciler {
  import opened Kube
  import opened ClientOrgMachine
  import Machine = ClientOrgMachine
  import opened ClientOrgReconciler

  predicate Others(steps: seq<Step>) {
    forall s :: s in steps ==> !s.PromReconcile?
  }

  lemma OtherStep(w: World, s: Step)
    requires Machine.Valid(w) && !s.PromReconcile?
    ensures Apply(w, s).prom == w.prom && Apply(w, s).hub == w.hub && Apply(w, s).promRuns == w.promRuns
  {
  }

  lemma {:induction false} OthersKeepPc(w: World, steps: seq<Step>)
    requires Machine.Valid(w) && Others(steps)
    ensures Run(w, steps).prom == w.prom && Run(w, steps).hub == w.hub && Run(w, steps).promRuns == w.promRuns
  {
    if steps != [] {
      OthersKeepPc(w, steps[..|steps| - 1]);
      assert steps[|steps| - 1] in steps;
      OtherStep(Run(w, steps[..|steps| - 1]), steps[|steps| - 1]);
    }
  }

  /** What a call finds: the cluster states and the RoleBinding. */
  datatype Found = Found(states: Versioned<string>, role: Versioned<Mark>)

  class Reconciler {
    const hub: bool
    const turns: nat -> Turn
    ghost const first: World
    var w: World
    var next: nat
    ghost var worlds: seq<World>
    ghost var trace: seq<Step>
    ghost var pc: PromPc
    ghost var runs: nat

    constructor (w: World, turns: nat -> Turn)
      requires Machine.Valid(w) && forall i: nat :: Others(turns(i).others)
      ensures Valid() && this.w == w && this.turns == turns && first == w
    {
      this.w, this.turns, hub, first := w, turns, w.hub, w;
      next, worlds, trace, pc, runs := 0, [w], [], w.prom, w.promRuns;
    }

    ghost predicate Valid()
      reads this
    {
      && Follows(worlds, trace) && worlds[0] == first && worlds[|trace|] == w && Machine.Valid(w)
      && w.hub == hub && w.prom == pc && w.promRuns == runs
      && forall i: nat :: Others(turns(i).others)
    }

    /** The call at: the world advances by the steps of all others and then by this call. */
    method Call(ghost at: PromPc) returns (seen: Found, c: Choice)
      requires Valid() && pc == at
      modifies this
      ensures Valid() && seen.states.Valid() && seen.role.Valid()
      ensures pc == PromStep(hub, seen.states, seen.role, old(runs), at, c).0
      ensures runs == if at.PIdle? then old(runs) + 1 else old(runs)
    {
      var t := turns(next);
      OthersKeepPc(w, t.others);
      ghost var ws := More(worlds, trace, t.others);
      var u := Run(w, t.others);
      seen, c := Found(u.states, u.role), t.c;
      ghost var s := PromReconcile(c);
      OneMore(ws, trace + t.others, s);
      ApplyValid(u, s);
      assert PromStep(hub, seen.states, seen.role, u.promRuns, at, c).0 == Apply(u, s).prom;
      w := Apply(u, PromReconcile(c));
      worlds, trace, next := ws + [w], trace + t.others + [s], next + 1;
      pc, runs := w.prom, w.promRuns;
    }

    /** Reconcile: a Prometheus that is being deleted is unregistered, any other is set up. */
    method Reconcile() returns (err: bool)
      requires Valid() && pc == PIdle
      modifies this
      ensures Valid() && pc == PIdle && runs == old(runs) + 1
    {
      var _, c := Call(PIdle);
      if !c.ok { return true; }
      if c.deleting {
        err := Unregister();
      } else {
        err := SetupCluster();
      }
    }

    /** The deletion path: an error of the first call keeps the second from being made. */
    method Unregister() returns (err: bool)
      requires Valid() && pc == PUnregister(Grafana)
      modifies this
      ensures Valid() && pc == PIdle && runs == old(runs)
    {
      var _, c := Call(PUnregister(Grafana));
      if !c.ok { return true; }
      var _, c' := Call(PUnregister(Perses));
      return !c'.ok;
    }

    /** SetupClusterForPrometheus, from reading the cluster state. */
    method SetupCluster() returns (err: bool)
      requires Valid() && pc == PReadState
      modifies this
      ensures Valid() && pc == PIdle && runs == old(runs)
    {
      var seen, c := Call(PReadState);
      if !c.ok { return true; }
      var state := seen.states.Cached();
      var _, c' := Call(PReadToken(state));
      if !c'.ok { return true; }
      err := EnsureRole(state, c'.token);
    }

    method EnsureRole(state: string, tok: Option<string>) returns (err: bool)
      requires Valid() && pc == PEnsureRole(state, tok)
      modifies this
      ensures Valid() && pc == PIdle && runs == old(runs)
    {
      var seen, c := Call(PEnsureRole(state, tok));
      if !c.ok { return true; }
      var marks := seen.role.Live();
      if marks.state == LEGACY {
        var _, c' := Call(PLegacy(state, tok));  // applyMarkers
        return !c'.ok;
      }
      if hub && (marks.state != state || (tok.Some? && marks.token != tok)) {
        err := Register(state, tok);
        return;
      }
      return false;
    }

    /** Both registrations, each followed by its AppBindings, and then the markers. */
    method Register(state: string, tok: Option<string>) returns (err: bool)
      requires Valid() && pc == PRegister(Grafana, state, tok)
      modifies this
      ensures Valid() && pc == PIdle && runs == old(runs)
    {
      err := RegisterOne(Grafana, state, tok);
      if err { return; }
      err := RegisterOne(Perses, state, tok);
      if err { return; }
      var _, c := Call(PStamp(state, tok));
      return !c.ok;
    }

    method RegisterOne(b: Backend, state: string, tok: Option<string>) returns (err: bool)
      requires Valid() && pc == PRegister(b, state, tok)
      modifies this
      ensures Valid() && runs == old(runs)
      ensures pc == if err then PIdle else if b == Grafana then PRegister(Perses, state, tok) else PStamp(state, tok)
    {
      var _, c := Call(PRegister(b, state, tok));
      if !c.ok { return true; }
      var _, c' := Call(PBind(b, state, tok));
      return !c'.ok;
    }

    /** One whole reconcile, started when none is in progress, is a run of the machine with exactly
        one Prometheus reconcile, which it leaves finished. */
    method Execute() returns (err: bool, ghost steps: seq<Step>)
      requires Valid() && pc == PIdle && w == first
      modifies this
      ensures Valid() && w == Run(old(w), steps) && w.prom == PIdle && w.promRuns == old(w.promRuns) + 1
    {
      err := Reconcile();
      HistoryIsRun(worlds, trace);
      steps := trace;
    }
  }
}
