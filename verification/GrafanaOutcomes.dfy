/**
 Which dashboard a request is for, on every run, and what one reconcile achieves when none of its
 calls fails.
 */
module GrafanaOutcomes {
  import opened Kube
  import opened GrafanaSync

  // ---------------------------------------------------------------- which dashboard a request is for

  /** The object has a model and a recorded dashboard that was set under this state or under no known one. */
  predicate Keeps(o: Held, state: string) {
    o.model.Model? && o.ref.Some? && (o.ref.value.state == None || o.ref.value.state == Some(state))
  }

  /** The request of the call in this world, from the version o and the state, as it enters the log. */
  ghost predicate RequestFor(w: World, c: Choice, o: Held, state: string, e: Event)
    requires Valid(w)
  {
    && (e.Set? || e.LostSet?) && o in w.db.hist
    && (exists i :: 0 <= i <= w.app.pos && w.app.hist[i].Some? && w.app.hist[i].value.state == state)
    && (e.Set? ==> e.request == if Keeps(o, state) then Some(o.ref.value.uid) else None)
    && e.uid == if Keeps(o, state) then o.ref.value.uid
                else if o.model.Model? && o.model.own.Some? then o.model.own.value else c.uid
  }

  /** What a reconcile holds was stored, and its state was read from the AppBinding. */
  ghost predicate HeldInv(w: World) {
    && Valid(w)
    && match w.pc
       case Idle => true
       case MarkTerminating(o) => o in w.db.hist
       case DeleteRemote(o) => o in w.db.hist
       case DropFinalizer(o) => o in w.db.hist
       case AddFinalizer(o) => o in w.db.hist
       case MarkProcessing(o) => o in w.db.hist
       case ReadApp(o) => o in w.db.hist
       case SetRemote(o, state) =>
         o in w.db.hist && exists i :: 0 <= i <= w.app.pos && w.app.hist[i].Some? && w.app.hist[i].value.state == state
       case _ => true
  }

  lemma HeldStep(w: World, s: Step)
    requires HeldInv(w)
    ensures HeldInv(Apply(w, s))
  {
    var w' := Apply(w, s);
    ApplyValid(w, s);
    assert w.db.hist <= w'.db.hist && forall d :: d in w.db.hist ==> d in w'.db.hist;
    assert w.app.hist <= w'.app.hist && w.app.pos <= w'.app.pos;
    assert w.db.Cached() in w.db.hist && w'.db.Live() in w'.db.hist;
    if w'.pc.SetRemote? && w.pc.SetRemote? {
      var i :| 0 <= i <= w.app.pos && w.app.hist[i].Some? && w.app.hist[i].value.state == w.pc.state;
      assert w'.app.hist[i] == w.app.hist[i];
    }
  }

  lemma {:induction false} HeldRun(w: World, steps: seq<Step>)
    requires Start(w)
    ensures HeldInv(Run(w, steps))
  {
    if steps != [] {
      HeldRun(w, steps[..|steps| - 1]);
      HeldStep(Run(w, steps[..|steps| - 1]), steps[|steps| - 1]);
    }
  }

  /** Every request in the log of a run was made by a call of it, from a version that was stored and a
      state that the AppBinding had: it updates the recorded dashboard if and only if that version has a
      model and its record was made under that state or under none, and otherwise creates one, under
      the UID of the model if that carries one. */
  lemma {:induction false} EveryRequest(w: World, steps: seq<Step>, r: World, n: nat)
    returns (m: nat, before: World, o: Held, state: string)
    requires Start(w) && r == Run(w, steps) && n < |r.log| && (r.log[n].Set? || r.log[n].LostSet?)
    ensures m < |steps| && steps[m].Call? && before == Run(w, steps[..m]) && Valid(before)
    ensures before.pc == SetRemote(o, state) && |before.log| == n && RequestFor(before, steps[m].c, o, state, r.log[n])
  {
    m := |steps| - 1;
    before := Run(w, steps[..m]);
    HeldRun(w, steps[..m]);
    LogStep(before, steps[m]);
    if n < |before.log| {
      var init := steps[..m];
      m, before, o, state := EveryRequest(w, init, before, n);
      assert init[..m] == steps[..m];
    } else {
      o, state := before.pc.o, before.pc.state;
    }
  }

  /** One step adds at most one event, and a request only from its own call. */
  lemma LogStep(w: World, s: Step)
    requires HeldInv(w)
    ensures var log := Apply(w, s).log;
            && w.log <= log && |log| <= |w.log| + 1
            && (|log| > |w.log| && (log[|w.log|].Set? || log[|w.log|].LostSet?) ==>
                  s.Call? && w.pc.SetRemote? && RequestFor(w, s.c, w.pc.o, w.pc.state, log[|w.log|]))
  {
  }

  // ---------------------------------------------------------------- one reconcile without a failing call

  ghost predicate Reconciled(w: World, steps: seq<Step>)
    requires Valid(w)
  {
    && w.pc.Idle? && (forall s :: s in steps ==> s.Call? && s.c.ok)
    && Run(w, steps).pc.Idle? && Run(w, steps).run == w.run + 1
  }

  /** What no call changes. */
  predicate SameAround(w: World, r: World) {
    r.app == w.app && r.secret == w.secret && r.db.pos == w.db.pos
  }

  /** The cache shows the stored object, which is not being deleted and has a model; Grafana can be
      reached, and it has the recorded dashboard if that is to be kept. */
  predicate ReadyToSync(w: World)
    requires Valid(w)
  {
    && w.pc.Idle? && w.db.Cached() == w.db.Live() && w.db.Live().Db? && !w.db.Live().deleting && w.db.Live().model.Model?
    && w.app.Cached().Some? && (w.app.Cached().value.auth ==> w.secret.Cached())
    && (Keeps(w.db.Live(), w.app.Cached().value.state) ==>
          Remote(w.app.Cached().value.server, w.db.Live().ref.value.uid) in w.remote)
  }

  /** The dashboard has this UID: the recorded one if the record is kept. */
  predicate Chosen(w: World, uid: string)
    requires Valid(w) && ReadyToSync(w)
  {
    Keeps(w.db.Live(), w.app.Cached().value.state) ==> uid == w.db.Live().ref.value.uid
  }

  /** The object is under the finalizer and records a dashboard that is on the server of the AppBinding,
      under the state of the AppBinding; the record is new unless the one before was kept. */
  ghost predicate Synced(w: World, r: World)
    requires Valid(w) && Valid(r) && ReadyToSync(w)
  {
    var app, d := w.app.Cached().value, r.db.Live();
    && d.Db? && d.fin && !d.deleting && d.phase == Current && d.model == w.db.Live().model
    && d.ref.Some? && d.ref.value.state == Some(app.state) && Chosen(w, d.ref.value.uid)
    && Remote(app.server, d.ref.value.uid) in r.remote
  }

  /** The stored object is the one of the start under the finalizer, whatever its phase. */
  predicate Going(w: World, o: Db)
    requires Valid(w) && w.db.Live().Db?
  {
    o.Db? && o == w.db.Live().(fin := true, phase := o.phase)
  }

  ghost predicate Syncing(w: World, r: World)
    requires Valid(w) && ReadyToSync(w)
  {
    && Valid(r) && SameAround(w, r) && r.run == w.run + 1 && w.remote <= r.remote
    && var app := w.app.Cached().value;
       match r.pc
       case Idle => Synced(w, r)
       case AddFinalizer(o) => o == w.db.Live() && r.db.Live() == o
       case MarkProcessing(o) => Going(w, o) && r.db.Live() == o
       case ReadApp(o) => Going(w, o) && r.db.Live() == o
       case SetRemote(o, state) => Going(w, o) && r.db.Live() == o && state == app.state
       case ReadOrg(state, uid) =>
         Going(w, r.db.Live()) && state == app.state && Chosen(w, uid) && Remote(app.server, uid) in r.remote
       case RecordSync(state, uid) =>
         Going(w, r.db.Live()) && state == app.state && Chosen(w, uid) && Remote(app.server, uid) in r.remote
       case _ => false
  }

  lemma SyncingStarts(w: World, c: Choice)
    requires Valid(w) && ReadyToSync(w) && c.ok
    ensures Syncing(w, Apply(w, Call(c))) && !Apply(w, Call(c)).pc.Idle?
  {
  }

  lemma SyncingCall(w: World, r: World, c: Choice)
    requires Valid(w) && ReadyToSync(w) && Syncing(w, r) && !r.pc.Idle? && c.ok
    ensures Syncing(w, Apply(r, Call(c)))
  {
  }

  lemma {:induction false} SyncingRun(w: World, steps: seq<Step>)
    requires Valid(w) && ReadyToSync(w) && forall s :: s in steps ==> s.Call? && s.c.ok
    ensures var r := Run(w, steps); r == w || Syncing(w, r) || r.run > w.run + 1
  {
    if steps != [] {
      var init, s := steps[..|steps| - 1], steps[|steps| - 1];
      assert s in steps;
      SyncingRun(w, init);
      var r := Run(w, init);
      RunsGrow(r, s.c);
      if r == w {
        SyncingStarts(w, s.c);
      } else if r.run == w.run + 1 && !r.pc.Idle? {
        SyncingCall(w, r, s.c);
      }
    }
  }

  lemma RunsGrow(w: World, c: Choice)
    requires Valid(w)
    ensures Apply(w, Call(c)).run == if w.pc.Idle? then w.run + 1 else w.run
  {
  }

  /** One reconcile without a failing call leaves a live object synchronised, whatever was recorded
      before: a record under another Grafana state is replaced by a dashboard on the server of now. */
  lemma LiveIsSynced(w: World, steps: seq<Step>, r: World)
    requires Valid(w) && ReadyToSync(w) && Reconciled(w, steps) && r == Run(w, steps)
    ensures Synced(w, r)
  {
    SyncingRun(w, steps);
  }

  // ---------------------------------------------------------------- deletion

  /** The cache shows the stored object, which is being deleted and has the finalizer. */
  predicate ReadyToGo(w: World)
    requires Valid(w)
  {
    w.pc.Idle? && w.db.Cached() == w.db.Live() && w.db.Live().Db? && w.db.Live().deleting && w.db.Live().fin
  }

  /** No server that the AppBinding leads to has the recorded dashboard, and no other one is touched. */
  ghost predicate RemoteGone(w: World, r: World)
    requires Valid(w) && ReadyToGo(w)
  {
    var app, ref := w.app.Cached(), w.db.Live().ref;
    r.remote == if ref.Some? && app.Some? && (app.value.auth ==> w.secret.Cached())
                then w.remote - {Remote(app.value.server, ref.value.uid)} else w.remote
  }

  ghost predicate Leaving(w: World, r: World)
    requires Valid(w) && ReadyToGo(w)
  {
    && Valid(r) && SameAround(w, r) && r.run == w.run + 1
    && var live := w.db.Live();
       match r.pc
       case Idle => r.db.Live().Db? && !r.db.Live().fin && r.db.Live().phase == Terminating && RemoteGone(w, r)
       case MarkTerminating(o) => o == live && r.db.Live() == o && r.remote == w.remote
       case DeleteRemote(o) => o == live.(phase := Terminating) && r.db.Live() == o && r.remote == w.remote
       case DropFinalizer(o) => o == live.(phase := Terminating) && r.db.Live() == o && RemoteGone(w, r)
       case _ => false
  }

  lemma LeavingStarts(w: World, c: Choice)
    requires Valid(w) && ReadyToGo(w) && c.ok
    ensures Leaving(w, Apply(w, Call(c))) && !Apply(w, Call(c)).pc.Idle?
  {
  }

  lemma LeavingCall(w: World, r: World, c: Choice)
    requires Valid(w) && ReadyToGo(w) && Leaving(w, r) && !r.pc.Idle? && c.ok
    ensures Leaving(w, Apply(r, Call(c)))
  {
  }

  lemma {:induction false} LeavingRun(w: World, steps: seq<Step>)
    requires Valid(w) && ReadyToGo(w) && forall s :: s in steps ==> s.Call? && s.c.ok
    ensures var r := Run(w, steps); r == w || Leaving(w, r) || r.run > w.run + 1
  {
    if steps != [] {
      var init, s := steps[..|steps| - 1], steps[|steps| - 1];
      assert s in steps;
      LeavingRun(w, init);
      var r := Run(w, init);
      RunsGrow(r, s.c);
      if r == w {
        LeavingStarts(w, s.c);
      } else if r.run == w.run + 1 && !r.pc.Idle? {
        LeavingCall(w, r, s.c);
      }
    }
  }

  /** One reconcile without a failing call takes the recorded dashboard of a deleted object from its
      server, if a client can be had, and no other one, and then the finalizer. */
  lemma DeletedIsCleared(w: World, steps: seq<Step>, r: World)
    requires Valid(w) && ReadyToGo(w) && Reconciled(w, steps) && r == Run(w, steps)
    ensures r.db.Live().Db? && !r.db.Live().fin && RemoteGone(w, r)
  {
    LeavingRun(w, steps);
  }

  // ---------------------------------------------------------------- every reconcile comes to its end

  function Left(pc: Pc): nat {
    match pc
    case Idle => 0
    case MarkTerminating(_) => 3
    case DeleteRemote(_) => 2
    case DropFinalizer(_) => 1
    case AddFinalizer(_) => 6
    case MarkProcessing(_) => 5
    case ReadApp(_) => 4
    case SetRemote(_, _) => 3
    case ReadOrg(_, _) => 2
    case RecordSync(_, _) => 1
    case RecordFailure => 1
  }

  const GOOD := Call(Choice(true, false, false, ""))

  lemma OneLess(w: World)
    requires Valid(w) && !w.pc.Idle?
    ensures Left(Apply(w, GOOD).pc) < Left(w.pc)
  {
  }

  lemma Finish(w: World, steps: seq<Step>) returns (more: seq<Step>)
    requires Valid(w) && forall s :: s in steps ==> s.Call? && s.c.ok
    ensures (forall s :: s in more ==> s.Call? && s.c.ok) && Run(w, more).pc.Idle? && Run(w, more).run == Run(w, steps).run
    decreases Left(Run(w, steps).pc)
  {
    more := steps;
    if !Run(w, steps).pc.Idle? {
      OneLess(Run(w, steps));
      RunStep(w, steps, GOOD);
      RunsGrow(Run(w, steps), GOOD.c);
      more := Finish(w, steps + [GOOD]);
    }
  }

  /** From every world at rest there is such a reconcile. */
  lemma ReconcileEnds(w: World) returns (steps: seq<Step>)
    requires Valid(w) && w.pc.Idle?
    ensures Reconciled(w, steps)
  {
    assert Run(w, []) == w;
    RunStep(w, [], GOOD);
    RunsGrow(w, GOOD.c);
    steps := Finish(w, [] + [GOOD]);
  }
}
