/**
 Runs on which the finalizer does not protect a dashboard: every outdated read that GrafanaFinalizers
 excludes leads to one, and recreations bring such reads about.
 */
module GrafanaLeaks {
  import opened Kube
  import opened GrafanaSync
  import opened GrafanaFinalizers
  import opened GrafanaForks

  predicate AllCalls(steps: seq<Step>) {
    forall i :: 0 <= i < |steps| ==> steps[i].Call?
  }

  // ---------------------------------------------------------------- requests without the finalizer

  /** The object the sync holds after the read and, if it is due, the phase patch. */
  function HeldAfter(w: World): Db
    requires Valid(w) && w.db.Cached().Db? && (AfterFinalizer(w.db.Cached()).MarkProcessing? ==> w.db.Live().Db?)
  {
    if AfterFinalizer(w.db.Cached()).MarkProcessing? then w.db.Live().(phase := Processing) else w.db.Cached()
  }

  /** From every unguarded read, calls alone lead to a request that is sent without the finalizer, if
      the object is there to be marked as Processing where that is due, Grafana can be reached, and it
      has the dashboard to be updated, if any: the condition of RemoteOnlyUnderFinalizer cannot be weakened. */
  lemma UnguardedSends(w: World, s: Step, uid: string) returns (r: Trip)
    requires Valid(w) && Unguarded(w, s) && Reachable(w)
    requires AfterFinalizer(w.db.Cached()).MarkProcessing? ==> w.db.Live().Db?
    requires Accepts(w, HeldAfter(w), w.app.Cached().value.state)
    ensures r.Holds() && r.First() == w && |r.steps| > 0 && r.steps[0] == s && AllCalls(r.steps)
    ensures Valid(r.Last()) && r.Last().db.Live() == if AfterFinalizer(w.db.Cached()).MarkProcessing? then HeldAfter(w) else w.db.Live()
    ensures |r.Last().log| == |w.log| + 1 && w.log <= r.Last().log
    ensures var e := r.Last().log[|w.log|]; e.Set? && !e.fin
  {
    var state := w.app.Cached().value.state;
    var t := Trip([w], []);
    assert t.Holds() && t.Last() == w;
    r := Go(t, s);
    if r.Last().pc.MarkProcessing? { r := Go(r, Yes("")); }
    assert r.Last().pc == ReadApp(HeldAfter(w));
    r := SendRequest(r, HeldAfter(w), state, uid);
  }

  // ---------------------------------------------------------------- removals that forget the dashboard

  ghost predicate Counted(w: World) {
    forall e :: e in w.log ==> e.run <= w.run
  }

  lemma {:induction false} RunsAreCounted(w: World, steps: seq<Step>)
    requires Start(w)
    ensures Counted(Run(w, steps))
  {
    if steps != [] {
      RunsAreCounted(w, steps[..|steps| - 1]);
      CountStep(Run(w, steps[..|steps| - 1]), steps[|steps| - 1]);
    }
  }

  lemma CountStep(w: World, s: Step)
    requires Valid(w) && Counted(w)
    ensures Counted(Apply(w, s))
  {
  }

  /** The AppBinding of a client without a Secret, known to the cache. */
  lemma MakeReachable(t: Trip) returns (r: Trip)
    requires t.Holds() && Valid(t.Last())
    ensures r.Holds() && r.First() == t.First() && Valid(r.Last()) && Reachable(r.Last()) && t.steps <= r.steps
    ensures Reachable(t.Last()) ==> r == t
    ensures var a, b := t.Last(), r.Last(); b.(app := a.app) == a
  {
    r := t;
    var w := t.Last();
    if !Reachable(w) {
      r := Move(r, ChangeApp(Some(App("", "", false))));
      r := Move(r, Sync(w.db.pos, |w.app.hist|, w.secret.pos));
      assert r.Last().app.Cached() == Some(App("", "", false));
    }
  }

  /** The last event removes the finalizer without anything learned about the recorded dashboard. */
  ghost predicate Forgets(log: seq<Event>, recorded: Option<Ref>) {
    && |log| > 0 && log[|log| - 1].FinalizerRemoved? && log[|log| - 1].recorded == recorded
    && !Cleared(log[..|log| - 1], log[|log| - 1].run, recorded)
  }

  /** From every misjudged read some run leads to the removal of the finalizer while nothing was
      learned about the recorded dashboard, which stays on every server that has it; by calls alone if
      the held version records nothing or Grafana can be reached. The condition of
      FinalizerOutlivesRemote cannot be weakened. */
  lemma MisjudgedForgets(first: World, before: seq<Step>, w: World, s: Step) returns (r: Trip)
    requires Start(first) && w == Run(first, before) && Misjudged(w, s)
    ensures r.Holds() && r.First() == w && |r.steps| > 0 && r.steps[0] == s && Valid(r.Last())
    ensures w.db.Cached().ref.None? || Reachable(w)
            ==> AllCalls(r.steps) && r.Last().app == w.app && r.Last().secret == w.secret
    ensures w.log < r.Last().log && Forgets(r.Last().log, w.db.Live().ref)
    ensures var stored := w.db.Live().ref.value;
            forall d :: d in w.remote && d.uid == stored.uid ==> d in r.Last().remote
    ensures r.Last().db.Live() == w.db.Live().(fin := false)
  {
    RunsAreCounted(first, before);
    var o: Held := w.db.Cached();
    var t := Trip([w], []);
    assert t.Holds() && t.Last() == w;
    r := Go(t, s);
    assert r.Last().pc == DeleteRemote(o) && r.Last().log == w.log;
    if o.ref.Some? { r := MakeReachable(r); }
    r := Forget(r, o, w.db.Live().ref.value);
  }

  lemma Forget(t: Trip, o: Held, stored: Ref) returns (r: Trip)
    requires t.Holds() && Valid(t.Last()) && t.Last().pc == DeleteRemote(o) && (o.ref.None? || Reachable(t.Last()))
    requires o.fin && HasFin(t.Last().db.Live()) && t.Last().db.Live().ref == Some(stored) && !Covers(o.ref, Some(stored))
    requires forall e :: e in t.Last().log ==> e.run < t.Last().run
    ensures r.Holds() && r.First() == t.First() && Valid(r.Last()) && r.steps == t.steps + [Yes(""), Yes("")]
    ensures t.Last().log < r.Last().log && Forgets(r.Last().log, Some(stored))
    ensures forall d :: d in t.Last().remote && d.uid == stored.uid ==> d in r.Last().remote
    ensures r.Last().db.Live() == t.Last().db.Live().(fin := false)
    ensures r.Last().app == t.Last().app && r.Last().secret == t.Last().secret
  {
    r := Go(t, Yes(""));
    var w1 := r.Last();
    assert w1.pc == DropFinalizer(o) && w1.db == t.Last().db;
    r := Go(r, Yes(""));
    assert r.Last().log == w1.log + [FinalizerRemoved(w1.run, Some(stored))];
    assert r.Last().log[..|w1.log|] == w1.log;
  }

  // ---------------------------------------------------------------- a recreation behind the reconcile

  const NEW := Db(false, false, Unset, None, PLAIN)

  /** The versions of an object that is deleted before the finalizer is on it, created again, gets the
      finalizer from the reconcile of the one before, and is deleted again. */
  const AGAIN := [NEW, NEW.(deleting := true), Absent, NEW, NEW.(fin := true), NEW.(fin := true, deleting := true)]

  predicate InAgain(w: World, app: App, pos: nat) {
    && w.db == Versioned(AGAIN, pos) && w.app == Initial(Some(app)) && w.secret == Initial(true) && w.remote == {}
    && w.log == [] && w.pc == Idle
  }

  lemma DeletedEarly(app: App) returns (r: Trip)
    ensures r.Holds() && r.First() == Fresh(app) && Valid(r.Last())
    ensures r.Last() == Fresh(app).(db := Versioned(AGAIN[..4], 0), run := 1, pc := AddFinalizer(NEW))
  {
    r := Trip([Fresh(app)], []);
    assert r.Holds();
    r := Go(r, Yes(""));
    r := Move(r, Delete);
    r := Move(r, Finish);
    r := Move(r, Create(PLAIN));
    assert r.Last().db.hist == AGAIN[..4];
  }

  lemma FinalizerLandsOnNext(app: App) returns (r: Trip)
    ensures r.Holds() && r.First() == Fresh(app) && Valid(r.Last()) && InAgain(r.Last(), app, 1)
  {
    r := DeletedEarly(app);
    r := Go(r, Yes(""));
    assert r.Last().pc == MarkProcessing(NEW.(fin := true)) && r.Last().db.hist == AGAIN[..5];
    r := Go(r, NO);
    r := Move(r, Delete);
    assert r.Last().db.hist == AGAIN;
    r := Go(r, Sync(1, 0, 0));
  }

  const ENDING := Db(true, true, Terminating, None, PLAIN)

  /** The reconcile that reads the first deletion marks the second one. */
  lemma MarkedNext(app: App) returns (r: Trip)
    ensures r.Holds() && r.First() == Fresh(app) && Valid(r.Last())
    ensures InAgain(r.Last().(db := Versioned(AGAIN, 1), pc := Idle), app, 1)
    ensures r.Last().db == Versioned(AGAIN + [ENDING], 1) && r.Last().pc == DropFinalizer(ENDING)
  {
    r := FinalizerLandsOnNext(app);
    r := Go(r, Yes(""));
    assert r.Last().pc == MarkTerminating(NEW.(deleting := true));
    r := Go(r, Yes(""));
    assert r.Last().pc == DeleteRemote(ENDING);
    r := Go(r, Yes(""));
  }

  /** Removed and created once more. */
  lemma CreatedThird(app: App) returns (r: Trip)
    ensures r.Holds() && r.First() == Fresh(app) && Valid(r.Last())
    ensures var w := r.Last(); w.pc == Idle && w.app == Initial(Some(app)) && w.secret == Initial(true) && w.remote == {}
    ensures var db := r.Last().db; db.Cached() == NEW.(fin := true) && db.Live() == NEW
  {
    r := MarkedNext(app);
    r := Go(r, Yes(""));
    assert r.Last().db == Versioned(AGAIN + [ENDING, ENDING.(fin := false)], 1);
    r := Move(r, Finish);
    r := Move(r, Create(PLAIN));
    assert r.Last().db == Versioned(AGAIN + [ENDING, ENDING.(fin := false), Absent, NEW], 1);
    r := Go(r, Sync(4, 0, 0));
  }

  /** A whole run from a new object with two recreations: a reconcile reads the second object, which
      had the finalizer, and syncs the third one without adding it. */
  lemma RecreationSyncsWithoutFinalizer(app: App, uid: string) returns (w: World, steps: seq<Step>, r: World)
    ensures Start(w) && r == Run(w, steps) && Valid(r) && r.log != []
    ensures var e := r.log[|r.log| - 1]; e.Set? && !e.fin
    ensures r.db.Live().Db? && !r.db.Live().deleting && !r.db.Live().fin
  {
    var t := CreatedThird(app);
    var mid := t.Last();
    var u := UnguardedSends(mid, Yes(""), uid);
    w, steps := t.First(), t.steps + u.steps;
    TripIsRun(t);
    TripIsRun(u);
    RunAppend(w, t.steps, u.steps);
    r := u.Last();
  }

  // ---------------------------------------------------------------- a deletion that looks past the record

  /** The finalizer patch fails, and a reconcile reads the object from before its deletion. */
  lemma ReadWhileEnding(app: App) returns (r: Trip)
    ensures r.Holds() && r.First() == Fresh(app) && Valid(r.Last())
    ensures InAgain(r.Last().(db := Versioned(AGAIN, 4), pc := Idle), app, 4)
    ensures r.Last().db == Versioned(AGAIN + [ENDING], 4) && r.Last().pc == MarkProcessing(NEW.(fin := true))
  {
    r := MarkedNext(app);
    r := Go(r, NO);
    r := Go(r, Sync(4, 0, 0));
    assert r.Last().db.Cached() == NEW.(fin := true);
    r := Go(r, Yes(""));
  }

  lemma SyncedWhileEnding(app: App, uid: string) returns (r: Trip)
    ensures r.Holds() && r.First() == Fresh(app) && Valid(r.Last())
    ensures var w := r.Last();
            && w.pc == ReadOrg(app.state, uid) && w.app == Initial(Some(app)) && w.secret == Initial(true)
            && w.db == Versioned(AGAIN + [ENDING, ENDING.(phase := Processing)], 4)
            && w.remote == {Remote(app.server, uid)} && |w.log| == 1 && w.log[0].Set? && w.log[0].uid == uid
  {
    r := ReadWhileEnding(app);
    r := Go(r, Yes(""));
    assert r.Last().pc == ReadApp(ENDING.(phase := Processing));
    assert r.Last().db == Versioned(AGAIN + [ENDING, ENDING.(phase := Processing)], 4);
    r := SendRequest(r, ENDING.(phase := Processing), app.state, uid);
  }

  lemma RecordedWhileEnding(app: App, uid: string) returns (r: Trip)
    ensures r.Holds() && r.First() == Fresh(app) && Valid(r.Last())
    ensures var w := r.Last();
            && w.pc == Idle && w.app == Initial(Some(app)) && w.secret == Initial(true)
            && w.db.Cached() == ENDING && w.db.Live() == Db(true, true, Current, Some(Ref(uid, Some(app.state))), PLAIN)
            && w.remote == {Remote(app.server, uid)} && |w.log| == 1 && w.log[0].Set? && w.log[0].uid == uid
  {
    r := SyncedWhileEnding(app, uid);
    r := Go(r, Yes(""));
    r := Go(r, Yes(""));
    r := Go(r, Sync(6, 0, 0));
  }

  /** A whole run from a new object with one recreation, AppBinding, auth Secret and remote present
      throughout: a dashboard is created and recorded, the deletion reads the version marked before,
      and the finalizer goes while the dashboard stays. */
  lemma StaleDeletionLeaksDashboard(app: App, uid: string) returns (w: World, steps: seq<Step>, r: World)
    ensures Start(w) && r == Run(w, steps) && Valid(r) && |r.log| >= 2
    ensures r.app == Initial(Some(app)) && r.secret == Initial(true)
    ensures r.log[0].Set? && r.log[0].uid == uid
    ensures Forgets(r.log, Some(Ref(uid, Some(app.state))))
    ensures r.db.Live().Db? && r.db.Live().deleting && !r.db.Live().fin && Remote(app.server, uid) in r.remote
  {
    var t := RecordedWhileEnding(app, uid);
    TripIsRun(t);
    var u := MisjudgedForgets(t.First(), t.steps, t.Last(), Yes(""));
    w, steps := t.First(), t.steps + u.steps;
    TripIsRun(u);
    RunAppend(w, t.steps, u.steps);
    r := u.Last();
  }
}
