/**
 Runs on which one object gets two remote dashboards, and on which a dashboard outlives its object:
 every careless step leads to the first, a missing auth Secret to the second.
 */
module GrafanaForks {
  import opened Kube
  import opened GrafanaSync
  import opened GrafanaUids

  // ---------------------------------------------------------------- runs, world by world

  ghost predicate Leads(w: World, s: Step, w': World) {
    Valid(w) && Valid(w') && w' == Apply(w, s)
  }

  /** The worlds of a run and the steps between them. */
  datatype Trip = Trip(worlds: seq<World>, steps: seq<Step>) {
    ghost predicate Holds() {
      && |worlds| == |steps| + 1 && Valid(worlds[0])
      && forall i {:trigger steps[i]} :: 0 <= i < |steps| ==> Leads(worlds[i], steps[i], worlds[i + 1])
    }

    function First(): World
      requires worlds != []
    {
      worlds[0]
    }

    function Last(): World
      requires worlds != []
    {
      worlds[|worlds| - 1]
    }

    /** The trip goes on from t with calls and cache updates only. */
    ghost predicate Extends(t: Trip) {
      && t.steps <= steps && t.worlds != [] && worlds != [] && First() == t.First()
      && forall i :: |t.steps| <= i < |steps| ==> steps[i].Call? || steps[i].Sync?
    }
  }

  lemma Move(t: Trip, s: Step) returns (r: Trip)
    requires t.Holds() && Valid(t.Last())
    ensures r.Holds() && r.First() == t.First() && r.Last() == Apply(t.Last(), s) && Valid(r.Last()) && r.steps == t.steps + [s]
  {
    ApplyValid(t.Last(), s);
    r := Trip(t.worlds + [Apply(t.Last(), s)], t.steps + [s]);
    forall i | 0 <= i < |r.steps| ensures Leads(r.worlds[i], r.steps[i], r.worlds[i + 1]) {
      assert i < |t.steps| ==> Leads(t.worlds[i], t.steps[i], t.worlds[i + 1]);
    }
  }

  lemma Go(t: Trip, s: Step) returns (r: Trip)
    requires t.Holds() && Valid(t.Last()) && (s.Call? || s.Sync?)
    ensures r.Holds() && r.Extends(t) && r.Last() == Apply(t.Last(), s) && Valid(r.Last()) && r.steps == t.steps + [s]
  {
    r := Move(t, s);
  }

  lemma {:induction false} TripIsRun(t: Trip)
    requires t.Holds()
    ensures t.Last() == Run(t.First(), t.steps)
    decreases |t.steps|
  {
    if t.steps != [] {
      var n := |t.steps| - 1;
      var init := Trip(t.worlds[..n + 1], t.steps[..n]);
      forall i | 0 <= i < n ensures Leads(init.worlds[i], init.steps[i], init.worlds[i + 1]) {
        assert Leads(t.worlds[i], t.steps[i], t.worlds[i + 1]);
      }
      TripIsRun(init);
      assert Leads(t.worlds[n], t.steps[n], t.worlds[n + 1]);
    }
  }

  function Yes(uid: string): Step {
    Call(Choice(true, false, false, uid))
  }

  const NO := Call(Choice(false, false, false, ""))

  /** A model without a UID of its own. */
  const PLAIN := Model(None)

  // ---------------------------------------------------------------- a further sync creates a dashboard

  /** A client for the state can be had. */
  predicate Open(w: World, state: string)
    requires Valid(w)
  {
    Reachable(w) && w.app.Cached().value.state == state
  }

  /** Between two reconciles of a live object with the finalizer and a model. */
  predicate Waiting(w: World, o: Held, state: string)
    requires Valid(w)
  {
    w.pc == Idle && Open(w, state) && w.db.Live() == o && o.fin && !o.deleting && o.model.Model?
  }

  lemma Reread(t: Trip, o: Held, state: string) returns (r: Trip)
    requires t.Holds() && Valid(t.Last()) && Waiting(t.Last(), o, state)
    ensures r.Holds() && r.Extends(t) && Valid(r.Last())
    ensures r.Last().pc == AfterFinalizer(o) && Open(r.Last(), state) && r.Last().db.Live() == o && r.Last().log == t.Last().log
  {
    var w := t.Last();
    r := Go(t, Sync(|w.db.hist| - 1, w.app.pos, w.secret.pos));
    assert r.Last().db.Cached() == o && r.Last().pc == Idle;
    r := Go(r, Yes(""));
  }

  lemma ToReadApp(t: Trip, o: Held, state: string) returns (r: Trip, o': Held)
    requires t.Holds() && Valid(t.Last()) && t.Last().pc == AfterFinalizer(o) && Open(t.Last(), state) && t.Last().db.Live() == o
    ensures r.Holds() && r.Extends(t) && Valid(r.Last())
    ensures r.Last().pc == ReadApp(o') && Open(r.Last(), state) && r.Last().log == t.Last().log
    ensures o' == if o.phase != Processing && o.phase != Failed then o.(phase := Processing) else o
    ensures r.Last().db.Live() == o'
  {
    r, o' := t, o;
    if o.phase != Processing && o.phase != Failed {
      r := Go(r, Yes(""));
      o' := o.(phase := Processing);
    }
  }

  /** The log goes on with one accepted request. */
  predicate Sets(log: seq<Event>, log': seq<Event>, request: Option<string>, uid: string) {
    && |log'| == |log| + 1 && log <= log'
    && log'[|log|].Set? && log'[|log|].request == request && log'[|log|].uid == uid
  }

  /** The request for the object o is sent and accepted. */
  lemma SendRequest(t: Trip, o: Held, state: string, b: string) returns (r: Trip)
    requires t.Holds() && Valid(t.Last()) && t.Last().pc == ReadApp(o) && Open(t.Last(), state)
    requires var q := Request(o, state);
             q.Some? ==> Remote(t.Last().app.Cached().value.server, q.value) in t.Last().remote
    ensures r.Holds() && r.Extends(t) && Valid(r.Last())
    ensures var q := Request(o, state);
            var uid := if q.Some? then q.value else Picked(o, b);
            && Sets(t.Last().log, r.Last().log, q, uid) && r.Last().pc == ReadOrg(state, uid)
            && r.Last().db == t.Last().db && Open(r.Last(), state)
            && r.Last().remote == t.Last().remote + {Remote(t.Last().app.Cached().value.server, uid)}
    ensures r.Last().log[|t.Last().log|].fin == HasFin(t.Last().db.Live()) && r.steps == t.steps + [Yes(""), Yes(b)]
    ensures r.Last().app == t.Last().app && r.Last().secret == t.Last().secret
  {
    r := Go(t, Yes(""));
    assert r.Last().pc == SetRemote(o, state);
    r := Go(r, Yes(b));
  }

  lemma SyncAgain(t: Trip, o: Held, state: string, b: string) returns (r: Trip)
    requires t.Holds() && Valid(t.Last()) && Waiting(t.Last(), o, state) && Request(o, state).None?
    ensures r.Holds() && r.Extends(t) && Valid(r.Last()) && Sets(t.Last().log, r.Last().log, None, Picked(o, b))
  {
    r := Reread(t, o, state);
    var o': Held;
    r, o' := ToReadApp(r, o, state);
    r := SendRequest(r, o', state, b);
  }

  // ---------------------------------------------------------------- every careless step forks

  /** The UID that the object has when a careless step is taken: the recorded one, or the one of the
      request whose answer is lost or not recorded. */
  function Owned(w: World, s: Step, state: string): string
    requires Valid(w) && Careless(w, s, state)
  {
    match w.pc
    case Idle => Recorded(w.db.Live(), state).value
    case SetRemote(o, st) => SetUid(o, st, s.c)
    case ReadOrg(_, uid) => uid
    case RecordSync(_, uid) => uid
  }

  /** The object is not about to go, and its Grafana can be reached. */
  ghost predicate Going(w: World, state: string)
    requires Valid(w)
  {
    && Open(w, state) && w.db.Live().Db? && !w.db.Live().deleting
    && (w.pc.Idle? && w.db.Cached().Db? && Recorded(w.db.Cached(), state).Some?
        ==> Remote(w.app.Cached().value.server, Recorded(w.db.Cached(), state).value) in w.remote)
  }

  /** After the careless end of a sync: idle, with nothing recorded. */
  lemma EndOfSync(t: Trip, n0: nat, u: Option<string>, state: string, s: Step) returns (r: Trip, o: Held)
    requires t.Holds() && Valid(t.Last()) && UidInv(t.Last(), n0, u, state) && Going(t.Last(), state)
    requires Careless(t.Last(), s, state) && !t.Last().pc.Idle?
    ensures r.Holds() && r.Extends(t) && Valid(r.Last()) && |r.steps| > |t.steps| && r.steps[|t.steps|] == s
    ensures Waiting(r.Last(), o, state) && Request(o, state).None? && o.model == t.Last().db.Live().model
  {
    var w := t.Last();
    assert Recorded(w.db.Live(), state).None?;
    o := w.db.Live();
    r := Go(t, s);
    if r.Last().pc.RecordFailure? {
      r := Go(r, Yes(""));
      o := o.(phase := Failed);
    }
  }

  /** From every careless step of a stretch that was careful so far, some run of calls and cache
      updates leads to a request that sets another UID than the one the object has, unless its model
      carries just that one: the condition of SyncsKeepOneUid cannot be weakened for an object that
      stays and whose Grafana is reachable. */
  lemma CarelessForks(w: World, n0: nat, u: Option<string>, state: string, s: Step, b: string) returns (r: Trip)
    requires UidInv(w, n0, u, state) && Going(w, state) && Careless(w, s, state)
    requires Picked(if w.pc.Idle? then w.db.Cached() else w.db.Live(), b) != Owned(w, s, state)
    ensures r.Holds() && r.First() == w && |r.steps| > 0 && r.steps[0] == s
    ensures forall i :: 0 <= i < |r.steps| ==> r.steps[i].Call? || r.steps[i].Sync?
    ensures var log := r.Last().log; |log| > 0 && log[|log| - 1].Set? && log[|log| - 1].uid != Owned(w, s, state)
  {
    var t := Trip([w], []);
    assert t.Holds() && t.Last() == w;
    if w.pc.Idle? {
      r := Go(t, s);
      r := SendRequest(r, w.db.Cached(), state, b);
    } else {
      var o: Held;
      r, o := EndOfSync(t, n0, u, state, s);
      r := SyncAgain(r, o, state, b);
    }
  }

  // ---------------------------------------------------------------- whole runs

  /** A new object and a Grafana that can be reached. */
  function Fresh(app: App): World {
    World(Initial(Db(false, false, Unset, None, PLAIN)), Initial(Some(app)), Initial(true), {}, 0, Idle, [])
  }

  /** From a new object to its first accepted request. */
  lemma FirstSync(app: App, a: string) returns (r: Trip, o: Held)
    ensures r.Holds() && r.First() == Fresh(app) && Valid(r.Last())
    ensures Sets([], r.Last().log, None, a) && r.Last().pc == ReadOrg(app.state, a) && Open(r.Last(), app.state)
    ensures r.Last().db.Live() == o && o == Db(true, false, Processing, None, PLAIN)
  {
    var t := Trip([Fresh(app)], []);
    assert t.Holds();
    r := Go(t, Yes(""));
    assert r.Last().pc == AddFinalizer(Db(false, false, Unset, None, PLAIN));
    r := Go(r, Yes(""));
    r, o := ToReadApp(r, Db(true, false, Unset, None, PLAIN), app.state);
    r := SendRequest(r, o, app.state, a);
  }

  /** A whole run from a new object: the read of the current organisation fails after the dashboard
      was created, and the next reconcile creates a second one. */
  lemma FailedOrgReadForks(app: App, a: string, b: string) returns (w: World, steps: seq<Step>, r: World)
    ensures Start(w) && r == Run(w, steps) && Valid(r) && |r.log| == 2
    ensures r.log[0].Set? && r.log[0].request.None? && r.log[0].uid == a
    ensures r.log[1].Set? && r.log[1].request.None? && r.log[1].uid == b
  {
    var t, o := FirstSync(app, a);
    t := Go(t, NO);
    assert t.Last().pc == RecordFailure;
    t := Go(t, Yes(""));
    t := SyncAgain(t, o.(phase := Failed), app.state, b);
    w, steps, r := t.First(), t.steps, t.Last();
    TripIsRun(t);
  }

  /** Another one: the sync is recorded, but the next reconcile reads the object as it was while the
      sync was in progress. */
  lemma StaleReadForks(app: App, a: string, b: string) returns (w: World, steps: seq<Step>, r: World)
    ensures Start(w) && r == Run(w, steps) && Valid(r) && |r.log| == 2
    ensures r.log[0].Set? && r.log[0].request.None? && r.log[0].uid == a
    ensures r.log[1].Set? && r.log[1].request.None? && r.log[1].uid == b
    ensures r.db.Live().Db? && r.db.Live().ref == Some(Ref(a, Some(app.state)))
  {
    var t, o := FirstSync(app, a);
    var n := |t.Last().db.hist| - 1;
    t := Go(t, Yes(""));
    t := Go(t, Yes(""));
    assert t.Last().pc == Idle && t.Last().db.hist[n] == o;
    t := StaleSync(t, n, o, app.state, b);
    w, steps, r := t.First(), t.steps, t.Last();
    TripIsRun(t);
  }

  lemma StaleSync(t: Trip, n: nat, o: Held, state: string, b: string) returns (r: Trip)
    requires t.Holds() && Valid(t.Last()) && t.Last().pc == Idle && Open(t.Last(), state)
    requires t.Last().db.pos <= n < |t.Last().db.hist| && t.Last().db.hist[n] == o
    requires o.fin && !o.deleting && o.phase == Processing && Request(o, state).None? && o.model == PLAIN
    ensures r.Holds() && r.First() == t.First() && Valid(r.Last())
    ensures Sets(t.Last().log, r.Last().log, None, b) && r.Last().db.Live() == t.Last().db.Live()
  {
    var w := t.Last();
    r := Go(t, Sync(n, w.app.pos, w.secret.pos));
    assert r.Last().db.Cached() == o && r.Last().db.Live() == w.db.Live();
    r := Go(r, Yes(""));
    assert r.Last().pc == ReadApp(o);
    r := SendRequest(r, o, state, b);
  }

  /** A settled dashboard whose AppBinding names an auth Secret that is gone. */
  function Secretless(app: App, u: string): World {
    World(Initial(Db(true, false, Current, Some(Ref(u, Some(app.state))), PLAIN)), Initial(Some(app)), Initial(false),
          {Remote(app.server, u)}, 0, Idle, [])
  }

  lemma Deleted(app: App, u: string) returns (r: Trip, o: Held)
    requires app.auth
    ensures r.Holds() && r.First() == Secretless(app, u) && Valid(r.Last())
    ensures r.Last().pc == DeleteRemote(o) && r.Last().db.Live() == o && r.Last().run == 1 && r.Last().log == []
    ensures o.ref == Some(Ref(u, Some(app.state))) && o.fin && o.deleting
    ensures r.Last().app == Initial(Some(app)) && !Reachable(r.Last()) && r.Last().remote == {Remote(app.server, u)}
  {
    o := Db(true, true, Current, Some(Ref(u, Some(app.state))), PLAIN);
    r := Trip([Secretless(app, u)], []);
    assert r.Holds();
    r := Move(r, Delete);
    r := Go(r, Sync(1, 0, 0));
    r := Go(r, Yes(""));
    assert r.Last().pc == MarkTerminating(o);
    r := Go(r, Yes(""));
    o := o.(phase := Terminating);
  }

  /** A whole run: the object is deleted, its AppBinding is there, its remote answers, and yet the
      finalizer goes and the recorded dashboard stays, because the auth Secret is missing. */
  lemma MissingSecretLeaksDashboard(app: App, u: string) returns (w: World, steps: seq<Step>, r: World)
    requires app.auth
    ensures Start(w) && r == Run(w, steps) && Valid(r) && r.app.Live() == Some(app)
    ensures r.log == [NoSecret(1), FinalizerRemoved(1, Some(Ref(u, Some(app.state))))]
    ensures r.db.Live().Db? && r.db.Live().deleting && !r.db.Live().fin && Remote(app.server, u) in r.remote
  {
    var t, o := Deleted(app, u);
    t := DropUnseen(t, o);
    w, steps, r := t.First(), t.steps, t.Last();
    TripIsRun(t);
  }

  lemma DropUnseen(t: Trip, o: Held) returns (r: Trip)
    requires t.Holds() && Valid(t.Last()) && t.Last().pc == DeleteRemote(o) && o.ref.Some? && o.fin && t.Last().db.Live() == o
    requires t.Last().app.Cached().Some? && !Reachable(t.Last())
    ensures r.Holds() && r.First() == t.First() && Valid(r.Last())
    ensures r.Last().remote == t.Last().remote && r.Last().app == t.Last().app
    ensures r.Last().log == t.Last().log + [NoSecret(t.Last().run), FinalizerRemoved(t.Last().run, o.ref)]
    ensures r.Last().db.Live() == o.(fin := false)
  {
    r := Go(t, Yes(""));
    assert r.Last().pc == DropFinalizer(o);
    r := Go(r, Yes(""));
  }
}
