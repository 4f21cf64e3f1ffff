/**
 Synchronising one GrafanaDashboard with a remote Grafana: finalizer, status and remote store as a
 transition system. A step is one call of the reconcile or one move of the environment; reads go
 to a cache that lags but never moves back, and every call can fail. A patch acts on the stored
 object and hands its new version back to the reconcile.
 */
module GrafanaSync {
  import opened Kube

  datatype Phase = Unset | Processing | Failed | Current | Terminating

  /** status.dashboard: the remote UID and the Grafana state it was set under. */
  datatype Ref = Ref(uid: string, state: Option<string>)

  /** own: the UID that the dashboard model itself carries, if any. */
  datatype Model = NoModel | Model(own: Option<string>)

  datatype Db = Absent | Db(fin: bool, deleting: bool, phase: Phase, ref: Option<Ref>, model: Model)

  type Held = d: Db | d.Db? witness Db(false, false, Unset, None, NoModel)

  datatype Pc =
    | Idle
    | MarkTerminating(o: Held)
    | DeleteRemote(o: Held)
    | DropFinalizer(o: Held)
    | AddFinalizer(o: Held)
    | MarkProcessing(o: Held)
    | ReadApp(o: Held)
    | SetRemote(o: Held, state: string)
    | ReadOrg(state: string, uid: string)
    | RecordSync(state: string, uid: string)
    | RecordFailure

  /** The Grafana AppBinding: its state as GrafanaState computes it, the server it points to, and
      whether it names an auth Secret. */
  datatype App = App(state: string, server: string, auth: bool)

  /** A dashboard on a Grafana server. */
  datatype Remote = Remote(server: string, uid: string)

  /** Set carries whether the stored object had the finalizer at that moment, FinalizerRemoved what
      its status recorded. RemoteMissing is the 404 of a deletion, NoApp and NoSecret the AppBinding or
      its auth Secret not being found. */
  datatype Event =
    | Set(run: nat, request: Option<string>, uid: string, fin: bool)
    | LostSet(run: nat, uid: string, fin: bool)
    | RemoteDeleted(run: nat, r: Remote)
    | RemoteMissing(run: nat, r: Remote)
    | NoApp(run: nat)
    | NoSecret(run: nat)
    | FinalizerRemoved(run: nat, recorded: Option<Ref>)

  /** secret: the auth Secret of the AppBinding exists. */
  datatype World = World(
    db: Versioned<Db>,
    app: Versioned<Option<App>>,
    secret: Versioned<bool>,
    remote: set<Remote>,
    run: nat,
    pc: Pc,
    log: seq<Event>)

  /** lost: a request took effect but its response was lost. seen: the cache has caught up with a
      removal. uid: the UID a remote picks for a new dashboard
      whose model carries none. */
  datatype Choice = Choice(ok: bool, lost: bool, seen: bool, uid: string)

  datatype Step =
    | Call(c: Choice)
    | Create(model: Model)
    | Delete
    | Finish
    | EditSpec(model: Model)
    | ChangeApp(next: Option<App>)
    | ChangeSecret(present: bool)
    | DropRemote(r: Remote)
    | Sync(db: nat, app: nat, secret: nat)

  predicate Valid(w: World) {
    w.db.Valid() && w.app.Valid() && w.secret.Valid()
  }

  function Store(w: World, d: Db, pc: Pc): World {
    w.(db := w.db.Write(d), pc := pc)
  }

  /** After the cached read: the branches of Reconcile up to the next call. */
  function Dispatch(d: Db): Pc {
    if d.Absent? then Idle
    else if d.deleting then (if d.phase != Terminating then MarkTerminating(d) else DeleteRemote(d))
    else if !d.fin then AddFinalizer(d)
    else AfterFinalizer(d)
  }

  function AfterFinalizer(o: Held): Pc {
    if o.phase != Processing && o.phase != Failed then MarkProcessing(o) else ReadApp(o)
  }

  /** The dashboard recorded in status is updated only if it was set under the same state. */
  function Request(o: Held, state: string): Option<string> {
    if o.model.Model? && o.ref.Some? && (o.ref.value.state.None? || o.ref.value.state.value == state)
    then Some(o.ref.value.uid) else None
  }

  /** The UID of a new dashboard: that of the model, or one the remote picks. */
  function Picked(o: Held, uid: string): string {
    if o.model.Model? && o.model.own.Some? then o.model.own.value else uid
  }

  function SetUid(o: Held, state: string, c: Choice): string {
    if Request(o, state).Some? then Request(o, state).value else Picked(o, c.uid)
  }

  /** NewGrafanaClient finds the AppBinding and, if that names one, the auth Secret. */
  predicate Reachable(w: World)
    requires Valid(w)
  {
    w.app.Cached().Some? && (w.app.Cached().value.auth ==> w.secret.Cached())
  }

  /** The remote has the dashboard that the request would update. */
  predicate Accepts(w: World, o: Held, state: string)
    requires Valid(w) && Reachable(w)
  {
    Request(o, state).Some? ==> Remote(w.app.Cached().value.server, Request(o, state).value) in w.remote
  }

  /** Deletion: mark, delete the recorded remote dashboard, drop the finalizer. */
  function DeletionCall(w: World, c: Choice): World
    requires Valid(w) && (w.pc.MarkTerminating? || w.pc.DeleteRemote? || w.pc.DropFinalizer?)
  {
    var live := w.db.Live();
    match w.pc
    case MarkTerminating(o) =>
      if c.ok && live.Db? then
        var d: Held := live.(phase := Terminating);
        Store(w, d, DeleteRemote(d))
      else w.(pc := Idle)
    case DeleteRemote(o) =>
      if o.ref.None? then w.(pc := DropFinalizer(o))
      else if w.app.Cached().None? then w.(pc := DropFinalizer(o), log := w.log + [NoApp(w.run)])
      else if !Reachable(w) then w.(pc := DropFinalizer(o), log := w.log + [NoSecret(w.run)])
      else
        var r := Remote(w.app.Cached().value.server, o.ref.value.uid);
        if !c.ok then w.(pc := Idle, remote := if c.lost then w.remote - {r} else w.remote)
        else if r in w.remote then w.(pc := DropFinalizer(o), remote := w.remote - {r}, log := w.log + [RemoteDeleted(w.run, r)])
        else w.(pc := DropFinalizer(o), log := w.log + [RemoteMissing(w.run, r)])
    case DropFinalizer(o) =>
      if c.ok && live.Db? && o.fin
      then Store(w, live.(fin := false), Idle).(log := if live.fin then w.log + [FinalizerRemoved(w.run, live.ref)] else w.log)
      else w.(pc := Idle)
  }

  function SyncCall(w: World, c: Choice): World
    requires Valid(w) && !w.pc.Idle? && !w.pc.MarkTerminating? && !w.pc.DeleteRemote? && !w.pc.DropFinalizer?
  {
    var live := w.db.Live();
    match w.pc
    case AddFinalizer(o) =>
      if !c.ok then w.(pc := Idle)
      else if live.Db? && (live.fin || !live.deleting) then
        var d: Held := live.(fin := true);
        Store(w, d, AfterFinalizer(d))
      else if live.Absent? && c.seen then
        var d: Held := Db(true, false, Unset, None, o.model);  // CreateOrPatch creates it again
        Store(w, d, AfterFinalizer(d))
      else w.(pc := Idle)
    case MarkProcessing(o) =>
      if c.ok && live.Db? then
        var d: Held := live.(phase := Processing);
        Store(w, d, ReadApp(d))
      else w.(pc := Idle)
    case ReadApp(o) =>
      w.(pc := if c.ok && w.app.Cached().Some? then SetRemote(o, w.app.Cached().value.state) else RecordFailure)
    case SetRemote(o, state) =>
      if !Reachable(w) then w.(pc := RecordFailure) else
      var uid := SetUid(o, state, c);
      var r := Remote(w.app.Cached().value.server, uid);
      var fin := live.Db? && live.fin;
      if !Accepts(w, o, state) then w.(pc := RecordFailure)
      else if c.ok
      then w.(pc := ReadOrg(state, uid), remote := w.remote + {r}, log := w.log + [Set(w.run, Request(o, state), uid, fin)])
      else if c.lost then w.(pc := RecordFailure, remote := w.remote + {r}, log := w.log + [LostSet(w.run, uid, fin)])
      else w.(pc := RecordFailure)
    case ReadOrg(state, uid) => w.(pc := if c.ok then RecordSync(state, uid) else RecordFailure)
    case RecordSync(state, uid) =>
      if c.ok && live.Db? then Store(w, live.(phase := Current, ref := Some(Ref(uid, Some(state)))), Idle)
      else w.(pc := Idle)
    case RecordFailure =>
      if c.ok && live.Db? then Store(w, live.(phase := Failed), Idle) else w.(pc := Idle)
  }

  function Apply(w: World, s: Step): World
    requires Valid(w)
  {
    var live := w.db.Live();
    match s
    case Call(c) =>
      if w.pc.Idle? then w.(run := w.run + 1, pc := if c.ok then Dispatch(w.db.Cached()) else Idle)
      else if w.pc.MarkTerminating? || w.pc.DeleteRemote? || w.pc.DropFinalizer? then DeletionCall(w, c)
      else SyncCall(w, c)
    case Create(m) => if live.Absent? then w.(db := w.db.Write(Db(false, false, Unset, None, m))) else w
    case Delete => if live.Db? then w.(db := w.db.Write(live.(deleting := true))) else w
    case Finish => if live.Db? && live.deleting && !live.fin then w.(db := w.db.Write(Absent)) else w
    case EditSpec(m) => if live.Db? then w.(db := w.db.Write(live.(model := m))) else w
    case ChangeApp(a) => w.(app := w.app.Write(a))
    case ChangeSecret(b) => w.(secret := w.secret.Write(b))
    case DropRemote(r) => w.(remote := w.remote - {r})
    case Sync(i, j, k) => w.(db := w.db.Sync(i), app := w.app.Sync(j), secret := w.secret.Sync(k))
  }

  lemma ApplyValid(w: World, s: Step)
    requires Valid(w)
    ensures Valid(Apply(w, s))
  {
  }

  function Run(w: World, steps: seq<Step>): (r: World)
    requires Valid(w)
    ensures Valid(r)
  {
    if steps == [] then w
    else
      var w' := Run(w, steps[..|steps| - 1]);
      ApplyValid(w', steps[|steps| - 1]);
      Apply(w', steps[|steps| - 1])
  }

  lemma {:induction false} RunAppend(w: World, a: seq<Step>, b: seq<Step>)
    requires Valid(w)
    ensures Run(w, a + b) == Run(Run(w, a), b)
  {
    if b == [] {
      assert a + b == a;
    } else {
      RunAppend(w, a, b[..|b| - 1]);
      assert (a + b)[..|a + b| - 1] == a + b[..|b| - 1];
    }
  }

  lemma RunStep(w: World, steps: seq<Step>, s: Step)
    requires Valid(w)
    ensures Run(w, steps + [s]) == Apply(Run(w, steps), s)
  {
    assert (steps + [s])[..|steps|] == steps;
  }

  ghost predicate Start(w: World) {
    Valid(w) && |w.db.hist| == 1 && w.pc == Idle && w.log == []
  }

  // ---------------------------------------------------------------- the finalizer

  /** The object comes into being again: by a user, or because ensuring the finalizer found none. */
  predicate Recreates(w: World, s: Step)
    requires Valid(w)
  {
    w.db.Live().Absent? && (s.Create? || (s.Call? && w.pc.AddFinalizer? && s.c.ok && s.c.seen))
  }

  predicate NeverRecreated(w: World, steps: seq<Step>)
    requires Valid(w)
  {
    steps == [] ||
    (NeverRecreated(w, steps[..|steps| - 1]) && !Recreates(Run(w, steps[..|steps| - 1]), steps[|steps| - 1]))
  }

  predicate Retired(d: Db) {
    d.Absent? || d.deleting
  }

  predicate HasFin(d: Db) {
    d.Db? && d.fin
  }

  ghost predicate HistoryInv(db: Versioned<Db>)
    requires db.Valid()
  {
    && (forall i, j :: 0 <= i <= j < |db.hist| && Retired(db.hist[i]) ==> Retired(db.hist[j]))
    && (forall i :: 0 <= i < |db.hist| && HasFin(db.hist[i]) ==> HasFin(db.Live()) || Retired(db.Cached()))
  }

  ghost predicate PcInv(w: World)
    requires Valid(w)
  {
    match w.pc
    case Idle => true
    case MarkTerminating(_) => Retired(w.db.Cached())
    case DeleteRemote(o) => Retired(w.db.Cached())
    case DropFinalizer(o) => Retired(w.db.Cached())
    case AddFinalizer(_) => true
    case RecordFailure => true
    case _ => HasFin(w.db.Live())
  }

  ghost predicate Inv(w: World) {
    Valid(w) && HistoryInv(w.db) && PcInv(w)
  }

  lemma WriteKeeps(db: Versioned<Db>, d: Db)
    requires db.Valid() && HistoryInv(db)
    requires Retired(db.Live()) ==> Retired(d)
    requires HasFin(db.Live()) ==> HasFin(d) || Retired(db.Cached())
    ensures HistoryInv(db.Write(d))
  {
  }

  lemma DeletionKeeps(w: World, c: Choice)
    requires Inv(w) && (w.pc.MarkTerminating? || w.pc.DeleteRemote? || w.pc.DropFinalizer?)
    ensures Inv(DeletionCall(w, c))
  {
    var w' := DeletionCall(w, c);
    if w'.db != w.db { WriteKeeps(w.db, w'.db.Live()); }
  }

  lemma SyncKeeps(w: World, c: Choice)
    requires Inv(w) && !Recreates(w, Call(c))
    requires !w.pc.Idle? && !w.pc.MarkTerminating? && !w.pc.DeleteRemote? && !w.pc.DropFinalizer?
    ensures Inv(SyncCall(w, c))
  {
    var w' := SyncCall(w, c);
    if w'.db != w.db { WriteKeeps(w.db, w'.db.Live()); }
  }

  lemma ReadKeeps(w: World, c: Choice)
    requires Inv(w) && w.pc.Idle?
    ensures Inv(Apply(w, Call(c)))
  {
  }

  lemma EnvKeeps(w: World, s: Step)
    requires Inv(w) && !s.Call? && !Recreates(w, s)
    ensures Inv(Apply(w, s))
  {
    var w' := Apply(w, s);
    if w'.db != w.db && !s.Sync? { WriteKeeps(w.db, w'.db.Live()); }
  }

  lemma StepKeeps(w: World, s: Step)
    requires Inv(w) && !Recreates(w, s)
    ensures Inv(Apply(w, s))
  {
    if !s.Call? {
      EnvKeeps(w, s);
    } else if w.pc.Idle? {
      ReadKeeps(w, s.c);
    } else if w.pc.MarkTerminating? || w.pc.DeleteRemote? || w.pc.DropFinalizer? {
      DeletionKeeps(w, s.c);
    } else {
      SyncKeeps(w, s.c);
    }
  }

  lemma {:induction false} RunKeeps(w: World, steps: seq<Step>)
    requires Start(w) && NeverRecreated(w, steps)
    ensures Inv(Run(w, steps))
  {
    if steps != [] {
      RunKeeps(w, steps[..|steps| - 1]);
      StepKeeps(Run(w, steps[..|steps| - 1]), steps[|steps| - 1]);
    }
  }
}
