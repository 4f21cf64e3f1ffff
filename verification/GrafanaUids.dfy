/**
 How many remote dashboards one object gets while the Grafana state stays the same: one, exactly as
 long as no careless step is taken.
 */
module GrafanaUids {
  import opened Kube
  import opened GrafanaSync

  // ---------------------------------------------------------------- careless steps

  /** The UID that a sync from this version would update. */
  function Recorded(d: Db, state: string): Option<string> {
    if d.Db? then Request(d, state) else None
  }

  /** The stored object shows a UID to update, and the cached one another or none. */
  predicate Misread(w: World, state: string)
    requires Valid(w)
  {
    Recorded(w.db.Live(), state).Some? && Recorded(w.db.Cached(), state) != Recorded(w.db.Live(), state)
  }

  /** A step after which an object gets a second remote dashboard: a reconcile goes, unrefreshed by any
      patch, into the sync from a read that does not show the recorded UID; or the response to a
      request is lost, or after it the organisation cannot be read or the status not be written,
      while the UID it set is not recorded. */
  predicate Careless(w: World, s: Step, state: string)
    requires Valid(w)
  {
    s.Call? &&
    match w.pc
    case Idle => s.c.ok && Dispatch(w.db.Cached()).ReadApp? && Misread(w, state)
    case SetRemote(o, _) =>
      Lost(w, o, s.c) && Recorded(w.db.Live(), state) != Some(SetUid(o, w.pc.state, s.c))
    case ReadOrg(_, uid) => !s.c.ok && Recorded(w.db.Live(), state) != Some(uid)
    case RecordSync(_, uid) => !s.c.ok && Recorded(w.db.Live(), state) != Some(uid)
    case _ => false
  }

  /** The request of this call takes effect without an answer. */
  predicate Lost(w: World, o: Held, c: Choice)
    requires Valid(w) && w.pc.SetRemote? && w.pc.o == o
  {
    !c.ok && c.lost && Reachable(w) && Accepts(w, o, w.pc.state)
  }

  /** The Grafana state does not change, the object keeps its identity and a model. The AppBinding and
      its Secret may come and go. */
  predicate Steady(w: World, s: Step, state: string)
    requires Valid(w)
  {
    && !Recreates(w, s)
    && (s.ChangeApp? && s.next.Some? ==> s.next.value.state == state)
    && (s.EditSpec? ==> s.model.Model?)
  }

  predicate AllSteady(w: World, steps: seq<Step>, state: string)
    requires Valid(w)
  {
    steps == [] ||
    (AllSteady(w, steps[..|steps| - 1], state) && Steady(Run(w, steps[..|steps| - 1]), steps[|steps| - 1], state))
  }

  predicate NeverCareless(w: World, steps: seq<Step>, state: string)
    requires Valid(w)
  {
    steps == [] ||
    (NeverCareless(w, steps[..|steps| - 1], state) && !Careless(Run(w, steps[..|steps| - 1]), steps[|steps| - 1], state))
  }

  // ---------------------------------------------------------------- the invariant

  /** u is the UID of every request that has reached the remote since the log had length n0. */
  ghost predicate OneUid(log: seq<Event>, n0: nat, u: Option<string>) {
    forall n :: n0 <= n < |log| && (log[n].Set? || log[n].LostSet?) ==> u == Some(log[n].uid)
  }

  ghost predicate AppSettled(app: Versioned<Option<App>>, state: string)
    requires app.Valid()
  {
    forall i :: app.pos <= i < |app.hist| && app.hist[i].Some? ==> app.hist[i].value.state == state
  }

  /** A recorded UID is the one in use. */
  predicate Agrees(d: Db, state: string, uid: Option<string>) {
    Recorded(d, state).Some? ==> uid == Recorded(d, state)
  }

  ghost predicate HeldInv(w: World, u: Option<string>, state: string)
    requires Valid(w)
  {
    match w.pc
    case ReadApp(o) => Agrees(w.db.Live(), state, Request(o, state))
    case SetRemote(o, st) => st == state && Agrees(w.db.Live(), state, Request(o, state))
    case ReadOrg(st, uid) => st == state && u == Some(uid) && Agrees(w.db.Live(), state, u)
    case RecordSync(st, uid) => st == state && u == Some(uid) && Agrees(w.db.Live(), state, u)
    case _ => true
  }

  ghost predicate UidInv(w: World, n0: nat, u: Option<string>, state: string) {
    && Inv(w) && AppSettled(w.app, state) && OneUid(w.log, n0, u) && HeldInv(w, u, state)
    && (w.db.Live().Db? ==> w.db.Live().model.Model?)
    && (u.Some? && !w.pc.ReadOrg? && !w.pc.RecordSync? && w.db.Live().Db? ==> Recorded(w.db.Live(), state) == u)
  }

  /** Between two reconciles, with no other Grafana state known or to come. */
  ghost predicate AtRest(w: World, state: string) {
    Inv(w) && w.pc.Idle? && AppSettled(w.app, state) && (w.db.Live().Db? ==> w.db.Live().model.Model?)
  }

  lemma UidCall(w: World, n0: nat, u: Option<string>, c: Choice, state: string) returns (u': Option<string>)
    requires UidInv(w, n0, u, state) && Steady(w, Call(c), state) && !Careless(w, Call(c), state)
    requires !w.pc.Idle? && !w.pc.MarkTerminating? && !w.pc.DeleteRemote? && !w.pc.DropFinalizer?
    ensures UidInv(SyncCall(w, c), n0, u', state)
  {
    var w' := SyncCall(w, c);
    SyncKeeps(w, c);
    u' := u;
    if w.pc.SetRemote? && w'.log != w.log {
      u' := Some(SetUid(w.pc.o, w.pc.state, c));
      assert u.Some? ==> u' == u;
    }
  }

  lemma UidDeletion(w: World, n0: nat, u: Option<string>, c: Choice, state: string)
    requires UidInv(w, n0, u, state) && (w.pc.MarkTerminating? || w.pc.DeleteRemote? || w.pc.DropFinalizer?)
    ensures UidInv(DeletionCall(w, c), n0, u, state)
  {
    DeletionKeeps(w, c);
  }

  lemma UidRead(w: World, n0: nat, u: Option<string>, c: Choice, state: string)
    requires UidInv(w, n0, u, state) && w.pc.Idle? && !Careless(w, Call(c), state)
    ensures UidInv(Apply(w, Call(c)), n0, u, state)
  {
    ReadKeeps(w, c);
  }

  lemma UidEnv(w: World, n0: nat, u: Option<string>, s: Step, state: string)
    requires UidInv(w, n0, u, state) && Steady(w, s, state) && !s.Call?
    ensures UidInv(Apply(w, s), n0, u, state)
  {
    EnvKeeps(w, s);
  }

  lemma UidStep(w: World, n0: nat, u: Option<string>, s: Step, state: string) returns (u': Option<string>)
    requires UidInv(w, n0, u, state) && Steady(w, s, state) && !Careless(w, s, state)
    ensures UidInv(Apply(w, s), n0, u', state)
  {
    u' := u;
    if !s.Call? {
      UidEnv(w, n0, u, s, state);
    } else if w.pc.Idle? {
      UidRead(w, n0, u, s.c, state);
    } else if w.pc.MarkTerminating? || w.pc.DeleteRemote? || w.pc.DropFinalizer? {
      UidDeletion(w, n0, u, s.c, state);
    } else {
      u' := UidCall(w, n0, u, s.c, state);
    }
  }

  lemma {:induction false} UidRun(w: World, steps: seq<Step>, state: string) returns (u: Option<string>)
    requires AtRest(w, state) && AllSteady(w, steps, state) && NeverCareless(w, steps, state)
    ensures UidInv(Run(w, steps), |w.log|, u, state)
  {
    if steps == [] {
      u := None;
    } else {
      u := UidRun(w, steps[..|steps| - 1], state);
      u := UidStep(Run(w, steps[..|steps| - 1]), |w.log|, u, steps[|steps| - 1], state);
    }
  }

  // ---------------------------------------------------------------- without careless steps there is one UID

  /** While the Grafana state stays the same, and as long as no careless step is taken, every request
      that reaches the remote sets one UID, whatever else fails, lags behind, is edited, is removed
      from the remote or is deleted. By RunKeeps every world that a run without recreation reaches
      satisfies Inv. */
  lemma SyncsKeepOneUid(w: World, steps: seq<Step>, state: string, log: seq<Event>, i: nat, j: nat)
    requires AtRest(w, state) && AllSteady(w, steps, state) && NeverCareless(w, steps, state) && log == Run(w, steps).log
    requires |w.log| <= i < |log| && (log[i].Set? || log[i].LostSet?)
    requires |w.log| <= j < |log| && (log[j].Set? || log[j].LostSet?)
    ensures log[i].uid == log[j].uid
  {
    var u := UidRun(w, steps, state);
  }
}
