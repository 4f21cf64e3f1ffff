/**
 What the finalizer of a dashboard promises, on every run: requests are sent under it as long as no
 sync starts from an outdated read, and it goes after the remote dashboard as long as no deletion
 does. An object that is never recreated has neither read.
 */
module GrafanaFinalizers {
  import opened Kube
  import opened GrafanaSync

  // ---------------------------------------------------------------- requests

  /** A reconcile takes the finalizer for granted because the cached version has it, and the stored
      object does not. */
  predicate Unguarded(w: World, s: Step)
    requires Valid(w)
  {
    && s.Call? && s.c.ok && w.pc.Idle?
    && HasFin(w.db.Cached()) && !w.db.Cached().deleting && !HasFin(w.db.Live())
  }

  predicate NeverUnguarded(w: World, steps: seq<Step>)
    requires Valid(w)
  {
    steps == [] ||
    (NeverUnguarded(w, steps[..|steps| - 1]) && !Unguarded(Run(w, steps[..|steps| - 1]), steps[|steps| - 1]))
  }

  ghost predicate Guarded(w: World) {
    && Valid(w)
    && (w.pc.MarkProcessing? || w.pc.ReadApp? || w.pc.SetRemote? ==> HasFin(w.db.Live()))
    && forall n :: 0 <= n < |w.log| && (w.log[n].Set? || w.log[n].LostSet?) ==> w.log[n].fin
  }

  lemma GuardStep(w: World, s: Step)
    requires Guarded(w) && !Unguarded(w, s)
    ensures Guarded(Apply(w, s))
  {
    ApplyValid(w, s);
  }

  lemma {:induction false} GuardRun(w: World, steps: seq<Step>)
    requires Start(w) && NeverUnguarded(w, steps)
    ensures Guarded(Run(w, steps))
  {
    if steps != [] {
      GuardRun(w, steps[..|steps| - 1]);
      GuardStep(Run(w, steps[..|steps| - 1]), steps[|steps| - 1]);
    }
  }

  /** On every run without such a read, recreations included, a request that creates or updates a
      remote dashboard, answered or not, is only sent while the finalizer is on the stored object. */
  lemma RemoteOnlyUnderFinalizer(w: World, steps: seq<Step>, log: seq<Event>, n: nat)
    requires Start(w) && NeverUnguarded(w, steps) && log == Run(w, steps).log
    requires n < |log| && (log[n].Set? || log[n].LostSet?)
    ensures log[n].fin
  {
    GuardRun(w, steps);
  }

  // ---------------------------------------------------------------- removals

  /** What a reconcile has to learn about the recorded dashboard before it drops the finalizer. */
  ghost predicate Cleared(log: seq<Event>, run: nat, recorded: Option<Ref>) {
    recorded.Some? ==>
      || (exists e :: e in log && (e.RemoteDeleted? || e.RemoteMissing?) && e.run == run && e.r.uid == recorded.value.uid)
      || NoApp(run) in log || NoSecret(run) in log
  }

  /** The held record names the dashboard that the stored one names, if any. */
  predicate Covers(held: Option<Ref>, stored: Option<Ref>) {
    stored.Some? ==> held.Some? && held.value.uid == stored.value.uid
  }

  /** A deletion starts from a cached version that is marked already, and so goes unrefreshed to the
      remote, while the stored object is under the finalizer with another dashboard recorded. */
  predicate Misjudged(w: World, s: Step)
    requires Valid(w)
  {
    && s.Call? && s.c.ok && w.pc.Idle? && Dispatch(w.db.Cached()).DeleteRemote?
    && HasFin(w.db.Cached()) && HasFin(w.db.Live()) && !Covers(w.db.Cached().ref, w.db.Live().ref)
  }

  predicate NeverMisjudged(w: World, steps: seq<Step>)
    requires Valid(w)
  {
    steps == [] ||
    (NeverMisjudged(w, steps[..|steps| - 1]) && !Misjudged(Run(w, steps[..|steps| - 1]), steps[|steps| - 1]))
  }

  /** The reconcile holds what is stored, if its finalizer patch can take anything away. */
  predicate Holds(w: World, o: Held)
    requires Valid(w)
  {
    o.fin && HasFin(w.db.Live()) ==> Covers(o.ref, w.db.Live().ref)
  }

  ghost predicate RemovalsJustified(w: World) {
    && Valid(w)
    && (w.pc.DeleteRemote? ==> Holds(w, w.pc.o))
    && (w.pc.DropFinalizer? ==> Holds(w, w.pc.o) && Cleared(w.log, w.run, w.pc.o.ref))
    && forall n :: 0 <= n < |w.log| && w.log[n].FinalizerRemoved? ==> Cleared(w.log[..n], w.log[n].run, w.log[n].recorded)
  }

  lemma RemovalPc(w: World, c: Choice)
    requires Valid(w) && w.pc.DeleteRemote?
    ensures var w' := DeletionCall(w, c);
            w'.pc.DropFinalizer? ==> w'.pc.o == w.pc.o && Cleared(w'.log, w'.run, w'.pc.o.ref)
  {
    var w' := DeletionCall(w, c);
    if w'.pc.DropFinalizer? && w.pc.o.ref.Some? {
      var e := w'.log[|w.log|];
      assert e in w'.log;
    }
  }

  lemma RemovalStep(w: World, s: Step)
    requires RemovalsJustified(w) && !Misjudged(w, s)
    ensures RemovalsJustified(Apply(w, s))
  {
    var w' := Apply(w, s);
    ApplyValid(w, s);
    if s.Call? && w.pc.DeleteRemote? { RemovalPc(w, s.c); }
    forall n | 0 <= n < |w'.log| && w'.log[n].FinalizerRemoved? ensures Cleared(w'.log[..n], w'.log[n].run, w'.log[n].recorded) {
      if n < |w.log| {
        assert w'.log[..n] == w.log[..n];
      } else {
        assert w'.log[..n] == w.log;
      }
    }
  }

  lemma {:induction false} RemovalRun(w: World, steps: seq<Step>)
    requires Start(w) && NeverMisjudged(w, steps)
    ensures RemovalsJustified(Run(w, steps))
  {
    if steps != [] {
      RemovalRun(w, steps[..|steps| - 1]);
      RemovalStep(Run(w, steps[..|steps| - 1]), steps[|steps| - 1]);
    }
  }

  /** On every run without such a read, the finalizer goes only after, in the same reconcile, the
      dashboard that the stored status records was deleted or reported missing by the remote, or the
      AppBinding or its auth Secret was not found. */
  lemma FinalizerOutlivesRemote(w: World, steps: seq<Step>, log: seq<Event>, n: nat)
    requires Start(w) && NeverMisjudged(w, steps) && log == Run(w, steps).log
    requires n < |log| && log[n].FinalizerRemoved?
    ensures Cleared(log[..n], log[n].run, log[n].recorded)
  {
    RemovalRun(w, steps);
  }

  // ---------------------------------------------------------------- without recreation

  predicate Deletes(pc: Pc) {
    pc.Idle? || pc.MarkTerminating? || pc.DeleteRemote? || pc.DropFinalizer?
  }

  predicate Marked(d: Db) {
    d.Db? && d.phase == Terminating
  }

  /** Once a version is marked, only deletions run, and the record stays as that version has it. */
  ghost predicate EndInv(w: World)
    requires Valid(w)
  {
    forall i :: 0 <= i < |w.db.hist| && Marked(w.db.hist[i]) ==>
      && Retired(w.db.Cached()) && Deletes(w.pc) && w.db.hist[i].deleting
      && (w.db.Live().Db? ==> w.db.Live().ref == w.db.hist[i].ref)
  }

  lemma EndStep(w: World, s: Step)
    requires Inv(w) && EndInv(w) && !Recreates(w, s)
    ensures EndInv(Apply(w, s))
  {
    var w' := Apply(w, s);
    ApplyValid(w, s);
    StepKeeps(w, s);
    assert |w.db.hist| <= |w'.db.hist| && w'.db.hist[..|w.db.hist|] == w.db.hist;
    forall i | 0 <= i < |w'.db.hist| && Marked(w'.db.hist[i])
      ensures Retired(w'.db.Cached()) && Deletes(w'.pc) && w'.db.hist[i].deleting
      ensures w'.db.Live().Db? ==> w'.db.Live().ref == w'.db.hist[i].ref
    {
      if i < |w.db.hist| {
        assert w'.db.hist[i] == w.db.hist[i];
      }
    }
  }

  lemma {:induction false} EndRun(w: World, steps: seq<Step>)
    requires Start(w) && NeverRecreated(w, steps) && (Marked(w.db.Live()) ==> w.db.Live().deleting)
    ensures Inv(Run(w, steps)) && EndInv(Run(w, steps))
  {
    RunKeeps(w, steps);
    if steps != [] {
      EndRun(w, steps[..|steps| - 1]);
      EndStep(Run(w, steps[..|steps| - 1]), steps[|steps| - 1]);
    }
  }

  /** A run in which the object does not come back under its name has neither read, if a start object
      that is marked for deletion is being deleted. */
  lemma {:induction false} NoRecreationNoStaleReads(w: World, steps: seq<Step>)
    requires Start(w) && NeverRecreated(w, steps)
    ensures NeverUnguarded(w, steps)
    ensures (Marked(w.db.Live()) ==> w.db.Live().deleting) ==> NeverMisjudged(w, steps)
  {
    if steps != [] {
      NoRecreationNoStaleReads(w, steps[..|steps| - 1]);
      RunKeeps(w, steps[..|steps| - 1]);
      if Marked(w.db.Live()) ==> w.db.Live().deleting { EndRun(w, steps[..|steps| - 1]); }
    }
  }

  // ---------------------------------------------------------------- what the removal leaves behind

  /** Moves of the environment that leave the dashboard on its server. */
  predicate Spares(moves: seq<Step>, r: Remote) {
    forall m :: m in moves ==> !m.Call? && m != DropRemote(r)
  }

  lemma {:induction false} MovesSpare(w: World, moves: seq<Step>, r: Remote)
    requires Valid(w) && Spares(moves, r)
    ensures var w' := Run(w, moves);
            w'.pc == w.pc && w'.run == w.run && w'.log == w.log && (r in w'.remote <==> r in w.remote)
  {
    if moves != [] {
      var m := moves[|moves| - 1];
      assert m in moves;
      MovesSpare(w, moves[..|moves| - 1], r);
    }
  }

  /** The deletion call finds a client for the server of r. */
  predicate Reaches(w: World, r: Remote)
    requires Valid(w)
  {
    Reachable(w) && w.app.Cached().value.server == r.server
  }

  /** The dashboard that the stored status records when the finalizer is removed, if it was on its
      server at the deletion call and nobody else removes it, survives if and only if that call was not
      for it: the reconcile held no record or another one, the AppBinding or its auth Secret was
      missing, or the AppBinding pointed to another server. */
  lemma SurvivesIff(w: World, o: Held, c: Choice, moves: seq<Step>, d: Choice, stored: Ref, r: Remote)
    requires Valid(w) && w.pc == DeleteRemote(o) && stored.uid == r.uid && r in w.remote
    requires Spares(moves, r) && Valid(DeletionCall(w, c))
    requires var w1 := Run(DeletionCall(w, c), moves);
             w1.pc == DropFinalizer(o) && DeletionCall(w1, d).log == w1.log + [FinalizerRemoved(w.run, Some(stored))]
    ensures r in DeletionCall(Run(DeletionCall(w, c), moves), d).remote
            <==> !Covers(o.ref, Some(stored)) || !Reaches(w, r)
  {
    MovesSpare(DeletionCall(w, c), moves, r);
  }
}
