/**
 What every run keeps about the lifecycle of a client org: copied dashboards are covered by the
 finalizer, and a finished teardown is final.
 */
module ClientOrgSafety {
  import opened Kube
  import opened ClientOrgMachine

  /** Once marked for teardown a namespace stays so, and once removed it is not created again. */
  predicate Reactivates(w: World, s: Step)
    requires Valid(w)
  {
    && (s.EditNamespace? || s.CreateNamespace?)
    && s.org in w.orgs
    && Retired(w.orgs[s.org].ns.Live())
    && !Retired(EnvOrg(w.orgs[s.org], s).ns.Live())
  }

  predicate NoReactivation(w: World, steps: seq<Step>)
    requires Valid(w)
  {
    steps == [] ||
    (NoReactivation(w, steps[..|steps| - 1]) && !Reactivates(Run(w, steps[..|steps| - 1]), steps[|steps| - 1]))
  }

  /** The finalizer is on the stored namespace. */
  predicate Held(v: Ns) {
    v.Ns? && v.fin
  }

  // ---------------------------------------------------------------- invariant of one org

  /** Retired versions are followed by retired ones only, and the finalizer, once stored, is on
      the live version unless that one is retired. */
  ghost predicate HistoryInv(h: seq<Ns>)
    requires |h| > 0
  {
    forall i :: 0 <= i < |h| ==>
      && (Retired(h[i]) ==> Retired(h[|h| - 1]))
      && (Held(h[i]) ==> Retired(h[|h| - 1]) || Held(h[|h| - 1]))
  }

  ghost predicate PcInv(o: Org)
    requires ValidOrg(o)
  {
    var live := o.ns.Live();
    match o.pc
    case Idle => true
    case Unregister(_, ns, _) => ns in o.ns.hist && Retired(ns)
    case DeleteAll(b, ns, _) =>
      ns in o.ns.hist && Retired(ns) && (b == Perses ==> forall d :: d in o.copies ==> d.backend == Perses)
    case DropFinalizer(ns, _) => ns in o.ns.hist && Retired(ns) && o.copies == {}
    case MarkCleaned(ns) => ns in o.ns.hist && Retired(ns)
    case FreshRead(ns) => ns in o.ns.hist
    case AddFinalizer(ns) => !o.torn && (ns.fin ==> Held(live))
    case _ => !o.torn && Held(live)
  }

  ghost predicate OrgInv(o: Org) {
    && ValidOrg(o)
    && HistoryInv(o.ns.hist)
    && (o.torn ==> Retired(o.ns.Live()) && o.copies == {})
    && (o.copies != {} ==> Held(o.ns.Live()))
    && PcInv(o)
  }

  lemma RetiredSnapshot(o: Org, ns: Ns)
    requires OrgInv(o) && ns in o.ns.hist && Retired(ns)
    ensures Retired(o.ns.Live())
  {
    var i :| 0 <= i < |o.ns.hist| && o.ns.hist[i] == ns;
  }

  lemma WriteKeepsHistory(h: seq<Ns>, v: Ns)
    requires |h| > 0 && HistoryInv(h)
    requires Retired(h[|h| - 1]) ==> Retired(v)
    requires Held(h[|h| - 1]) ==> Retired(v) || Held(v)
    ensures HistoryInv(h + [v])
  {
    var h' := h + [v];
    forall i | 0 <= i < |h'|
      ensures (Retired(h'[i]) ==> Retired(v)) && (Held(h'[i]) ==> Retired(v) || Held(v))
    {
      if i < |h| { assert h'[i] == h[i]; }
    }
  }

  lemma TeardownKeeps(x: string, o: Org, c: Choice)
    requires OrgInv(o)
    requires o.pc.Unregister? || o.pc.DeleteAll? || o.pc.DropFinalizer? || o.pc.MarkCleaned?
    ensures OrgInv(TeardownStep(x, o, c).0)
  {
    RetiredSnapshot(o, o.pc.ns);
    var o' := TeardownStep(x, o, c).0;
    if o'.ns != o.ns {
      WriteKeepsHistory(o.ns.hist, o'.ns.Live());
    }
  }

  lemma LiveKeeps(o: Org, c: Choice)
    requires OrgInv(o)
    requires o.pc.FreshRead? || o.pc.AddFinalizer? || o.pc.GetMonitoring? || o.pc.CreateMonitoring?
    ensures OrgInv(LiveStep(o, c))
  {
    var o' := LiveStep(o, c);
    if o'.ns != o.ns {
      WriteKeepsHistory(o.ns.hist, o'.ns.Live());
    }
  }

  lemma RegisterKeeps(x: string, o: Org, c: Choice)
    requires OrgInv(o)
    requires o.pc.CheckBinding? || o.pc.HubRegister? || o.pc.WriteBinding? || o.pc.WriteSecret? || o.pc.StampMarker?
    ensures OrgInv(RegisterStep(x, o, c).0)
  {
  }

  lemma CopyKeeps(x: string, o: Org, c: Choice)
    requires OrgInv(o)
    requires o.pc.ListDashboards? || o.pc.CopyNext?
    ensures OrgInv(CopyStep(x, o, c).0)
  {
  }

  lemma GateKeeps(w: World, x: string, c: Choice)
    requires Valid(w) && x in w.orgs && OrgInv(w.orgs[x])
    requires var pc := w.orgs[x].pc; pc.Idle? || pc.BindRole? || pc.FindPrometheus? || pc.GateRole? || pc.ReadState?
    ensures OrgInv(OrgStep(w, x, c).0)
  {
  }

  lemma OrgStepKeeps(w: World, x: string, c: Choice)
    requires Valid(w) && x in w.orgs && OrgInv(w.orgs[x])
    ensures OrgInv(OrgStep(w, x, c).0)
  {
    var o := w.orgs[x];
    if o.pc.Unregister? || o.pc.DeleteAll? || o.pc.DropFinalizer? || o.pc.MarkCleaned? {
      TeardownKeeps(x, o, c);
    } else if o.pc.FreshRead? || o.pc.AddFinalizer? || o.pc.GetMonitoring? || o.pc.CreateMonitoring? {
      LiveKeeps(o, c);
    } else if o.pc.ListDashboards? || o.pc.CopyNext? {
      CopyKeeps(x, o, c);
    } else if o.pc.Idle? || o.pc.BindRole? || o.pc.FindPrometheus? || o.pc.GateRole? || o.pc.ReadState? {
      GateKeeps(w, x, c);
    } else {
      RegisterKeeps(x, o, c);
    }
  }

  lemma EnvOrgKeeps(o: Org, s: Step)
    requires OrgInv(o)
    requires (s.EditNamespace? || s.CreateNamespace?) && Retired(o.ns.Live()) ==> Retired(EnvOrg(o, s).ns.Live())
    ensures OrgInv(EnvOrg(o, s))
  {
    var o' := EnvOrg(o, s);
    if |o'.ns.hist| != |o.ns.hist| {
      WriteKeepsHistory(o.ns.hist, o'.ns.Live());
      assert forall v :: v in o.ns.hist ==> v in o'.ns.hist;
    }
  }

  // ---------------------------------------------------------------- invariant of the world

  /** No dashboard is copied for an org after its teardown has completed. */
  ghost predicate FinalTeardown(log: seq<Event>) {
    forall i, j :: 0 <= i < j < |log| && log[i].TornDown? && log[j].Copied? ==> log[i].org != log[j].org
  }

  ghost predicate Inv(w: World) {
    && Valid(w)
    && (forall x :: x in w.orgs ==> OrgInv(w.orgs[x]))
    && FinalTeardown(w.log)
    && (forall i :: 0 <= i < |w.log| && w.log[i].TornDown? ==> w.log[i].org in w.orgs && w.orgs[w.log[i].org].torn)
  }

  lemma TornStays(w: World, x: string, c: Choice)
    requires Valid(w) && x in w.orgs
    ensures w.orgs[x].torn ==> OrgStep(w, x, c).0.torn
    ensures |OrgStep(w, x, c).1| <= 1
    ensures forall e :: e in OrgStep(w, x, c).1 && (e.TornDown? || e.Copied?) ==> e.org == x
    ensures forall e :: e in OrgStep(w, x, c).1 && e.TornDown? ==> OrgStep(w, x, c).0.torn
    ensures forall e :: e in OrgStep(w, x, c).1 && e.Copied? ==> w.orgs[x].pc.CopyNext?
  {
  }

  lemma ReconcileKeeps(w: World, x: string, c: Choice)
    requires Inv(w) && x in w.orgs
    ensures Inv(Apply(w, Reconcile(x, c)))
  {
    ApplyValid(w, Reconcile(x, c));
    OrgStepKeeps(w, x, c);
    TornStays(w, x, c);
    var r := OrgStep(w, x, c);
    var w' := Apply(w, Reconcile(x, c));
    forall i, j | 0 <= i < j < |w'.log| && w'.log[i].TornDown? && w'.log[j].Copied?
      ensures w'.log[i].org != w'.log[j].org
    {
      if j >= |w.log| {
        assert w'.log[j] in r.1;
        assert w'.log[i] == w.log[i];
        assert !w.orgs[x].torn;
      }
    }
    forall i | 0 <= i < |w'.log| && w'.log[i].TornDown?
      ensures w'.log[i].org in w'.orgs && w'.orgs[w'.log[i].org].torn
    {
      if i >= |w.log| { assert w'.log[i] in r.1; }
    }
  }

  lemma PromIsElsewhere(w: World, c: Choice)
    requires Valid(w)
    ensures forall e :: e in PromStep(w.hub, w.states, w.role, w.promRuns, w.prom, c).2 ==> !e.TornDown? && !e.Copied?
  {
  }

  lemma PromKeeps(w: World, c: Choice)
    requires Inv(w)
    ensures Inv(Apply(w, PromReconcile(c)))
  {
    PromIsElsewhere(w, c);
    var es := PromStep(w.hub, w.states, w.role, w.promRuns, w.prom, c).2;
    var log' := w.log + es;
    ApplyValid(w, PromReconcile(c));
    forall i | |w.log| <= i < |log'|
      ensures !log'[i].TornDown? && !log'[i].Copied?
    {
      assert log'[i] == es[i - |w.log|];
    }
  }

  lemma EnvKeeps(w: World, s: Step)
    requires Inv(w) && !Reactivates(w, s)
    requires OnOrg(s)
    ensures Inv(Apply(w, s))
  {
    if s.org in w.orgs {
      EnvOrgKeeps(w.orgs[s.org], s);
      ApplyValid(w, s);
    }
  }

  lemma StepKeeps(w: World, s: Step)
    requires Inv(w) && !Reactivates(w, s)
    ensures Inv(Apply(w, s))
  {
    match s
    case Reconcile(x, c) =>
      if x in w.orgs { ReconcileKeeps(w, x, c); }
    case PromReconcile(c) => PromKeeps(w, c);
    case ChangeState(_) =>
    case DropRole =>
    case SyncShared(_, _) =>
    case _ => EnvKeeps(w, s);
  }

  lemma {:induction false} RunKeeps(w: World, steps: seq<Step>)
    requires Inv(w) && NoReactivation(w, steps)
    ensures Inv(Run(w, steps))
  {
    if steps != [] {
      RunKeeps(w, steps[..|steps| - 1]);
      StepKeeps(Run(w, steps[..|steps| - 1]), steps[|steps| - 1]);
    }
  }

  lemma InitInv(w: World)
    requires Init(w)
    ensures Inv(w)
  {
  }

  // ---------------------------------------------------------------- main results

  /** At every point of every run without reactivation, a live copied dashboard of an org means
      that its namespace is still stored and carries the finalizer. */
  lemma CopiesAreCovered(w: World, steps: seq<Step>, r: World, x: string, d: Dashboard)
    requires Init(w) && NoReactivation(w, steps) && r == Run(w, steps)
    requires x in r.orgs && d in r.orgs[x].copies
    ensures Held(r.orgs[x].ns.Live())
  {
    InitInv(w);
    RunKeeps(w, steps);
  }

  /** A completed teardown is final: whatever stale copies the cache still serves, no later call
      of any reconcile writes a dashboard copy for that org, and none is left. */
  lemma TeardownIsFinal(w: World, steps: seq<Step>, r: World, x: string, i: nat)
    requires Init(w) && NoReactivation(w, steps) && r == Run(w, steps)
    requires i < |r.log| && r.log[i] == TornDown(x)
    ensures forall j, d :: i < j < |r.log| ==> r.log[j] != Copied(x, d)
    ensures x in r.orgs && r.orgs[x].copies == {} && Retired(r.orgs[x].ns.Live())
  {
    InitInv(w);
    RunKeeps(w, steps);
  }

  // ---------------------------------------------------------------- runs with reactivation

  /** ensureFinalizer is about to send an empty patch: its copy of the namespace shows a
      finalizer that the server no longer has. */
  predicate StaleFinalizer(w: World, s: Step)
    requires Valid(w)
  {
    && s.Reconcile? && s.c.ok && s.org in w.orgs
    && var o := w.orgs[s.org];
       o.pc.AddFinalizer? && o.pc.ns.fin && o.ns.Live().Ns? && !o.ns.Live().fin
  }

  predicate NoStaleFinalizer(w: World, steps: seq<Step>)
    requires Valid(w)
  {
    steps == [] ||
    (NoStaleFinalizer(w, steps[..|steps| - 1]) && !StaleFinalizer(Run(w, steps[..|steps| - 1]), steps[|steps| - 1]))
  }

  ghost predicate CoverInv(o: Org) {
    && ValidOrg(o)
    && (o.copies != {} ==> Held(o.ns.Live()))
    && match o.pc
       case Idle => true
       case Unregister(_, _, _) => true
       case DeleteAll(b, _, _) => b == Perses ==> forall d :: d in o.copies ==> d.backend == Perses
       case DropFinalizer(_, _) => o.copies == {}
       case MarkCleaned(_) => true
       case FreshRead(_) => true
       case AddFinalizer(_) => true
       case _ => Held(o.ns.Live())
  }

  lemma CoverStep(w: World, s: Step)
    requires Valid(w) && (forall x :: x in w.orgs ==> CoverInv(w.orgs[x]))
    requires !StaleFinalizer(w, s)
    ensures forall x :: x in Apply(w, s).orgs ==> CoverInv(Apply(w, s).orgs[x])
  {
    match s
    case Reconcile(x, c) => if x in w.orgs { CoverCall(w, x, c); }
    case PromReconcile(_) =>
    case ChangeState(_) =>
    case DropRole =>
    case SyncShared(_, _) =>
    case _ => if s.org in w.orgs { CoverEnv(w.orgs[s.org], s); }
  }

  lemma CoverCall(w: World, x: string, c: Choice)
    requires Valid(w) && x in w.orgs && CoverInv(w.orgs[x]) && !StaleFinalizer(w, Reconcile(x, c))
    ensures CoverInv(OrgStep(w, x, c).0)
  {
    var o := w.orgs[x];
    if o.pc.Unregister? || o.pc.DeleteAll? || o.pc.DropFinalizer? || o.pc.MarkCleaned? {
      CoverTeardown(x, o, c);
    } else if o.pc.ListDashboards? || o.pc.CopyNext? {
      CoverCopy(x, o, c);
    } else if !o.pc.Idle? && !o.pc.FreshRead? && !o.pc.AddFinalizer? && !o.pc.GetMonitoring? && !o.pc.CreateMonitoring?
              && !o.pc.BindRole? && !o.pc.FindPrometheus? && !o.pc.GateRole? && !o.pc.ReadState? {
      CoverRegister(x, o, c);
    }
  }

  lemma CoverTeardown(x: string, o: Org, c: Choice)
    requires CoverInv(o) && (o.pc.Unregister? || o.pc.DeleteAll? || o.pc.DropFinalizer? || o.pc.MarkCleaned?)
    ensures CoverInv(TeardownStep(x, o, c).0)
  {
  }

  lemma CoverRegister(x: string, o: Org, c: Choice)
    requires CoverInv(o)
    requires o.pc.CheckBinding? || o.pc.HubRegister? || o.pc.WriteBinding? || o.pc.WriteSecret? || o.pc.StampMarker?
    ensures CoverInv(RegisterStep(x, o, c).0)
  {
  }

  lemma CoverCopy(x: string, o: Org, c: Choice)
    requires CoverInv(o) && (o.pc.ListDashboards? || o.pc.CopyNext?)
    ensures CoverInv(CopyStep(x, o, c).0)
  {
  }

  lemma CoverEnv(o: Org, s: Step)
    requires CoverInv(o)
    ensures CoverInv(EnvOrg(o, s))
  {
  }

  lemma {:induction false} CoverRun(w: World, steps: seq<Step>)
    requires Init(w) && NoStaleFinalizer(w, steps)
    ensures forall x :: x in Run(w, steps).orgs ==> CoverInv(Run(w, steps).orgs[x])
  {
    if steps != [] {
      CoverRun(w, steps[..|steps| - 1]);
      CoverStep(Run(w, steps[..|steps| - 1]), steps[|steps| - 1]);
    }
  }

  /** The only way to an uncovered copy, on any run whatever, is an empty finalizer patch. */
  lemma OnlyStaleFinalizersUncover(w: World, steps: seq<Step>, r: World, x: string)
    requires Init(w) && r == Run(w, steps) && x in r.orgs
    requires r.orgs[x].copies != {} && !Held(r.orgs[x].ns.Live())
    ensures !NoStaleFinalizer(w, steps)
  {
    if NoStaleFinalizer(w, steps) { CoverRun(w, steps); }
  }

  /** An empty finalizer patch leaves the live path running without the finalizer. */
  lemma StaleFinalizerUncovers(w: World, s: Step)
    requires Valid(w) && StaleFinalizer(w, s)
    ensures var o := Apply(w, s).orgs[s.org];
            o.pc == GetMonitoring && !Held(o.ns.Live())
  {
  }

  /** Runs without reactivation never send one. */
  lemma {:induction false} NoReactivationNoStale(w: World, steps: seq<Step>)
    requires Init(w) && NoReactivation(w, steps)
    ensures NoStaleFinalizer(w, steps)
  {
    if steps != [] {
      NoReactivationNoStale(w, steps[..|steps| - 1]);
      InitInv(w);
      RunKeeps(w, steps[..|steps| - 1]);
    }
  }
}
