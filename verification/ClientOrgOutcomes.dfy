/**
 What one reconcile of an organisation achieves when none of its calls fails: a namespace due for
 teardown is torn down, an active one is set up and has its dashboards. Reconciles of other
 organisations and of Prometheuses may interleave at every call.
 */
module ClientOrgOutcomes {
  import opened Kube
  import opened ClientOrgMachine

  // ---------------------------------------------------------------- one reconcile without a failing call

  /** A step that is not about the organisation x, nor about what it shares with others. */
  predicate Elsewhere(s: Step, x: string) {
    s.PromReconcile? || ((s.Reconcile? || OnOrg(s)) && s.org != x)
  }

  /** The call succeeds, and a listing returns the sources of the backend. */
  predicate Succeeds(o: Org, c: Choice, sources: Backend -> seq<Source>) {
    c.ok && c.gate && (o.pc.ListDashboards? ==> c.sources == sources(o.pc.b))
  }

  ghost predicate Clean(w: World, steps: seq<Step>, x: string, sources: Backend -> seq<Source>)
    requires Valid(w)
  {
    steps == [] ||
    (var init, s := steps[..|steps| - 1], steps[|steps| - 1];
     Clean(w, init, x, sources)
     && (Elsewhere(s, x)
         || (s.Reconcile? && s.org == x && x in Run(w, init).orgs && Succeeds(Run(w, init).orgs[x], s.c, sources))))
  }

  /** In these steps x is reconciled once, from the first call to the last, and no call of it fails. */
  ghost predicate Reconciled(w: World, steps: seq<Step>, x: string, sources: Backend -> seq<Source>)
    requires Valid(w) && x in w.orgs
  {
    && w.orgs[x].pc.Idle? && Clean(w, steps, x, sources)
    && x in Run(w, steps).orgs && Run(w, steps).orgs[x].pc.Idle? && Run(w, steps).orgs[x].runs == w.orgs[x].runs + 1
  }

  /** What a reconcile of x sees of the rest of the world stays as it is. */
  ghost predicate SameAround(w: World, w': World, x: string)
    requires Valid(w) && Valid(w') && x in w.orgs
  {
    x in w'.orgs && w'.hub == w.hub && w'.states == w.states && w'.role.Cached() == w.role.Cached()
  }

  lemma ElsewhereKeeps(w: World, s: Step, x: string)
    requires Valid(w) && x in w.orgs && Elsewhere(s, x)
    ensures Valid(Apply(w, s)) && SameAround(w, Apply(w, s), x) && Apply(w, s).orgs[x] == w.orgs[x]
  {
    ApplyValid(w, s);
  }

  lemma OwnCall(w: World, x: string, c: Choice)
    requires Valid(w) && x in w.orgs
    ensures Valid(Apply(w, Reconcile(x, c))) && SameAround(w, Apply(w, Reconcile(x, c)), x)
    ensures Apply(w, Reconcile(x, c)).orgs[x] == OrgCall(w.hub, w.states, w.role.Cached(), x, w.orgs[x], c).0
  {
    ApplyValid(w, Reconcile(x, c));
  }

  // ---------------------------------------------------------------- teardown

  /** The namespace belongs to a client org and is to go: it is being deleted, or it is labelled for
      teardown and does not carry the cleaned-up mark. */
  predicate Due(ns: Ns) {
    && ns.Ns? && ns.clientOrg != "" && ns.orgId != ""
    && (ns.deleting || (ns.clientOrg == TERMINATING && !ns.cleaned))
  }

  /** The teardown was asked for by the label. */
  predicate ByLabel(o: Org)
    requires ValidOrg(o)
  {
    o.ns.Cached().Ns? && !o.ns.Cached().deleting
  }

  /** Both backends have forgotten the organisation, no copy is left that was not already going, and
      the stored namespace has no finalizer and, unless it is being deleted, the cleaned-up mark. */
  ghost predicate TornDown(hub: bool, o: Org, r: Org)
    requires ValidOrg(o) && ValidOrg(r)
  {
    && (hub ==> Grafana !in r.hub && Perses !in r.hub)
    && r.copies == {} && r.dying == o.dying + o.copies
    && r.ns.Live().Ns? && !r.ns.Live().fin && (ByLabel(o) ==> r.ns.Live().cleaned)
    && r.mon == o.mon && r.bindings == o.bindings && r.secrets == o.secrets
  }

  /** Where the teardown that started from o stands. */
  ghost predicate Ending(hub: bool, o: Org, r: Org)
    requires ValidOrg(o)
  {
    && ValidOrg(r) && r.runs == o.runs + 1 && r.mon == o.mon && r.bindings == o.bindings && r.secrets == o.secrets
    && r.copies + r.dying == o.copies + o.dying
    && match r.pc
       case Idle => TornDown(hub, o, r)
       case Unregister(b, ns, mark) =>
         && hub && ns == o.ns.Cached() && mark == ByLabel(o) && r.ns == o.ns
         && r.copies == o.copies && (b == Perses ==> Grafana !in r.hub)
       case DeleteAll(b, ns, mark) =>
         && (hub ==> Grafana !in r.hub && Perses !in r.hub) && ns == o.ns.Cached() && mark == ByLabel(o) && r.ns == o.ns
         && (b == Perses ==> forall d :: d in r.copies ==> d.backend == Perses)
       case DropFinalizer(ns, mark) =>
         && (hub ==> Grafana !in r.hub && Perses !in r.hub) && ns == o.ns.Cached() && mark == ByLabel(o) && r.ns == o.ns && r.copies == {}
       case MarkCleaned(ns) =>
         && (hub ==> Grafana !in r.hub && Perses !in r.hub) && ByLabel(o) && r.copies == {} && r.ns.Live().Ns? && !r.ns.Live().fin
       case _ => false
  }

  /** The cached namespace is due for teardown, and the stored one shows no finalizer that the cache does not. */
  predicate DueAtRest(o: Org) {
    ValidOrg(o) && o.pc.Idle? && Due(o.ns.Cached()) && o.ns.Live().Ns? && (o.ns.Live().fin ==> o.ns.Cached().fin)
  }

  lemma EndingStarts(hub: bool, states: Versioned<string>, role: Mark, x: string, o: Org, c: Choice)
    requires states.Valid() && DueAtRest(o) && c.ok && c.gate
    ensures var r := OrgCall(hub, states, role, x, o, c).0; !r.pc.Idle? && Ending(hub, o, r)
  {
  }

  lemma EndingCall(hub: bool, x: string, o: Org, r: Org, c: Choice)
    requires DueAtRest(o) && Ending(hub, o, r) && c.ok && !r.pc.Idle?
    ensures Ending(hub, o, TeardownStep(x, r, c).0)
  {
  }

  /** Before, during or after the one teardown. */
  ghost predicate EndingSoFar(hub: bool, o: Org, r: Org)
    requires ValidOrg(o)
  {
    r == o || Ending(hub, o, r) || r.runs > o.runs + 1
  }

  lemma EndingStep(w: World, x: string, o: Org, c: Choice)
    requires Valid(w) && x in w.orgs && DueAtRest(o) && EndingSoFar(w.hub, o, w.orgs[x]) && c.ok && c.gate
    ensures EndingSoFar(w.hub, o, OrgCall(w.hub, w.states, w.role.Cached(), x, w.orgs[x], c).0)
  {
    var r := w.orgs[x];
    RunsGrow(w.hub, w.states, w.role.Cached(), x, r, c);
    if r == o {
      EndingStarts(w.hub, w.states, w.role.Cached(), x, o, c);
    } else if r.runs == o.runs + 1 && !r.pc.Idle? {
      EndingCall(w.hub, x, o, r, c);
    }
  }

  lemma RunsGrow(hub: bool, states: Versioned<string>, role: Mark, x: string, o: Org, c: Choice)
    requires ValidOrg(o) && states.Valid()
    ensures OrgCall(hub, states, role, x, o, c).0.runs == if o.pc.Idle? then o.runs + 1 else o.runs
  {
  }

  lemma {:induction false} EndingRun(w: World, steps: seq<Step>, x: string, sources: Backend -> seq<Source>)
    requires Valid(w) && x in w.orgs && DueAtRest(w.orgs[x]) && Clean(w, steps, x, sources)
    ensures SameAround(w, Run(w, steps), x) && EndingSoFar(w.hub, w.orgs[x], Run(w, steps).orgs[x])
  {
    if steps != [] {
      var init, s := steps[..|steps| - 1], steps[|steps| - 1];
      EndingRun(w, init, x, sources);
      if Elsewhere(s, x) {
        ElsewhereKeeps(Run(w, init), s, x);
      } else {
        OwnCall(Run(w, init), x, s.c);
        EndingStep(Run(w, init), x, w.orgs[x], s.c);
      }
    }
  }

  /** A namespace that is due for teardown is torn down by one reconcile without a failing call. */
  lemma DueIsTornDown(w: World, steps: seq<Step>, r: World, x: string, sources: Backend -> seq<Source>)
    requires Valid(w) && x in w.orgs && DueAtRest(w.orgs[x]) && Reconciled(w, steps, x, sources) && r == Run(w, steps)
    ensures x in r.orgs && TornDown(w.hub, w.orgs[x], r.orgs[x])
  {
    EndingRun(w, steps, x, sources);
  }

  // ---------------------------------------------------------------- set-up

  /** The namespace of an active client org, as cached and as stored, and nothing in the way: the
      RoleBinding is seen with a marker, the monitoring namespace is missing or accepts objects, no
      cached AppBinding is gone, and all sources are usable. */
  ghost predicate ReadyToServe(w: World, o: Org, sources: Backend -> seq<Source>)
    requires Valid(w)
  {
    && ValidOrg(o) && o.pc.Idle? && Active(o.ns.Cached()) && o.ns.Cached().orgId != "" && Active(o.ns.Live())
    && (o.ns.Cached().fin ==> o.ns.Live().fin)
    && o.mon.Cached() == o.mon.Live() && (o.mon.Live().NoMon? || Accepting(o.mon.Live()))
    && o.bindings.Cached() <= o.bindings.Live() && w.role.Cached().state != ""
    && forall b, s :: s in sources(b) ==> s.usable
  }

  /** Every source of b has a copy, unless one of its name is still going. */
  ghost predicate HasCopies(o: Org, r: Org, b: Backend, sources: Backend -> seq<Source>) {
    forall s :: s in sources(b) ==> Dashboard(b, s.name) in r.copies + o.dying
  }

  predicate Covered(r: Org)
    requires ValidOrg(r)
  {
    r.ns.Live().Ns? && r.ns.Live().fin
  }

  /** The finalizer is stored, with a hub both AppBindings are and the marker is the cluster state, and
      every source of both backends has its copy. */
  ghost predicate Served(hub: bool, state: string, o: Org, r: Org, sources: Backend -> seq<Source>)
    requires ValidOrg(r)
  {
    && Covered(r) && Accepting(r.mon.Live())
    && (hub ==> Grafana in r.bindings.Live() && Perses in r.bindings.Live() && r.mon.Live().marker == state)
    && HasCopies(o, r, Grafana, sources) && HasCopies(o, r, Perses, sources)
  }

  /** The registration that started from o is at the backend b. */
  ghost predicate AtBackend(state: string, r: Org, b: Backend, k: Ctx)
    requires ValidOrg(r)
  {
    && Covered(r) && k.mon == r.mon.Live() && Accepting(k.mon) && k.state == state && k.failed == {}
    && r.bindings.Cached() <= r.bindings.Live() && (b == Perses ==> Grafana in r.bindings.Live())
  }

  ghost predicate Registered(hub: bool, state: string, r: Org)
    requires ValidOrg(r)
  {
    && Covered(r) && Accepting(r.mon.Live())
    && (hub ==> Grafana in r.bindings.Live() && Perses in r.bindings.Live() && r.mon.Live().marker == state)
  }

  ghost predicate Held(r: Org, mon: HeldMon)
    requires ValidOrg(r)
  {
    Covered(r) && mon == r.mon.Live() && Accepting(mon)
  }

  /** Where the set-up that started from o stands. */
  ghost predicate Serving(hub: bool, state: string, o: Org, r: Org, sources: Backend -> seq<Source>)
    requires ValidOrg(o)
  {
    && ValidOrg(r) && r.runs == o.runs + 1 && r.dying == o.dying
    && (forall b, s :: s in sources(b) ==> s.usable)
    && match r.pc
       case Idle => Served(hub, state, o, r, sources)
       case FreshRead(ns) => r == o.(pc := r.pc, runs := r.runs) && ns == o.ns.Cached()
       case AddFinalizer(ns) => r == o.(pc := r.pc, runs := r.runs) && ns == o.ns.Cached()
       case GetMonitoring => Covered(r) && r.mon == o.mon && r.bindings == o.bindings
       case CreateMonitoring => Covered(r) && r.mon == o.mon && o.mon.Live().NoMon? && r.bindings == o.bindings
       case BindRole(mon) => Held(r, mon) && r.bindings == o.bindings
       case FindPrometheus(mon) => Held(r, mon) && r.bindings == o.bindings
       case GateRole(mon) => Held(r, mon) && r.bindings == o.bindings
       case ReadState(mon) => hub && Held(r, mon) && r.bindings == o.bindings
       case CheckBinding(b, k) => hub && AtBackend(state, r, b, k) && k.mon.marker == state
       case HubRegister(b, k) => hub && AtBackend(state, r, b, k)
       case WriteBinding(b, k) => hub && AtBackend(state, r, b, k)
       case WriteSecret(b, k) => hub && AtBackend(state, r, b, k) && b in r.bindings.Live()
       case StampMarker(k) => hub && AtBackend(state, r, Perses, k) && Perses in r.bindings.Live()
       case ListDashboards(b) => Registered(hub, state, r) && (b == Perses ==> HasCopies(o, r, Grafana, sources))
       case CopyNext(b, name, rest) =>
         && Registered(hub, state, r) && (b == Perses ==> HasCopies(o, r, Grafana, sources))
         && (forall s :: s in rest ==> s in sources(b))
         && (forall s :: s in sources(b) ==> s in rest || s.name == name || Dashboard(b, s.name) in r.copies + o.dying)
       case _ => false
  }

  lemma ServingStarts(w: World, x: string, o: Org, c: Choice, sources: Backend -> seq<Source>)
    requires Valid(w) && ReadyToServe(w, o, sources) && Succeeds(o, c, sources)
    ensures var r := OrgCall(w.hub, w.states, w.role.Cached(), x, o, c).0;
            !r.pc.Idle? && Serving(w.hub, w.states.Cached(), o, r, sources)
  {
  }

  lemma ServingLive(w: World, o: Org, r: Org, c: Choice, sources: Backend -> seq<Source>)
    requires Valid(w) && ReadyToServe(w, o, sources) && Serving(w.hub, w.states.Cached(), o, r, sources) && c.ok
    requires r.pc.FreshRead? || r.pc.AddFinalizer? || r.pc.GetMonitoring? || r.pc.CreateMonitoring?
    ensures Serving(w.hub, w.states.Cached(), o, LiveStep(r, c), sources) && !LiveStep(r, c).pc.Idle?
  {
  }

  lemma ServingGate(w: World, o: Org, r: Org, c: Choice, sources: Backend -> seq<Source>)
    requires Valid(w) && ReadyToServe(w, o, sources) && Serving(w.hub, w.states.Cached(), o, r, sources) && c.ok
    requires r.pc.BindRole? || r.pc.FindPrometheus? || r.pc.GateRole? || r.pc.ReadState?
    ensures Serving(w.hub, w.states.Cached(), o, r.(pc := GateStep(w.hub, w.states, w.role.Cached(), r.pc, c)), sources)
  {
  }

  lemma ServingRegister(w: World, x: string, o: Org, r: Org, c: Choice, sources: Backend -> seq<Source>)
    requires Valid(w) && ReadyToServe(w, o, sources) && Serving(w.hub, w.states.Cached(), o, r, sources) && c.ok
    requires r.pc.CheckBinding? || r.pc.HubRegister? || r.pc.WriteBinding? || r.pc.WriteSecret? || r.pc.StampMarker?
    ensures Serving(w.hub, w.states.Cached(), o, RegisterStep(x, r, c).0, sources)
  {
  }

  lemma ServingCopy(hub: bool, state: string, x: string, o: Org, r: Org, c: Choice, sources: Backend -> seq<Source>)
    requires ValidOrg(o) && Serving(hub, state, o, r, sources) && Succeeds(r, c, sources)
    requires r.pc.ListDashboards? || r.pc.CopyNext?
    ensures Serving(hub, state, o, CopyStep(x, r, c).0, sources)
  {
    var r' := CopyStep(x, r, c).0;
    var todo := if r.pc.ListDashboards? then sources(r.pc.b) else r.pc.rest;
    var b := r.pc.b;
    forall s | s in sources(b) ensures s in todo || Dashboard(b, s.name) in r'.copies + o.dying {
    }
    if todo != [] {
      assert todo[0] in todo;
      assert forall s :: s in todo ==> s == todo[0] || s in todo[1..];
    }
  }

  lemma ServingCall(w: World, x: string, o: Org, r: Org, c: Choice, sources: Backend -> seq<Source>)
    requires Valid(w) && ReadyToServe(w, o, sources) && Serving(w.hub, w.states.Cached(), o, r, sources)
    requires !r.pc.Idle? && Succeeds(r, c, sources)
    ensures Serving(w.hub, w.states.Cached(), o, OrgCall(w.hub, w.states, w.role.Cached(), x, r, c).0, sources)
  {
    if r.pc.FreshRead? || r.pc.AddFinalizer? || r.pc.GetMonitoring? || r.pc.CreateMonitoring? {
      ServingLive(w, o, r, c, sources);
    } else if r.pc.BindRole? || r.pc.FindPrometheus? || r.pc.GateRole? || r.pc.ReadState? {
      ServingGate(w, o, r, c, sources);
    } else if r.pc.ListDashboards? || r.pc.CopyNext? {
      ServingCopy(w.hub, w.states.Cached(), x, o, r, c, sources);
    } else {
      ServingRegister(w, x, o, r, c, sources);
    }
  }

  ghost predicate ServingSoFar(hub: bool, state: string, o: Org, r: Org, sources: Backend -> seq<Source>)
    requires ValidOrg(o)
  {
    r == o || Serving(hub, state, o, r, sources) || r.runs > o.runs + 1
  }

  lemma ServingStep(w: World, x: string, o: Org, r: Org, c: Choice, sources: Backend -> seq<Source>)
    requires Valid(w) && ValidOrg(r) && ReadyToServe(w, o, sources) && Succeeds(r, c, sources)
    requires ServingSoFar(w.hub, w.states.Cached(), o, r, sources)
    ensures ServingSoFar(w.hub, w.states.Cached(), o, OrgCall(w.hub, w.states, w.role.Cached(), x, r, c).0, sources)
  {
    RunsGrow(w.hub, w.states, w.role.Cached(), x, r, c);
    if r == o {
      ServingStarts(w, x, o, c, sources);
    } else if r.runs == o.runs + 1 && !r.pc.Idle? {
      ServingCall(w, x, o, r, c, sources);
    }
  }

  lemma {:induction false} ServingRun(w: World, steps: seq<Step>, x: string, sources: Backend -> seq<Source>)
    requires Valid(w) && x in w.orgs && ReadyToServe(w, w.orgs[x], sources) && Clean(w, steps, x, sources)
    ensures SameAround(w, Run(w, steps), x)
    ensures ServingSoFar(w.hub, w.states.Cached(), w.orgs[x], Run(w, steps).orgs[x], sources)
  {
    if steps != [] {
      var init, s := steps[..|steps| - 1], steps[|steps| - 1];
      ServingRun(w, init, x, sources);
      var u := Run(w, init);
      if Elsewhere(s, x) {
        ElsewhereKeeps(u, s, x);
      } else {
        OwnCall(u, x, s.c);
        ServingStep(u, x, w.orgs[x], u.orgs[x], s.c, sources);
      }
    }
  }

  /** An active organisation with nothing in the way is served by one reconcile without a failing call. */
  lemma ReadyIsServed(w: World, steps: seq<Step>, r: World, x: string, sources: Backend -> seq<Source>)
    requires Valid(w) && x in w.orgs && ReadyToServe(w, w.orgs[x], sources) && Reconciled(w, steps, x, sources) && r == Run(w, steps)
    ensures x in r.orgs && Served(w.hub, w.states.Cached(), w.orgs[x], r.orgs[x], sources)
  {
    ServingRun(w, steps, x, sources);
  }

  // ---------------------------------------------------------------- every reconcile comes to its end

  /** At most this many successful calls are left. */
  function Left(pc: Pc, sources: Backend -> seq<Source>): nat {
    var copies := |sources(Grafana)| + |sources(Perses)| + 3;
    match pc
    case Idle => 0
    case MarkCleaned(_) => 1
    case DropFinalizer(_, _) => 2
    case DeleteAll(b, _, _) => if b == Grafana then 4 else 3
    case Unregister(b, _, _) => if b == Grafana then 6 else 5
    case CopyNext(b, _, rest) => |rest| + 1 + if b == Grafana then |sources(Perses)| + 2 else 0
    case ListDashboards(b) => |sources(b)| + 1 + if b == Grafana then |sources(Perses)| + 2 else 0
    case StampMarker(_) => copies + 1
    case WriteSecret(b, _) => copies + if b == Grafana then 6 else 2
    case WriteBinding(b, _) => copies + if b == Grafana then 7 else 3
    case HubRegister(b, _) => copies + if b == Grafana then 8 else 4
    case CheckBinding(b, _) => copies + if b == Grafana then 9 else 5
    case ReadState(_) => copies + 10
    case GateRole(_) => copies + 11
    case FindPrometheus(_) => copies + 12
    case BindRole(_) => copies + 13
    case CreateMonitoring => copies + 14
    case GetMonitoring => copies + 15
    case AddFinalizer(_) => copies + 16
    case FreshRead(_) => copies + 17
  }

  function Good(o: Org, sources: Backend -> seq<Source>): (c: Choice)
    ensures Succeeds(o, c, sources)
  {
    Choice(true, false, true, if o.pc.ListDashboards? then sources(o.pc.b) else [], None, false)
  }

  lemma LessTeardown(x: string, o: Org, c: Choice, sources: Backend -> seq<Source>)
    requires ValidOrg(o) && (o.pc.Unregister? || o.pc.DeleteAll? || o.pc.DropFinalizer? || o.pc.MarkCleaned?)
    ensures Left(TeardownStep(x, o, c).0.pc, sources) < Left(o.pc, sources)
  {
  }

  lemma LessRegister(x: string, o: Org, c: Choice, sources: Backend -> seq<Source>)
    requires ValidOrg(o)
    requires o.pc.CheckBinding? || o.pc.HubRegister? || o.pc.WriteBinding? || o.pc.WriteSecret? || o.pc.StampMarker?
    ensures Left(RegisterStep(x, o, c).0.pc, sources) < Left(o.pc, sources)
  {
  }

  lemma LessCopy(x: string, o: Org, c: Choice, sources: Backend -> seq<Source>)
    requires ValidOrg(o) && (o.pc.ListDashboards? || o.pc.CopyNext?) && Succeeds(o, c, sources)
    ensures Left(CopyStep(x, o, c).0.pc, sources) < Left(o.pc, sources)
  {
  }

  lemma OneLess(hub: bool, states: Versioned<string>, role: Mark, x: string, o: Org, sources: Backend -> seq<Source>)
    requires ValidOrg(o) && states.Valid() && !o.pc.Idle?
    ensures Left(OrgCall(hub, states, role, x, o, Good(o, sources)).0.pc, sources) < Left(o.pc, sources)
  {
    var c := Good(o, sources);
    if o.pc.Unregister? || o.pc.DeleteAll? || o.pc.DropFinalizer? || o.pc.MarkCleaned? {
      LessTeardown(x, o, c, sources);
    } else if o.pc.CheckBinding? || o.pc.HubRegister? || o.pc.WriteBinding? || o.pc.WriteSecret? || o.pc.StampMarker? {
      LessRegister(x, o, c, sources);
    } else if o.pc.ListDashboards? || o.pc.CopyNext? {
      LessCopy(x, o, c, sources);
    }
  }

  lemma OneMore(w: World, steps: seq<Step>, x: string, sources: Backend -> seq<Source>) returns (more: seq<Step>)
    requires Valid(w) && Clean(w, steps, x, sources) && x in Run(w, steps).orgs
    ensures Clean(w, more, x, sources) && x in Run(w, more).orgs
    ensures var u := Run(w, steps);
            Run(w, more).orgs[x] == OrgCall(u.hub, u.states, u.role.Cached(), x, u.orgs[x], Good(u.orgs[x], sources)).0
  {
    var u := Run(w, steps);
    var s := Step.Reconcile(x, Good(u.orgs[x], sources));
    more := steps + [s];
    assert more[..|more| - 1] == steps;
    OwnCall(u, x, s.c);
  }

  lemma Finish(w: World, steps: seq<Step>, x: string, sources: Backend -> seq<Source>) returns (more: seq<Step>)
    requires Valid(w) && Clean(w, steps, x, sources) && x in Run(w, steps).orgs
    ensures Clean(w, more, x, sources) && x in Run(w, more).orgs
    ensures Run(w, more).orgs[x].pc.Idle? && Run(w, more).orgs[x].runs == Run(w, steps).orgs[x].runs
    decreases Left(Run(w, steps).orgs[x].pc, sources)
  {
    var u := Run(w, steps);
    more := steps;
    if !u.orgs[x].pc.Idle? {
      OneLess(u.hub, u.states, u.role.Cached(), x, u.orgs[x], sources);
      RunsGrow(u.hub, u.states, u.role.Cached(), x, u.orgs[x], Good(u.orgs[x], sources));
      more := OneMore(w, steps, x, sources);
      more := Finish(w, more, x, sources);
    }
  }

  /** From every organisation at rest there is such a reconcile. */
  lemma ReconcileEnds(w: World, x: string, sources: Backend -> seq<Source>) returns (steps: seq<Step>)
    requires Valid(w) && x in w.orgs && w.orgs[x].pc.Idle?
    ensures Reconciled(w, steps, x, sources)
  {
    RunsGrow(w.hub, w.states, w.role.Cached(), x, w.orgs[x], Good(w.orgs[x], sources));
    assert Clean(w, [], x, sources) && Run(w, []) == w;
    steps := OneMore(w, [], x, sources);
    steps := Finish(w, steps, x, sources);
  }
}
