/**
 What every run keeps about registration: a marker is only ever stamped after both backends were
 registered under the stamped state by the same reconcile, client orgs are not registered before
 the Prometheus itself, and without teardown a marker never runs ahead of the hub.
 */
module Registration {
  import opened Kube
  import opened ClientOrgMachine

  // ---------------------------------------------------------------- the log justifies itself

  ghost predicate PromStampedIn(log: seq<Event>) {
    exists e :: e in log && e.PromStamped?
  }

  /** What is claimed: about client orgs only, whatever marker the trickster RoleBinding carried
      before the operator started; also about the Prometheus controller, when it was not the legacy
      marker; and also about their order, when it was none. */
  datatype Scope = Orgs | Both | Gated

  /** What must come before an event, in the same reconcile where a run number is given. */
  ghost predicate Justified(prefix: seq<Event>, e: Event, scope: Scope) {
    match e
    case Stamped(x, r, s) => Bound(x, r, Grafana, s) in prefix && Bound(x, r, Perses, s) in prefix
    case Bound(x, r, b, s) => HubReg(x, r, b, s) in prefix
    case HubReg(_, _, _, _) => scope.Gated? ==> PromStampedIn(prefix)
    case PromStamped(r, s, t) => scope != Orgs ==> PromReg(r, Perses, s, t) in prefix
    case PromReg(r, b, s, t) => scope != Orgs && b == Perses ==> PromReg(r, Grafana, s, t) in prefix
    case _ => true
  }

  ghost predicate GoodLog(log: seq<Event>, scope: Scope) {
    forall j :: 0 <= j < |log| ==> Justified(log[..j], log[j], scope)
  }

  lemma Extend(log: seq<Event>, es: seq<Event>, scope: Scope)
    requires GoodLog(log, scope) && |es| <= 1
    requires forall e :: e in es ==> Justified(log, e, scope)
    ensures GoodLog(log + es, scope)
  {
    var log' := log + es;
    forall j | 0 <= j < |log'| ensures Justified(log'[..j], log'[j], scope) {
      if j < |log| {
        assert log'[..j] == log[..j];
      } else {
        assert log'[..j] == log && log'[j] == es[0];
      }
    }
  }

  // ---------------------------------------------------------------- one client-org reconcile

  predicate InBackends(pc: Pc) {
    pc.CheckBinding? || pc.HubRegister? || pc.WriteBinding? || pc.WriteSecret? || pc.StampMarker?
  }

  predicate PastGate(pc: Pc) {
    pc.ReadState? || InBackends(pc)
  }

  /** Backend b has been dealt with: it failed, or it was bound under the state of this
      reconcile, or the marker already showed that state. */
  ghost predicate Done(log: seq<Event>, x: string, run: nat, b: Backend, k: Ctx) {
    b in k.failed || k.mon.marker == k.state || Bound(x, run, b, k.state) in log
  }

  ghost predicate PcInv(log: seq<Event>, x: string, run: nat, pc: Pc) {
    match pc
    case CheckBinding(b, k) => k.mon.marker == k.state && (b == Perses ==> Done(log, x, run, Grafana, k))
    case HubRegister(b, k) => b == Perses ==> Done(log, x, run, Grafana, k)
    case WriteBinding(b, k) =>
      && (b == Perses ==> Done(log, x, run, Grafana, k))
      && HubReg(x, run, b, k.state) in log
    case WriteSecret(b, k) =>
      && (b == Perses ==> Done(log, x, run, Grafana, k))
      && Bound(x, run, b, k.state) in log
    case StampMarker(k) =>
      && k.failed == {}
      && Done(log, x, run, Grafana, k)
      && Done(log, x, run, Perses, k)
    case _ => true
  }

  lemma PcInvGrows(log: seq<Event>, es: seq<Event>, x: string, run: nat, pc: Pc)
    requires PcInv(log, x, run, pc)
    ensures PcInv(log + es, x, run, pc)
  {
  }

  lemma AfterBackendKeeps(log: seq<Event>, x: string, run: nat, b: Backend, k: Ctx)
    requires b == Perses ==> Done(log, x, run, Grafana, k)
    requires Done(log, x, run, b, k)
    ensures PcInv(log, x, run, AfterBackend(b, k))
  {
  }

  lemma RegisterKeeps(log: seq<Event>, x: string, o: Org, c: Choice, scope: Scope)
    requires ValidOrg(o) && InBackends(o.pc)
    requires PcInv(log, x, o.runs, o.pc)
    requires scope.Gated? ==> PromStampedIn(log)
    ensures var r := RegisterStep(x, o, c);
            && r.0.runs == o.runs && |r.1| <= 1
            && (forall e :: e in r.1 ==> Justified(log, e, scope))
            && PcInv(log + r.1, x, o.runs, r.0.pc)
  {
    var r := RegisterStep(x, o, c);
    match o.pc
    case CheckBinding(b, k) =>
      assert log + r.1 == log;
      if r.0.pc == AfterBackend(b, k) { AfterBackendKeeps(log, x, o.runs, b, k); }
    case HubRegister(b, k) =>
      if c.ok {
        assert (log + r.1)[|log|] == HubReg(x, o.runs, b, k.state);
      } else {
        AfterBackendKeeps(log + r.1, x, o.runs, b, Failing(b, k));
      }
    case WriteBinding(b, k) =>
      if r.1 == [] {
        AfterBackendKeeps(log + r.1, x, o.runs, b, Failing(b, k));
      } else {
        assert (log + r.1)[|log|] == Bound(x, o.runs, b, k.state);
      }
    case WriteSecret(b, k) => AfterBackendKeeps(log + r.1, x, o.runs, b, k);
    case StampMarker(k) =>
  }

  /** Outside registerBackends nothing is registered, bound or stamped, and only the gate leads
      past the gate. */
  lemma QuietStep(w: World, x: string, c: Choice)
    requires Valid(w) && x in w.orgs && !InBackends(w.orgs[x].pc)
    ensures |OrgStep(w, x, c).1| <= 1
    ensures forall e :: e in OrgStep(w, x, c).1 ==> e.HubDrop? || e.Copied? || e.TornDown?
    ensures var pc' := OrgStep(w, x, c).0.pc;
            && (InBackends(pc') ==> exists k :: pc' == EnterBackend(Grafana, k))
            && (PastGate(pc') ==> w.role.Cached().state != "" || PastGate(w.orgs[x].pc))
  {
    var o := w.orgs[x];
    if o.pc.Unregister? || o.pc.DeleteAll? || o.pc.DropFinalizer? || o.pc.MarkCleaned? {
      QuietTeardown(x, o, c);
    } else if o.pc.ListDashboards? || o.pc.CopyNext? {
      QuietCopy(x, o, c);
    } else if o.pc.FreshRead? || o.pc.AddFinalizer? || o.pc.GetMonitoring? || o.pc.CreateMonitoring? {
      QuietLive(o, c);
    } else if !o.pc.Idle? {
      QuietGate(w.hub, w.states, w.role.Cached(), o.pc, c);
    }
  }

  lemma QuietLive(o: Org, c: Choice)
    requires ValidOrg(o) && (o.pc.FreshRead? || o.pc.AddFinalizer? || o.pc.GetMonitoring? || o.pc.CreateMonitoring?)
    ensures !PastGate(LiveStep(o, c).pc)
  {
  }

  lemma QuietGate(hub: bool, states: Versioned<string>, role: Mark, pc: Pc, c: Choice)
    requires states.Valid() && (pc.BindRole? || pc.FindPrometheus? || pc.GateRole? || pc.ReadState?)
    ensures var pc' := GateStep(hub, states, role, pc, c);
            && (InBackends(pc') ==> exists k :: pc' == EnterBackend(Grafana, k))
            && (PastGate(pc') ==> role.state != "" || PastGate(pc))
  {
  }

  lemma QuietTeardown(x: string, o: Org, c: Choice)
    requires ValidOrg(o)
    requires o.pc.Unregister? || o.pc.DeleteAll? || o.pc.DropFinalizer? || o.pc.MarkCleaned?
    ensures var r := TeardownStep(x, o, c);
            && |r.1| <= 1 && (forall e :: e in r.1 ==> e.HubDrop? || e.TornDown?)
            && !PastGate(r.0.pc)
  {
  }

  lemma QuietCopy(x: string, o: Org, c: Choice)
    requires ValidOrg(o) && (o.pc.ListDashboards? || o.pc.CopyNext?)
    ensures var r := CopyStep(x, o, c);
            && |r.1| <= 1 && (forall e :: e in r.1 ==> e.Copied?)
            && !PastGate(r.0.pc)
  {
  }

  // ---------------------------------------------------------------- one Prometheus reconcile

  ghost predicate PromInv(log: seq<Event>, run: nat, pc: PromPc) {
    match pc
    case PReadToken(s) => StateValue(s)
    case PEnsureRole(s, _) => StateValue(s)
    case PLegacy(_, _) => false
    case PRegister(b, s, t) => StateValue(s) && (b == Perses ==> PromReg(run, Grafana, s, t) in log)
    case PBind(b, s, t) => StateValue(s) && PromReg(run, b, s, t) in log
    case PStamp(s, t) => StateValue(s) && PromReg(run, Perses, s, t) in log
    case _ => true
  }

  lemma PromInvGrows(log: seq<Event>, es: seq<Event>, run: nat, pc: PromPc)
    requires PromInv(log, run, pc)
    ensures PromInv(log + es, run, pc)
  {
  }

  ghost predicate NoLegacy(role: Versioned<Mark>) {
    forall m :: m in role.hist ==> m.state != LEGACY
  }

  lemma PromStepKeeps(log: seq<Event>, hub: bool, states: Versioned<string>, role: Versioned<Mark>, run: nat, pc: PromPc,
                      c: Choice, scope: Scope)
    requires states.Valid() && role.Valid() && StateValue(states.Cached())
    requires scope != Orgs && PromInv(log, run, pc) && NoLegacy(role)
    ensures var r := PromStep(hub, states, role, run, pc, c);
            && |r.2| <= 1
            && (forall e :: e in r.2 ==> Justified(log, e, scope))
            && PromInv(log + r.2, run, r.0)
            && NoLegacy(r.1)
            && (r.1 == role || (exists e :: e in r.2 && e.PromStamped?))
            && (pc.PIdle? ==> r.2 == [] && forall k: nat :: PromInv(log, k, r.0))
  {
    var r := PromStep(hub, states, role, run, pc, c);
    match pc
    case PIdle => assert log + r.2 == log;
    case PUnregister(_) =>
    case PReadState =>
    case PReadToken(_) =>
    case PEnsureRole(_, _) =>
    case PRegister(b, st, t) => if c.ok { assert (log + r.2)[|log|] == PromReg(run, b, st, t); }
    case PBind(b, st, t) => assert log + r.2 == log;
    case PStamp(st, t) => if c.ok { assert r.2[0].PromStamped?; }
  }

  /** Whatever its markers, the Prometheus controller adds nothing about client orgs to the log. */
  lemma PromStepIsElsewhere(hub: bool, states: Versioned<string>, role: Versioned<Mark>, run: nat, pc: PromPc, c: Choice)
    requires states.Valid() && role.Valid()
    ensures var r := PromStep(hub, states, role, run, pc, c);
            |r.2| <= 1 && forall e :: e in r.2 ==> e.PromReg? || e.PromStamped? || e.PromDrop?
  {
  }

  // ---------------------------------------------------------------- the whole system

  ghost predicate OrgInv(w: World, x: string, scope: Scope)
    requires Valid(w) && x in w.orgs
  {
    && PcInv(w.log, x, w.orgs[x].runs, w.orgs[x].pc)
    && (scope.Gated? && PastGate(w.orgs[x].pc) ==> PromStampedIn(w.log))
  }

  ghost predicate SharedInv(w: World, scope: Scope)
    requires Valid(w)
  {
    && GoodLog(w.log, scope)
    && (scope != Orgs ==> PromInv(w.log, w.promRuns, w.prom) && NoLegacy(w.role))
    && (forall v :: v in w.states.hist ==> StateValue(v))
    && (scope.Gated? && (exists m :: m in w.role.hist && m.state != "") ==> PromStampedIn(w.log))
  }

  ghost predicate Inv(w: World, scope: Scope) {
    && Valid(w)
    && SharedInv(w, scope)
    && forall x :: x in w.orgs ==> OrgInv(w, x, scope)
  }

  /** An org that is not touched keeps its invariant while the log and the states grow. */
  lemma Untouched(w: World, w': World, y: string, es: seq<Event>, scope: Scope)
    requires Valid(w) && Valid(w') && y in w.orgs && OrgInv(w, y, scope)
    requires y in w'.orgs && w'.orgs[y].pc == w.orgs[y].pc && w'.orgs[y].runs == w.orgs[y].runs
    requires w'.log == w.log + es
    ensures OrgInv(w', y, scope)
  {
    PcInvGrows(w.log, es, y, w.orgs[y].runs, w.orgs[y].pc);
    StampedGrows(w.log, es);
  }

  lemma StampedGrows(log: seq<Event>, es: seq<Event>)
    ensures PromStampedIn(log) ==> PromStampedIn(log + es)
  {
    if PromStampedIn(log) {
      var e :| e in log && e.PromStamped?;
      assert e in log + es;
    }
  }

  lemma ReconcileKeeps(w: World, x: string, c: Choice, scope: Scope)
    requires Inv(w, scope) && x in w.orgs
    ensures Inv(Apply(w, Reconcile(x, c)), scope)
  {
    var w' := Apply(w, Reconcile(x, c));
    ApplyValid(w, Reconcile(x, c));
    var r := OrgStep(w, x, c);
    assert OrgInv(w, x, scope);
    if InBackends(w.orgs[x].pc) {
      RegisterKeeps(w.log, x, w.orgs[x], c, scope);
    } else {
      QuietStep(w, x, c);
    }
    Extend(w.log, r.1, scope);
    StampedGrows(w.log, r.1);
    if scope != Orgs { PromInvGrows(w.log, r.1, w.promRuns, w.prom); }
    forall y | y in w'.orgs ensures OrgInv(w', y, scope) {
      if y != x { Untouched(w, w', y, r.1, scope); }
    }
  }

  lemma PromKeeps(w: World, c: Choice, scope: Scope)
    requires Inv(w, scope)
    ensures Inv(Apply(w, PromReconcile(c)), scope)
  {
    var w' := Apply(w, PromReconcile(c));
    ApplyValid(w, PromReconcile(c));
    var r := PromStep(w.hub, w.states, w.role, w.promRuns, w.prom, c);
    if scope == Orgs {
      PromStepIsElsewhere(w.hub, w.states, w.role, w.promRuns, w.prom, c);
    } else {
      PromStepKeeps(w.log, w.hub, w.states, w.role, w.promRuns, w.prom, c, scope);
    }
    Extend(w.log, r.2, scope);
    StampedGrows(w.log, r.2);
    if scope != Orgs && r.1 != w.role {
      var e :| e in r.2 && e.PromStamped?;
      assert e in w'.log;
    }
    assert w.log + [] == w.log;
    forall y | y in w'.orgs ensures OrgInv(w', y, scope) { Untouched(w, w', y, r.2, scope); }
  }

  lemma SharedKeeps(w: World, s: Step, scope: Scope)
    requires Inv(w, scope) && (s.ChangeState? || s.DropRole? || s.SyncShared?)
    ensures Inv(Apply(w, s), scope)
  {
    var w' := Apply(w, s);
    ApplyValid(w, s);
    assert w'.log == w.log + [];
    MarkersStay(w, s, scope);
    forall y | y in w'.orgs ensures OrgInv(w', y, scope) { Untouched(w, w', y, [], scope); }
  }

  lemma MarkersStay(w: World, s: Step, scope: Scope)
    requires Valid(w) && SharedInv(w, scope) && (s.ChangeState? || s.DropRole? || s.SyncShared?)
    requires Valid(Apply(w, s))
    ensures SharedInv(Apply(w, s), scope)
  {
  }

  lemma EnvKeeps(w: World, s: Step, scope: Scope)
    requires Inv(w, scope)
    requires OnOrg(s)
    ensures Inv(Apply(w, s), scope)
  {
    if s.org in w.orgs {
      var w' := Apply(w, s);
      ApplyValid(w, s);
      EnvOrgValid(w.orgs[s.org], s);
      assert w'.log == w.log + [];
      forall y | y in w'.orgs ensures OrgInv(w', y, scope) { Untouched(w, w', y, [], scope); }
    }
  }

  lemma StepKeeps(w: World, s: Step, scope: Scope)
    requires Inv(w, scope)
    ensures Inv(Apply(w, s), scope)
  {
    match s
    case Reconcile(x, c) =>
      if x in w.orgs { ReconcileKeeps(w, x, c, scope); }
    case PromReconcile(c) => PromKeeps(w, c, scope);
    case ChangeState(_) => SharedKeeps(w, s, scope);
    case DropRole => SharedKeeps(w, s, scope);
    case SyncShared(_, _) => SharedKeeps(w, s, scope);
    case _ => EnvKeeps(w, s, scope);
  }

  lemma {:induction false} RunKeeps(w: World, steps: seq<Step>, scope: Scope)
    requires Inv(w, scope)
    ensures Inv(Run(w, steps), scope)
  {
    if steps != [] {
      RunKeeps(w, steps[..|steps| - 1], scope);
      StepKeeps(Run(w, steps[..|steps| - 1]), steps[|steps| - 1], scope);
    }
  }

  // ---------------------------------------------------------------- main results

  lemma StampOrder(log: seq<Event>, scope: Scope, j: nat, b: Backend) returns (hub: nat, bound: nat)
    requires GoodLog(log, scope) && j < |log| && log[j].Stamped?
    ensures hub < bound < j
    ensures log[hub] == HubReg(log[j].org, log[j].run, b, log[j].state)
    ensures log[bound] == Bound(log[j].org, log[j].run, b, log[j].state)
  {
    var e := Bound(log[j].org, log[j].run, b, log[j].state);
    assert Justified(log[..j], log[j], scope);
    assert e in log[..j] by { match b case Grafana => case Perses => }
    bound :| 0 <= bound < j && log[bound] == e;
    assert Justified(log[..bound], log[bound], scope);
    hub :| 0 <= hub < bound && log[hub] == HubReg(log[j].org, log[j].run, b, log[j].state);
  }

  lemma RoleStampOrder(log: seq<Event>, scope: Scope, j: nat) returns (g: nat, p: nat)
    requires scope != Orgs && GoodLog(log, scope) && j < |log| && log[j].PromStamped?
    ensures g < p < j
    ensures log[g] == PromReg(log[j].run, Grafana, log[j].state, log[j].token)
    ensures log[p] == PromReg(log[j].run, Perses, log[j].state, log[j].token)
  {
    assert Justified(log[..j], log[j], scope);
    p :| 0 <= p < j && log[p] == PromReg(log[j].run, Perses, log[j].state, log[j].token);
    assert Justified(log[..p], log[p], scope);
    g :| 0 <= g < p && log[g] == PromReg(log[j].run, Grafana, log[j].state, log[j].token);
  }

  lemma GateOrder(log: seq<Event>, j: nat) returns (stamp: nat)
    requires GoodLog(log, Gated) && j < |log| && log[j].HubReg?
    ensures stamp < j && log[stamp].PromStamped?
  {
    assert Justified(log[..j], log[j], Gated);
    stamp :| 0 <= stamp < j && log[stamp].PromStamped?;
  }

  lemma LogIsGood(w: World, steps: seq<Step>, scope: Scope)
    requires Init(w) && (scope != Orgs ==> w.role.Live().state != LEGACY) && (scope.Gated? ==> w.role.Live().state == "")
    ensures GoodLog(Run(w, steps).log, scope)
  {
    RunKeeps(w, steps, scope);
  }

  /** Every marker stamped on a monitoring namespace follows, in the same reconcile, an accepted
      hub registration of each backend under the stamped state and then the AppBinding written
      from its response; across failures, retries, lost responses, AppBinding loss and state
      changes, with any number of organisations interleaved. */
  lemma StampFollowsBothBackends(w: World, steps: seq<Step>, j: nat, b: Backend) returns (hub: nat, bound: nat)
    requires Init(w)
    requires j < |Run(w, steps).log| && Run(w, steps).log[j].Stamped?
    ensures var log := Run(w, steps).log;
            hub < bound < j
            && log[hub] == HubReg(log[j].org, log[j].run, b, log[j].state)
            && log[bound] == Bound(log[j].org, log[j].run, b, log[j].state)
  {
    LogIsGood(w, steps, Orgs);
    hub, bound := StampOrder(Run(w, steps).log, Orgs, j, b);
  }

  /** Every marker pair (state, token) stamped on the trickster RoleBinding follows the completed
      Grafana registration and then the completed Perses registration that carried this token in
      the same reconcile, unless the RoleBinding came with the legacy marker. */
  lemma RoleStampFollowsBothBackends(w: World, steps: seq<Step>, j: nat) returns (g: nat, p: nat)
    requires Init(w) && w.role.Live().state != LEGACY
    requires j < |Run(w, steps).log| && Run(w, steps).log[j].PromStamped?
    ensures var log := Run(w, steps).log;
            g < p < j
            && log[g] == PromReg(log[j].run, Grafana, log[j].state, log[j].token)
            && log[p] == PromReg(log[j].run, Perses, log[j].state, log[j].token)
  {
    LogIsGood(w, steps, Both);
    g, p := RoleStampOrder(Run(w, steps).log, Both, j);
  }

  /** Across both controllers: when the RoleBinding carried no marker at first, the hub sees a
      client-org registration only after it accepted the Grafana and the Perses registration of
      a Prometheus and that reconcile stamped the RoleBinding. */
  lemma ClientOrgsComeAfterPrometheus(w: World, steps: seq<Step>, j: nat) returns (g: nat, p: nat, stamp: nat)
    requires Init(w) && w.role.Live().state == ""
    requires j < |Run(w, steps).log| && Run(w, steps).log[j].HubReg?
    ensures var log := Run(w, steps).log;
            g < p < stamp < j && log[stamp].PromStamped?
            && log[g] == PromReg(log[stamp].run, Grafana, log[stamp].state, log[stamp].token)
            && log[p] == PromReg(log[stamp].run, Perses, log[stamp].state, log[stamp].token)
  {
    LogIsGood(w, steps, Gated);
    stamp := GateOrder(Run(w, steps).log, j);
    g, p := RoleStampOrder(Run(w, steps).log, Gated, stamp);
  }
}
