/**
 ClientOrgReconciler as the imperative code it is: each method issues its calls in order, looks
 only at what those calls return, and leaves early where the source does. Between two calls any
 number of steps of other reconciles and of the environment take place. Every method is proved to
 drive the step machine from one program point to the next, so what is proved about all runs of
 the machine holds for the code.
 */
module ClientOrgReconciler {
  import opened Kube
  import opened ClientOrgMachine
  import Machine = ClientOrgMachine

  /** What happens around one call: the steps of everybody else before it, and its outcome. */
  datatype Turn = Turn(others: seq<Step>, c: Choice)

  /** What one call finds: the organisation, the cluster states, the cached RoleBinding marker. */
  datatype Seen = Seen(o: Org, states: Versioned<string>, role: Mark) {
    predicate Valid() {
      ValidOrg(o) && states.Valid()
    }
  }

  /** The program point a call leads to, from what the call finds and how it ends. */
  function PcAfter(hub: bool, x: string, s: Seen, c: Choice): Pc
    requires s.Valid()
  {
    OrgCall(hub, s.states, s.role, x, s.o, c).0.pc
  }

  lemma CallCounts(hub: bool, s: Seen, x: string, c: Choice)
    requires s.Valid()
    ensures OrgCall(hub, s.states, s.role, x, s.o, c).0.runs == if s.o.pc.Idle? then s.o.runs + 1 else s.o.runs
  {
  }

  predicate Foreign(x: string, steps: seq<Step>) {
    forall s :: s in steps ==> !(s.Reconcile? && s.org == x)
  }

  lemma {:induction false} ForeignKeepsPc(w: World, x: string, steps: seq<Step>)
    requires Machine.Valid(w) && x in w.orgs && Foreign(x, steps)
    ensures x in Run(w, steps).orgs && Run(w, steps).orgs[x].pc == w.orgs[x].pc && Run(w, steps).hub == w.hub
    ensures Run(w, steps).orgs[x].runs == w.orgs[x].runs
  {
    if steps != [] {
      ForeignKeepsPc(w, x, steps[..|steps| - 1]);
      ForeignStep(Run(w, steps[..|steps| - 1]), x, steps[|steps| - 1]);
    }
  }

  lemma ForeignStep(w: World, x: string, s: Step)
    requires Machine.Valid(w) && x in w.orgs && !(s.Reconcile? && s.org == x)
    ensures x in Apply(w, s).orgs && Apply(w, s).orgs[x].pc == w.orgs[x].pc && Apply(w, s).hub == w.hub
    ensures Apply(w, s).orgs[x].runs == w.orgs[x].runs
  {
    match s
    case Reconcile(_, _) =>
    case PromReconcile(_) =>
    case ChangeState(_) =>
    case DropRole =>
    case SyncShared(_, _) =>
    case _ => if s.org == x { EnvOrgValid(w.orgs[x], s); }
  }

  ghost predicate Leads(w: World, s: Step, w': World) {
    Machine.Valid(w) && w' == Apply(w, s)
  }

  /** A history: every world but the first is the one before it after the next step of trace. */
  ghost predicate Follows(worlds: seq<World>, trace: seq<Step>) {
    && |worlds| == |trace| + 1
    && forall i {:trigger trace[i]} :: 0 <= i < |trace| ==> Leads(worlds[i], trace[i], worlds[i + 1])
  }

  lemma OneMore(worlds: seq<World>, trace: seq<Step>, s: Step)
    requires Follows(worlds, trace) && Machine.Valid(worlds[|trace|])
    ensures Follows(worlds + [Apply(worlds[|trace|], s)], trace + [s])
  {
    var trace', worlds' := trace + [s], worlds + [Apply(worlds[|trace|], s)];
    forall i | 0 <= i < |trace'| ensures Leads(worlds'[i], trace'[i], worlds'[i + 1]) {
      assert i < |trace| ==> Leads(worlds[i], trace[i], worlds[i + 1]);
    }
  }

  /** The history goes on with the steps of others. */
  lemma {:induction false} More(worlds: seq<World>, trace: seq<Step>, others: seq<Step>) returns (ws: seq<World>)
    requires Follows(worlds, trace) && Machine.Valid(worlds[|trace|])
    ensures worlds <= ws && Follows(ws, trace + others) && ws[|trace + others|] == Run(worlds[|trace|], others)
  {
    if others == [] {
      ws := worlds;
      assert trace + others == trace;
    } else {
      var n := |others| - 1;
      ws := More(worlds, trace, others[..n]);
      OneMore(ws, trace + others[..n], others[n]);
      assert trace + others == trace + others[..n] + [others[n]];
      ws := ws + [Apply(ws[|trace + others[..n]|], others[n])];
    }
  }

  lemma {:induction false} HistoryIsRun(worlds: seq<World>, trace: seq<Step>)
    requires Follows(worlds, trace) && Machine.Valid(worlds[0])
    ensures worlds[|trace|] == Run(worlds[0], trace)
  {
    if trace != [] {
      var n := |trace| - 1;
      var worlds', trace' := worlds[..n + 1], trace[..n];
      forall i | 0 <= i < n ensures Leads(worlds'[i], trace'[i], worlds'[i + 1]) {
        assert Leads(worlds[i], trace[i], worlds[i + 1]);
      }
      assert n > 0 ==> Leads(worlds[0], trace[0], worlds[1]);
      HistoryIsRun(worlds', trace');
      assert Leads(worlds[n], trace[n], worlds[n + 1]);
    }
  }

  class Reconciler {
    const x: string
    const hub: bool
    const turns: nat -> Turn
    ghost const first: World
    var w: World
    var next: nat
    ghost var worlds: seq<World>
    ghost var trace: seq<Step>
    ghost var pc: Pc
    ghost var runs: nat

    constructor (x: string, w: World, turns: nat -> Turn)
      requires Machine.Valid(w) && x in w.orgs && forall i: nat :: Foreign(x, turns(i).others)
      ensures Valid() && this.x == x && this.w == w && this.turns == turns && first == w
    {
      this.x, this.w, this.turns, hub, first := x, w, turns, w.hub, w;
      next, worlds, trace, pc, runs := 0, [w], [], w.orgs[x].pc, w.orgs[x].runs;
    }

    ghost predicate Valid()
      reads this
    {
      && Follows(worlds, trace) && worlds[0] == first && worlds[|trace|] == w && Machine.Valid(w) && x in w.orgs && w.hub == hub
      && w.orgs[x].pc == pc && w.orgs[x].runs == runs
      && forall i: nat :: Foreign(x, turns(i).others)
    }

    /** The call at: the world advances by other steps and then by this call. */
    method Call(ghost at: Pc) returns (seen: Seen, c: Choice)
      requires Valid() && pc == at
      modifies this
      ensures Valid()
      ensures seen.Valid() && seen.o.pc == at
      ensures pc == PcAfter(hub, x, seen, c) && runs == if at.Idle? then old(runs) + 1 else old(runs)
    {
      var t := turns(next);
      ForeignKeepsPc(w, x, t.others);
      ghost var ws := More(worlds, trace, t.others);
      var u := Run(w, t.others);
      seen, c := Seen(u.orgs[x], u.states, u.role.Cached()), t.c;
      CallCounts(hub, seen, x, c);
      ghost var s := Step.Reconcile(x, c);
      OneMore(ws, trace + t.others, s);
      ApplyValid(u, s);
      w := Apply(u, Step.Reconcile(x, c));
      worlds, trace, next := ws + [w], trace + t.others + [s], next + 1;
      pc, runs := w.orgs[x].pc, w.orgs[x].runs;
    }

    /** handleDeletion. mark tells the machine which branch of Reconcile called. */
    method HandleDeletion(ns: HeldNs, ghost mark: bool) returns (err: bool)
      requires Valid() && pc == EnterTeardown(hub, ns, mark)
      modifies this
      ensures Valid() && runs == old(runs)
      ensures pc == if !err && mark then MarkCleaned(ns) else Idle
    {
      if hub {
        UnregisterOne(Grafana, ns, mark);
        UnregisterOne(Perses, ns, mark);
      }
      err := CleanUp(ns, mark);
    }

    /** A failure is logged. */
    method UnregisterOne(b: Backend, ns: HeldNs, ghost mark: bool)
      requires Valid() && pc == Unregister(b, ns, mark)
      modifies this
      ensures Valid() && runs == old(runs)
      ensures pc == if b == Grafana then Unregister(Perses, ns, mark) else DeleteAll(Grafana, ns, mark)
    {
      var _, _ := Call(Unregister(b, ns, mark));
    }

    method CleanUp(ns: HeldNs, ghost mark: bool) returns (err: bool)
      requires Valid() && pc == DeleteAll(Grafana, ns, mark)
      modifies this
      ensures Valid() && runs == old(runs)
      ensures pc == if !err && mark then MarkCleaned(ns) else Idle
    {
      var seen, c := Call(DeleteAll(Grafana, ns, mark));
      if !c.ok { return true; }
      seen, c := Call(DeleteAll(Perses, ns, mark));
      if !c.ok { return true; }
      err := RemoveFinalizer(ns, mark);
    }

    method RemoveFinalizer(ns: HeldNs, ghost mark: bool) returns (err: bool)
      requires Valid() && pc == Machine.DropFinalizer(ns, mark)
      modifies this
      ensures Valid() && runs == old(runs)
      ensures pc == if !err && mark then MarkCleaned(ns) else Idle
    {
      var seen, c := Call(Machine.DropFinalizer(ns, mark));
      return !c.ok || PatchDropFinalizer(seen.o.ns.Live(), ns).None?;
    }

    /** ensureMonitoringNamespace. */
    method EnsureMonitoringNamespace() returns (mon: Option<HeldMon>)
      requires Valid() && pc == GetMonitoring
      modifies this
      ensures Valid() && runs == old(runs)
      ensures pc == if mon.Some? then BindRole(mon.value) else Idle
    {
      var seen, c := Call(GetMonitoring);
      if !c.ok { return None; }
      var m := seen.o.mon.Cached();
      if m.NoMon? {
        seen, c := Call(CreateMonitoring);
        if !c.ok || !seen.o.mon.Live().NoMon? { return None; }
        return Some(Mon("", false));
      } else if m.deleting {
        return None;
      }
      return Some(m);
    }

    /** registerGrafanaBackend and registerPersesBackend. */
    method RegisterBackend(b: Backend, k: Ctx) returns (err: bool)
      requires Valid() && pc == HubRegister(b, k)
      modifies this
      ensures Valid() && runs == old(runs)
      ensures pc == AfterBackend(b, if err then Failing(b, k) else k)
    {
      var seen, c := Call(HubRegister(b, k));
      if !c.ok { return true; }
      err := CreateBinding(b, k);
    }

    /** CreateGrafanaAppBinding and CreatePersesAppBinding. */
    method CreateBinding(b: Backend, k: Ctx) returns (err: bool)
      requires Valid() && pc == WriteBinding(b, k)
      modifies this
      ensures Valid() && runs == old(runs)
      ensures pc == AfterBackend(b, if err then Failing(b, k) else k)
    {
      var seen, c := Call(WriteBinding(b, k));
      if !c.ok || !(b in seen.o.bindings.Live() || Accepting(seen.o.mon.Live())) { return true; }
      WriteAuthSecret(b, k);
      return false;
    }

    /** Its error is dropped. */
    method WriteAuthSecret(b: Backend, k: Ctx)
      requires Valid() && pc == WriteSecret(b, k)
      modifies this
      ensures Valid() && runs == old(runs) && pc == AfterBackend(b, k)
    {
      var _, _ := Call(WriteSecret(b, k));
    }

    /** appBindingExists: any error counts as absent. */
    method BindingExists(b: Backend, k: Ctx) returns (found: bool)
      requires Valid() && pc == CheckBinding(b, k)
      modifies this
      ensures Valid() && runs == old(runs)
      ensures pc == if found then AfterBackend(b, k) else HubRegister(b, k)
    {
      var seen, c := Call(CheckBinding(b, k));
      return c.ok && b in seen.o.bindings.Cached();
    }

    /** One of the two guarded blocks of registerBackends. */
    method RegisterIfNeeded(b: Backend, k: Ctx) returns (ok: bool)
      requires Valid() && pc == EnterBackend(b, k)
      modifies this
      ensures Valid() && runs == old(runs)
      ensures pc == AfterBackend(b, if ok then k else Failing(b, k))
    {
      if k.mon.marker == k.state {
        var found := BindingExists(b, k);
        if found { return true; }
      }
      var err := RegisterBackend(b, k);
      return !err;
    }

    /** registerBackends; the cluster state is read once, before both backends. */
    method RegisterBackends(mon: HeldMon) returns (err: bool)
      requires Valid() && pc == ReadState(mon)
      modifies this
      ensures Valid() && runs == old(runs)
      ensures pc == if err then Idle else ListDashboards(Grafana)
    {
      var seen, c := Call(ReadState(mon));
      if !c.ok { return true; }
      var k := Ctx(mon, seen.states.Cached(), seen.states.pos, {});
      var grafanaOK := RegisterIfNeeded(Grafana, k);
      err := RegisterPerses(if grafanaOK then k else Failing(Grafana, k), grafanaOK);
    }

    /** The second half of registerBackends: Perses, and the marker if both backends are fine. */
    method RegisterPerses(k: Ctx, grafanaOK: bool) returns (err: bool)
      requires Valid() && pc == EnterBackend(Perses, k) && k.failed == if grafanaOK then {} else {Grafana}
      modifies this
      ensures Valid() && runs == old(runs)
      ensures pc == if err then Idle else ListDashboards(Grafana)
    {
      var persesOK := RegisterIfNeeded(Perses, k);
      if !grafanaOK || !persesOK { return true; }
      err := SetNamespaceMarker(k);
    }

    /** setNamespaceMarker. */
    method SetNamespaceMarker(k: Ctx) returns (err: bool)
      requires Valid() && pc == StampMarker(k)
      modifies this
      ensures Valid() && runs == old(runs)
      ensures pc == if err then Idle else ListDashboards(Grafana)
    {
      var seen, c := Call(StampMarker(k));
      return !c.ok || PatchMarker(seen.o.mon.Live(), k.mon, k.state).None?;
    }

    /** copyGrafanaDashboards and copyPersesDashboards: a failing copy is noted and the loop goes on. */
    method CopyDashboards(b: Backend) returns (abort: bool)
      requires Valid() && pc == ListDashboards(b)
      modifies this
      ensures Valid() && runs == old(runs)
      ensures pc == if abort then Idle else AfterCopy(b, [])
    {
      var seen, c := Call(ListDashboards(b));
      if !c.ok { return true; }
      abort := CopyAll(b, c.sources);
    }

    method CopyAll(b: Backend, todo: seq<Source>) returns (abort: bool)
      requires Valid() && pc == AfterCopy(b, todo)
      modifies this
      ensures Valid() && runs == old(runs)
      ensures pc == if abort then Idle else AfterCopy(b, [])
    {
      var i := 0;
      while i < |todo|
        invariant Valid() && runs == old(runs)
        invariant i <= |todo| && pc == AfterCopy(b, todo[i..])
      {
        if !todo[i].usable { return true; }
        assert todo[i..][1..] == todo[i + 1..];
        CopyOne(b, todo[i].name, todo[i + 1..]);
        i := i + 1;
      }
      return false;
    }

    /** Whether the copy succeeds or not, the loop goes on. */
    method CopyOne(b: Backend, name: string, rest: seq<Source>)
      requires Valid() && pc == CopyNext(b, name, rest)
      modifies this
      ensures Valid() && runs == old(runs) && pc == AfterCopy(b, rest)
    {
      var _, _ := Call(CopyNext(b, name, rest));
    }

    /** Reconcile, from the cached read of the namespace to its return. */
    method Reconcile() returns (err: bool)
      requires Valid() && pc == Idle
      modifies this
      ensures Valid() && pc == Idle && runs == old(runs) + 1
    {
      var seen, c := Call(Idle);
      if !c.ok { return true; }
      var ns := seen.o.ns.Cached();
      if !ns.Ns? || ns.clientOrg == "" || ns.orgId == "" { return false; }
      if !c.gate { return true; }  // the detector is not ready, or federated Rancher
      if ns.deleting {
        err := HandleDeletion(ns, false);
      } else if ns.clientOrg == TERMINATING {
        if ns.cleaned { return false; }
        err := HandleTerminating(ns);
      } else {
        err := Converge(ns);
      }
    }

    method HandleTerminating(ns: HeldNs) returns (err: bool)
      requires Valid() && pc == EnterTeardown(hub, ns, true)
      modifies this
      ensures Valid() && pc == Idle && runs == old(runs)
    {
      err := HandleDeletion(ns, true);
      if !err {
        var seen, c := Call(MarkCleaned(ns));
        err := !c.ok;
      }
    }

    /** The live path: uncached re-read, finalizer, monitoring namespace, registration, copies. */
    method Converge(ns: HeldNs) returns (err: bool)
      requires Valid() && pc == FreshRead(ns)
      modifies this
      ensures Valid() && pc == Idle && runs == old(runs)
    {
      var seen, c := Call(FreshRead(ns));
      if !c.ok || !Active(seen.o.ns.Live()) { return !c.ok; }
      seen, c := Call(AddFinalizer(ns));  // ensureFinalizer
      if !c.ok || PatchAddFinalizer(seen.o.ns.Live(), ns).None? { return true; }
      var m := EnsureMonitoringNamespace();
      if m.None? { return true; }
      err := FindPrometheusConfig(m.value);
      if !err {
        err := Deploy(m.value);
      }
    }

    method Deploy(mon: HeldMon) returns (err: bool)
      requires Valid() && pc == if hub then ReadState(mon) else ListDashboards(Grafana)
      modifies this
      ensures Valid() && pc == Idle && runs == old(runs)
    {
      if hub {
        err := RegisterBackends(mon);
        if err { return; }
      }
      err := CopyDashboards(Grafana);
      if err { return; }
      err := CopyDashboards(Perses);
    }

    /** ensureMonitoringRoleBinding, the default Prometheus with its Service, and the trickster
        RoleBinding that buildPrometheusConfig waits for. */
    method FindPrometheusConfig(mon: HeldMon) returns (err: bool)
      requires Valid() && pc == BindRole(mon)
      modifies this
      ensures Valid() && runs == old(runs)
      ensures pc == if err then Idle else if hub then ReadState(mon) else ListDashboards(Grafana)
    {
      var seen, c := Call(BindRole(mon));
      if !c.ok { return true; }
      seen, c := Call(FindPrometheus(mon));
      if !c.ok { return true; }
      err := BuildPrometheusConfig(mon);
    }

    method BuildPrometheusConfig(mon: HeldMon) returns (err: bool)
      requires Valid() && pc == GateRole(mon)
      modifies this
      ensures Valid() && runs == old(runs)
      ensures pc == if err then Idle else if hub then ReadState(mon) else ListDashboards(Grafana)
    {
      var seen, c := Call(GateRole(mon));
      return !c.ok || seen.role.state == "";
    }

    /** One whole reconcile, started when none is in progress, is a run of the machine with exactly
        one reconcile of x, which it leaves finished. */
    method Execute() returns (err: bool, ghost steps: seq<Step>)
      requires Valid() && pc == Idle && w == first
      modifies this
      ensures Valid() && w == Run(old(w), steps) && w.orgs[x].pc == Idle && w.orgs[x].runs == old(w.orgs[x].runs) + 1
    {
      err := Reconcile();
      HistoryIsRun(worlds, trace);
      steps := trace;
    }
  }
}
