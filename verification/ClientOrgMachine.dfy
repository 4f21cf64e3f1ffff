/**
 The client-org controller and the registration part of the Prometheus controller as one
 transition system over a shared API server.

 A step is one API or hub call of one reconcile, or one move of the environment. Reconciles of
 one namespace are serial (one program counter per namespace); reconciles of different
 namespaces and of Prometheus objects interleave freely. Reads through the manager's client go
 to a lagging cache, every call can fail, and a run may stop between any two steps.
 */
module ClientOrgMachine {
  import opened Kube

  const TERMINATING := "terminating"
  const LEGACY := "true"

  // ---------------------------------------------------------------- server objects

  /** A client-org namespace as one stored version. */
  datatype Ns =
    | Unborn
    | Ns(clientOrg: string, orgId: string, fin: bool, deleting: bool, cleaned: bool)
    | Gone

  /** The copy of a namespace a reconcile holds. */
  type HeldNs = v: Ns | v.Ns? witness Ns("", "", false, false, false)

  /** isActiveClientOrg */
  predicate Active(v: Ns) {
    v.Ns? && !v.deleting && v.clientOrg != "" && v.clientOrg != TERMINATING
  }

  /** Marked for teardown, or already removed. */
  predicate Retired(v: Ns) {
    v.Gone? || (v.Ns? && (v.deleting || v.clientOrg == TERMINATING))
  }

  /** The monitoring namespace of a client org; marker is "" when the annotation is missing. */
  datatype Mon = NoMon | Mon(marker: string, deleting: bool)

  type HeldMon = m: Mon | m.Mon? witness Mon("", false)

  /** Admission takes new objects into this namespace. */
  predicate Accepting(m: Mon) {
    m.Mon? && !m.deleting
  }

  /** The registration annotations of the trickster RoleBinding. */
  datatype Mark = Mark(state: string, token: Option<string>)

  datatype Dashboard = Dashboard(backend: Backend, name: string)

  /** A source dashboard as listed: its name, and whether it has a model that can be decoded. */
  datatype Source = Source(name: string, usable: bool)

  // ---------------------------------------------------------------- program counters

  /** What registerBackends carries from call to call: the monitoring namespace and the cluster
      state it read (and which of the states that was), and the backends that failed so far. */
  datatype Ctx = Ctx(mon: HeldMon, state: string, st: nat, failed: set<Backend>)

  datatype Pc =
    | Idle
    | Unregister(b: Backend, ns: HeldNs, mark: bool)
    | DeleteAll(b: Backend, ns: HeldNs, mark: bool)
    | DropFinalizer(ns: HeldNs, mark: bool)
    | MarkCleaned(ns: HeldNs)
    | FreshRead(ns: HeldNs)
    | AddFinalizer(ns: HeldNs)
    | GetMonitoring
    | CreateMonitoring
    | BindRole(mon: HeldMon)
    | FindPrometheus(mon: HeldMon)
    | GateRole(mon: HeldMon)
    | ReadState(mon: HeldMon)
    | CheckBinding(b: Backend, c: Ctx)
    | HubRegister(b: Backend, c: Ctx)
    | WriteBinding(b: Backend, c: Ctx)
    | WriteSecret(b: Backend, c: Ctx)
    | StampMarker(c: Ctx)
    | ListDashboards(b: Backend)
    | CopyNext(b: Backend, name: string, rest: seq<Source>)

  datatype PromPc =
    | PIdle
    | PUnregister(b: Backend)
    | PReadState
    | PReadToken(state: string)
    | PEnsureRole(state: string, tok: Option<string>)
    | PLegacy(state: string, tok: Option<string>)
    | PRegister(b: Backend, state: string, tok: Option<string>)
    | PBind(b: Backend, state: string, tok: Option<string>)
    | PStamp(state: string, tok: Option<string>)

  // ---------------------------------------------------------------- the whole system

  /** Everything that belongs to one client org: its namespace, its monitoring namespace, the
      AppBindings and auth Secrets there, the dashboards the controller copied there (live, and
      deleted but held by their own finalizer), the hub's record of the cluster state each
      backend was last registered under, whether a teardown has completed, the number of
      reconciles started, and where the current reconcile stands. */
  datatype Org = Org(
    ns: Versioned<Ns>,
    mon: Versioned<Mon>,
    bindings: Versioned<set<Backend>>,
    secrets: set<Backend>,
    copies: set<Dashboard>,
    dying: set<Dashboard>,
    hub: map<Backend, nat>,
    torn: bool,
    runs: nat,
    pc: Pc)

  datatype Event =
    | HubReg(org: string, run: nat, b: Backend, state: string)
    | HubDrop(org: string, b: Backend)
    | Bound(org: string, run: nat, b: Backend, state: string)
    | Stamped(org: string, run: nat, state: string)
    | Copied(org: string, d: Dashboard)
    | TornDown(org: string)
    | PromReg(run: nat, b: Backend, state: string, token: Option<string>)
    | PromDrop(b: Backend)
    | PromStamped(run: nat, state: string, token: Option<string>)

  /** hub is false when the operator runs without a registration client. */
  datatype World = World(
    hub: bool,
    states: Versioned<string>,
    role: Versioned<Mark>,
    orgs: map<string, Org>,
    prom: PromPc,
    promRuns: nat,
    log: seq<Event>)

  /** How the environment resolves one call: success or failure, a hub request that took effect
      although its response was lost, whether the detector lets a reconcile go on, and the data a
      call returns. */
  datatype Choice = Choice(ok: bool, lost: bool, gate: bool, sources: seq<Source>, token: Option<string>, deleting: bool)

  datatype Step =
    | Reconcile(org: string, c: Choice)
    | PromReconcile(c: Choice)
    // the environment
    | EditNamespace(org: string, clientOrg: string, orgId: string)
    | CreateNamespace(org: string, clientOrg: string, orgId: string)
    | DeleteNamespace(org: string)
    | FinishNamespace(org: string)
    | DeleteMonitoring(org: string)
    | FinishMonitoring(org: string)
    | DropBinding(org: string, b: Backend)
    | DropSecret(org: string, b: Backend)
    | DeleteDashboard(org: string, d: Dashboard)
    | FinishDashboard(org: string, d: Dashboard)
    | SyncOrg(org: string, ns: nat, mon: nat, bindings: nat)
    | ChangeState(state: string)
    | DropRole
    | SyncShared(states: nat, role: nat)

  // ---------------------------------------------------------------- patches

  /** A patch is the difference between the object the caller holds and the object it wants, so
      a finalizer the held copy already shows is not sent. The server refuses a new finalizer on
      a namespace that is being deleted. None is an error. */
  function PatchAddFinalizer(live: Ns, held: HeldNs): Option<Ns>
  {
    if !live.Ns? then None
    else if held.fin || live.fin then Some(live)
    else if live.deleting then None
    else Some(live.(fin := true))
  }

  function PatchDropFinalizer(live: Ns, held: HeldNs): Option<Ns>
  {
    if !live.Ns? then None
    else if !held.fin then Some(live)
    else Some(live.(fin := false))
  }

  function PatchCleaned(live: Ns): Option<Ns> {
    if !live.Ns? then None else Some(live.(cleaned := true))
  }

  function PatchMarker(live: Mon, held: HeldMon, state: string): Option<Mon>
  {
    if !live.Mon? then None
    else if held.marker == state then Some(live)
    else Some(live.(marker := state))
  }

  // ---------------------------------------------------------------- Reconcile, call by call

  predicate ValidOrg(o: Org) {
    o.ns.Valid() && o.mon.Valid() && o.bindings.Valid()
  }

  predicate Valid(w: World) {
    && w.states.Valid() && w.role.Valid()
    && forall x :: x in w.orgs ==> ValidOrg(w.orgs[x])
  }

  /** handleDeletion: the hub is left out when there is no registration client. */
  function EnterTeardown(hub: bool, ns: HeldNs, mark: bool): Pc {
    if hub then Unregister(Grafana, ns, mark) else DeleteAll(Grafana, ns, mark)
  }

  /** After the cached read of the namespace: the branches of Reconcile up to the next call. gate
      is false when the detector is not ready, fails, or reports a federated Rancher cluster. */
  function Dispatch(hub: bool, ns: Ns, gate: bool): Pc {
    if !ns.Ns? || ns.clientOrg == "" || ns.orgId == "" || !gate then Idle
    else if ns.deleting then EnterTeardown(hub, ns, false)
    else if ns.clientOrg == TERMINATING then
      if ns.cleaned then Idle else EnterTeardown(hub, ns, true)
    else FreshRead(ns)
  }

  /** The AppBinding is only looked up when the marker already shows the state. */
  function EnterBackend(b: Backend, k: Ctx): Pc {
    if k.mon.marker != k.state then HubRegister(b, k) else CheckBinding(b, k)
  }

  /** registerBackends moves on to the next backend, then to the stamp. */
  function AfterBackend(b: Backend, k: Ctx): Pc {
    match b
    case Grafana => EnterBackend(Perses, k)
    case Perses => if k.failed == {} then StampMarker(k) else Idle
  }

  /** The copy loop: a source without a usable model aborts the reconcile. */
  function AfterCopy(b: Backend, todo: seq<Source>): Pc {
    if todo == [] then
      if b == Grafana then ListDashboards(Perses) else Idle
    else if !todo[0].usable then Idle
    else CopyNext(b, todo[0].name, todo[1..])
  }

  function Failing(b: Backend, c: Ctx): Ctx {
    c.(failed := c.failed + {b})
  }

  /** handleDeletion and markCleanedUp. */
  function TeardownStep(x: string, o: Org, c: Choice): (r: (Org, seq<Event>))
    requires ValidOrg(o)
    requires o.pc.Unregister? || o.pc.DeleteAll? || o.pc.DropFinalizer? || o.pc.MarkCleaned?
    ensures ValidOrg(r.0)
  {
    match o.pc
    case Unregister(b, ns, mark) =>
      // best effort: the outcome is logged and ignored
      var next := if b == Grafana then Unregister(Perses, ns, mark) else DeleteAll(Grafana, ns, mark);
      if c.ok || c.lost
      then (o.(hub := o.hub - {b}, pc := next), [HubDrop(x, b)])
      else (o.(pc := next), [])
    case DeleteAll(b, ns, mark) =>
      var gone := set d | d in o.copies && d.backend == b;
      if c.ok
      then (o.(copies := o.copies - gone, dying := o.dying + gone,
               pc := if b == Grafana then DeleteAll(Perses, ns, mark) else DropFinalizer(ns, mark)), [])
      else (o.(pc := Idle), [])
    case DropFinalizer(ns, mark) =>
      var p := PatchDropFinalizer(o.ns.Live(), ns);
      if c.ok && p.Some?
      then (o.(ns := o.ns.Write(p.value), torn := true, pc := if mark then MarkCleaned(ns) else Idle), [TornDown(x)])
      else (o.(pc := Idle), [])
    case MarkCleaned(_) =>
      var p := PatchCleaned(o.ns.Live());
      if c.ok && p.Some? then (o.(ns := o.ns.Write(p.value), pc := Idle), []) else (o.(pc := Idle), [])
  }

  /** From the uncached re-read to the monitoring namespace. */
  function LiveStep(o: Org, c: Choice): (r: Org)
    requires ValidOrg(o)
    requires o.pc.FreshRead? || o.pc.AddFinalizer? || o.pc.GetMonitoring? || o.pc.CreateMonitoring?
    ensures ValidOrg(r)
  {
    match o.pc
    case FreshRead(ns) =>
      o.(pc := if c.ok && Active(o.ns.Live()) then AddFinalizer(ns) else Idle)
    case AddFinalizer(ns) =>
      var p := PatchAddFinalizer(o.ns.Live(), ns);
      if c.ok && p.Some? then o.(ns := o.ns.Write(p.value), pc := GetMonitoring) else o.(pc := Idle)
    case GetMonitoring =>
      var mon := o.mon.Cached();
      o.(pc := if !c.ok then Idle
         else if mon.NoMon? then CreateMonitoring
         else if mon.deleting then Idle
         else BindRole(mon))
    case CreateMonitoring =>
      if c.ok && o.mon.Live().NoMon?
      then o.(mon := o.mon.Write(Mon("", false)), pc := BindRole(Mon("", false)))
      else o.(pc := Idle)
  }

  /** From the RoleBinding of the monitoring namespace to the cluster state. */
  function GateStep(hub: bool, states: Versioned<string>, role: Mark, pc: Pc, c: Choice): Pc
    requires states.Valid()
    requires pc.BindRole? || pc.FindPrometheus? || pc.GateRole? || pc.ReadState?
  {
    match pc
    case BindRole(mon) => if c.ok then FindPrometheus(mon) else Idle
    case FindPrometheus(mon) => if c.ok then GateRole(mon) else Idle
    case GateRole(mon) =>
      // buildPrometheusConfig refuses until the trickster RoleBinding carries a marker
      if !c.ok || role.state == "" then Idle
      else if hub then ReadState(mon)
      else ListDashboards(Grafana)
    case ReadState(mon) => if c.ok then EnterBackend(Grafana, Ctx(mon, states.Cached(), states.pos, {})) else Idle
  }

  /** registerBackends. */
  function RegisterStep(x: string, o: Org, c: Choice): (r: (Org, seq<Event>))
    requires ValidOrg(o)
    requires o.pc.CheckBinding? || o.pc.HubRegister? || o.pc.WriteBinding? || o.pc.WriteSecret? || o.pc.StampMarker?
    ensures ValidOrg(r.0)
  {
    match o.pc
    case CheckBinding(b, k) =>
      // any error of the lookup counts as a missing AppBinding
      (o.(pc := if c.ok && b in o.bindings.Cached() then AfterBackend(b, k) else HubRegister(b, k)), [])
    case HubRegister(b, k) =>
      var reached := c.ok || c.lost;
      (o.(hub := if reached then o.hub[b := k.st] else o.hub,
          pc := if c.ok then WriteBinding(b, k) else AfterBackend(b, Failing(b, k))),
       if reached then [HubReg(x, o.runs, b, k.state)] else [])
    case WriteBinding(b, k) =>
      if c.ok && (b in o.bindings.Live() || Accepting(o.mon.Live()))
      then (o.(bindings := o.bindings.Write(o.bindings.Live() + {b}), pc := WriteSecret(b, k)),
            [Bound(x, o.runs, b, k.state)])
      else (o.(pc := AfterBackend(b, Failing(b, k))), [])
    case WriteSecret(b, k) =>
      // the error of the Secret write is dropped
      (o.(secrets := if c.ok then o.secrets + {b} else o.secrets, pc := AfterBackend(b, k)), [])
    case StampMarker(k) =>
      var p := PatchMarker(o.mon.Live(), k.mon, k.state);
      if c.ok && p.Some?
      then (o.(mon := o.mon.Write(p.value), pc := ListDashboards(Grafana)),
            if k.mon.marker != k.state then [Stamped(x, o.runs, k.state)] else [])
      else (o.(pc := Idle), [])
  }

  /** copyDashboards: the errors of single copies are collected and do not stop the loop. */
  function CopyStep(x: string, o: Org, c: Choice): (r: (Org, seq<Event>))
    requires ValidOrg(o)
    requires o.pc.ListDashboards? || o.pc.CopyNext?
    ensures ValidOrg(r.0)
  {
    match o.pc
    case ListDashboards(b) =>
      (o.(pc := if c.ok then AfterCopy(b, c.sources) else Idle), [])
    case CopyNext(b, name, rest) =>
      var d := Dashboard(b, name);
      var o' := o.(pc := AfterCopy(b, rest));
      if !c.ok || d in o.dying then (o', [])
      else if d in o.copies then (o', [Copied(x, d)])
      else if Accepting(o.mon.Live()) then (o'.(copies := o.copies + {d}), [Copied(x, d)])
      else (o', [])  // admission refuses a new object in a missing or terminating namespace
  }

  /** One call of a reconcile of x: the new org and the events it adds to the log. */
  function OrgCall(hub: bool, states: Versioned<string>, role: Mark, x: string, o: Org, c: Choice): (r: (Org, seq<Event>))
    requires ValidOrg(o) && states.Valid()
    ensures ValidOrg(r.0)
  {
    match o.pc
    case Idle =>
      (o.(pc := if c.ok then Dispatch(hub, o.ns.Cached(), c.gate) else Idle, runs := o.runs + 1), [])
    case Unregister(_, _, _) => TeardownStep(x, o, c)
    case DeleteAll(_, _, _) => TeardownStep(x, o, c)
    case DropFinalizer(_, _) => TeardownStep(x, o, c)
    case MarkCleaned(_) => TeardownStep(x, o, c)
    case FreshRead(_) => (LiveStep(o, c), [])
    case AddFinalizer(_) => (LiveStep(o, c), [])
    case GetMonitoring => (LiveStep(o, c), [])
    case CreateMonitoring => (LiveStep(o, c), [])
    case BindRole(_) => (o.(pc := GateStep(hub, states, role, o.pc, c)), [])
    case FindPrometheus(_) => (o.(pc := GateStep(hub, states, role, o.pc, c)), [])
    case GateRole(_) => (o.(pc := GateStep(hub, states, role, o.pc, c)), [])
    case ReadState(_) => (o.(pc := GateStep(hub, states, role, o.pc, c)), [])
    case ListDashboards(_) => CopyStep(x, o, c)
    case CopyNext(_, _, _) => CopyStep(x, o, c)
    case _ => RegisterStep(x, o, c)
  }

  function OrgStep(w: World, x: string, c: Choice): (r: (Org, seq<Event>))
    requires Valid(w) && x in w.orgs
    ensures ValidOrg(r.0)
  {
    OrgCall(w.hub, w.states, w.role.Cached(), x, w.orgs[x], c)
  }

  // ---------------------------------------------------------------- SetupClusterForPrometheus

  /** One call of a Prometheus reconcile, number run. */
  function PromStep(hub: bool, states: Versioned<string>, role: Versioned<Mark>, run: nat, pc: PromPc, c: Choice)
    : (r: (PromPc, Versioned<Mark>, seq<Event>))
    requires states.Valid() && role.Valid()
    ensures r.1.Valid()
  {
    match pc
    case PIdle =>
      (if !c.ok then PIdle else if c.deleting then PUnregister(Grafana) else PReadState, role, [])
    case PUnregister(b) =>
      // deleting: a hub failure here ends the reconcile and keeps the finalizer
      (if c.ok && b == Grafana then PUnregister(Perses) else PIdle, role,
       if hub && (c.ok || c.lost) then [PromDrop(b)] else [])
    case PReadState =>
      (if c.ok then PReadToken(states.Cached()) else PIdle, role, [])
    case PReadToken(state) =>
      (if c.ok then PEnsureRole(state, c.token) else PIdle, role, [])
    case PEnsureRole(state, tok) =>
      var m := role.Live();
      (if !c.ok then PIdle
       else if m.state == LEGACY then PLegacy(state, tok)
       else if hub && (m.state != state || (tok.Some? && m.token != tok)) then PRegister(Grafana, state, tok)
       else PIdle, role, [])
    case PLegacy(state, tok) =>
      if c.ok
      then (PIdle, role.Write(Mark(state, tok)), [PromStamped(run, state, tok)])
      else (PIdle, role, [])
    case PRegister(b, state, tok) =>
      (if c.ok then PBind(b, state, tok) else PIdle, role,
       if c.ok then [PromReg(run, b, state, tok)] else [])
    case PBind(b, state, tok) =>
      (if !c.ok then PIdle else if b == Grafana then PRegister(Perses, state, tok) else PStamp(state, tok), role, [])
    case PStamp(state, tok) =>
      if c.ok
      then (PIdle, role.Write(Mark(state, tok)), [PromStamped(run, state, tok)])
      else (PIdle, role, [])
  }

  // ---------------------------------------------------------------- environment

  /** A step of the environment on the objects of one organisation. */
  predicate OnOrg(s: Step) {
    !s.Reconcile? && !s.PromReconcile? && !s.ChangeState? && !s.DropRole? && !s.SyncShared?
  }

  /** The organisations' own objects after one environment step. */
  function EnvOrg(o: Org, s: Step): Org
    requires ValidOrg(o)
  {
    var ns := o.ns.Live();
    var mon := o.mon.Live();
    match s
    case EditNamespace(_, l, id) =>
      if ns.Ns? then o.(ns := o.ns.Write(ns.(clientOrg := l, orgId := id))) else o
    case CreateNamespace(_, l, id) =>
      if !ns.Ns? then o.(ns := o.ns.Write(Ns(l, id, false, false, false))) else o
    case DeleteNamespace(_) =>
      if ns.Ns? then o.(ns := o.ns.Write(ns.(deleting := true))) else o
    case FinishNamespace(_) =>
      if ns.Ns? && ns.deleting && !ns.fin then o.(ns := o.ns.Write(Gone)) else o
    case DeleteMonitoring(_) =>
      if mon.Mon? then o.(mon := o.mon.Write(mon.(deleting := true))) else o
    case FinishMonitoring(_) =>
      if mon.Mon? && mon.deleting && o.copies + o.dying == {}
      then o.(mon := o.mon.Write(NoMon), bindings := o.bindings.Write({}), secrets := {})
      else o
    case DropBinding(_, b) =>
      o.(bindings := o.bindings.Write(o.bindings.Live() - {b}), secrets := o.secrets - {b})
    case DropSecret(_, b) => o.(secrets := o.secrets - {b})
    case DeleteDashboard(_, d) =>
      if d in o.copies then o.(copies := o.copies - {d}, dying := o.dying + {d}) else o
    case FinishDashboard(_, d) => o.(dying := o.dying - {d})
    case SyncOrg(_, i, j, k) => o.(ns := o.ns.Sync(i), mon := o.mon.Sync(j), bindings := o.bindings.Sync(k))
    case _ => o
  }

  /** A cluster state is a keyed hash in base64, so it is neither empty nor the legacy marker. */
  predicate StateValue(s: string) {
    s != "" && s != LEGACY
  }

  function Apply(w: World, s: Step): World
    requires Valid(w)
  {
    match s
    case Reconcile(x, c) =>
      if x !in w.orgs then w else
      var r := OrgStep(w, x, c);
      w.(orgs := w.orgs[x := r.0], log := w.log + r.1)
    case PromReconcile(c) =>
      var r := PromStep(w.hub, w.states, w.role, w.promRuns, w.prom, c);
      w.(prom := r.0, role := r.1, log := w.log + r.2,
         promRuns := if w.prom.PIdle? then w.promRuns + 1 else w.promRuns)
    case ChangeState(v) => if StateValue(v) then w.(states := w.states.Write(v)) else w
    case DropRole => w.(role := w.role.Write(Mark("", None)))
    case SyncShared(i, j) => w.(states := w.states.Sync(i), role := w.role.Sync(j))
    case _ =>
      if s.org !in w.orgs then w else w.(orgs := w.orgs[s.org := EnvOrg(w.orgs[s.org], s)])
  }

  // ---------------------------------------------------------------- runs

  lemma EnvOrgValid(o: Org, s: Step)
    requires ValidOrg(o)
    ensures ValidOrg(EnvOrg(o, s)) && EnvOrg(o, s).pc == o.pc && EnvOrg(o, s).runs == o.runs && EnvOrg(o, s).hub == o.hub
  {
  }

  lemma ApplyValid(w: World, s: Step)
    requires Valid(w)
    ensures Valid(Apply(w, s))
  {
    match s
    case Reconcile(_, _) =>
    case PromReconcile(c) =>
    case ChangeState(_) =>
    case DropRole =>
    case SyncShared(_, _) =>
    case _ =>
      if s.org in w.orgs { EnvOrgValid(w.orgs[s.org], s); }
  }

  function Run(w: World, steps: seq<Step>): (r: World)
    requires Valid(w)
    ensures Valid(r)
  {
    if steps == [] then w
    else
      var w' := Run(w, steps[..|steps| - 1]);
      ApplyValid(w', steps[|steps| - 1]);
      Apply(w', steps[|steps| - 1])
  }

  lemma {:induction false} RunAppend(w: World, a: seq<Step>, b: seq<Step>)
    requires Valid(w)
    ensures Run(w, a + b) == Run(Run(w, a), b)
  {
    if b == [] {
      assert a + b == a;
    } else {
      var n := |b| - 1;
      assert (a + b)[..|a + b| - 1] == a + b[..n];
      RunAppend(w, a, b[..n]);
    }
  }

  /** An organisation as a starting operator finds it, with caches in step: untouched, or left by
      an earlier operator in any condition where copies are covered by the finalizer. */
  ghost predicate StartOrg(o: Org) {
    && ValidOrg(o) && |o.ns.hist| == 1 && |o.mon.hist| == 1 && |o.bindings.hist| == 1
    && !o.torn && o.pc.Idle?
    && (o.copies != {} ==> o.ns.Live().Ns? && o.ns.Live().fin)
    && (forall b :: b in o.hub ==> o.hub[b] == 0)
  }

  /** The operator starts; the trickster RoleBinding may carry any marker. */
  ghost predicate Init(w: World) {
    && Valid(w)
    && |w.states.hist| == 1 && StateValue(w.states.Live()) && |w.role.hist| == 1
    && w.prom == PIdle && w.log == []
    && forall x :: x in w.orgs ==> StartOrg(w.orgs[x])
  }
}
