/**
 Federating a ServiceMonitor over the Prometheuses of a Rancher cluster: the fan-out loop, when it
 panics, and that copies neither cascade nor overwrite their own source.
 */
module Federation {
  import opened Kube
  import opened LabelSelectors
  import opened PortUpserts
  import R = RelabelFilter
  import A = AutoBinding

  const FEDERATED := "federated"

  datatype Key = Key(ns: string, name: string)

  datatype Monitor = Monitor(labels: Labels, endpoints: seq<R.Endpoint>, rest: string, owner: Option<Key>)

  datatype Service = Service(labels: Labels, kind: string, clusterIP: string, ports: seq<Port>, owner: Option<Key>)

  datatype Endpoints = Endpoints(labels: Labels, subsets: seq<Subset>, owner: Option<Key>)

  datatype Secret = Secret(data: string, owner: Option<Key>)

  datatype Store = Store(
    monitors: map<Key, Monitor>,
    services: map<Key, Service>,
    endpoints: map<Key, Endpoints>,
    secrets: map<Key, Secret>)

  // ---------------------------------------------------------------- the objects a copy asks for

  function Filtered(endpoints: seq<R.Endpoint>, keep: R.Rule): (r: seq<R.Endpoint>)
    ensures |r| == |endpoints| && forall i :: 0 <= i < |r| ==> r[i] == R.Filtered(endpoints[i], keep)
  {
    seq(|endpoints|, i requires 0 <= i < |endpoints| => R.Filtered(endpoints[i], keep))
  }

  function KeepRule(namespaces: seq<R.Namespace>): R.Rule {
    R.KeepNamespaces(R.KeepRegex(R.SortedNames(namespaces)))
  }

  /** cur is what the target namespace holds under the name of the source. */
  function CopiedMonitor(p: A.Prom, namespaces: seq<R.Namespace>, src: Monitor, cur: Option<Monitor>): Monitor {
    var labels := if cur.Some? then cur.value.labels else map[];
    Monitor(Overwrite(labels, LabelsFor(p.selector)) - {PrometheusLabel},
            Filtered(src.endpoints, KeepRule(namespaces)), src.rest, Some(Key(p.ns, p.name)))
  }

  /** A Service keeps its cluster IP; a new one has none yet. */
  function CopiedService(owner: Key, src: Service, cur: Option<Service>): Service {
    var base := if cur.Some? then cur.value else Service(map[], "", "", [], None);
    Service(Overwrite(base.labels, src.labels), "ClusterIP", base.clusterIP,
            UpsertAll(ServicePorts, base.ports, ServiceWants(src.ports)), Some(owner))
  }

  function PortNames(subsets: seq<Subset>): (r: seq<seq<string>>)
    ensures |r| == |subsets|
    ensures forall i :: 0 <= i < |r| ==> |r[i]| == |subsets[i].ports|
    ensures forall i, j :: 0 <= i < |r| && 0 <= j < |r[i]| ==> r[i][j] == subsets[i].ports[j].name
  {
    seq(|subsets|, i requires 0 <= i < |subsets| =>
      seq(|subsets[i].ports|, j requires 0 <= j < |subsets[i].ports| => subsets[i].ports[j].name))
  }

  predicate Copyable(src: SourceService, ep: Endpoints) {
    AllServed(PortNames(ep.subsets), src.svc.ports)
  }

  function CopiedEndpoints(owner: Key, src: SourceService, ep: Endpoints, cur: Option<Endpoints>): Endpoints
    requires Copyable(src, ep)
  {
    var base := if cur.Some? then cur.value else Endpoints(map[], [], None);
    Endpoints(Overwrite(base.labels, ep.labels),
              CopiedSubsets(base.subsets, PortNames(ep.subsets), src.svc.clusterIP, src.svc.ports), Some(owner))
  }

  // ---------------------------------------------------------------- what one iteration of the loop meets

  datatype SourceService = SourceService(key: Key, svc: Service)

  /** How the calls for one Prometheus end. namespaces is None when its namespace selector is
      invalid or the listing fails; the map of source Services is iterated in the order services. */
  datatype Turn = Turn(
    prom: A.Prom,
    isDefault: bool,
    patched: bool,
    namespaces: Option<seq<R.Namespace>>,
    copied: bool,
    services: seq<SourceService>)

  predicate CopyFails(t: Turn) {
    t.namespaces.None? || !t.copied
  }

  /** A project Prometheus in the namespace of the source ends the whole reconcile. */
  predicate Blocks(key: Key, t: Turn) {
    !t.isDefault && t.prom.ns == key.ns
  }

  /** The missing target of a failed copy is used for a Service or a Secret. */
  predicate UsesMissingTarget(secrets: seq<(string, string)>, t: Turn) {
    !t.isDefault && CopyFails(t) && (t.services != [] || secrets != [])
  }

  /** Refused: the early return. NilTarget and MissingPort are panics. */
  datatype End = Done | Refused | NilTarget | MissingPort

  /** The store, the errors collected so far, and how the loop stands. */
  datatype Progress = Progress(store: Store, errs: nat, end: End)

  /** The outcomes of the calls in the n-th turn, as (n, m, i): for the m-th Service its write (0), the
      read of its Endpoints (1), the read of the target Endpoints (2) and their write (3), and for the
      m-th Secret its write (4). */
  type Outcomes = (int, int, int) -> bool

  // ---------------------------------------------------------------- what the loop amounts to

  function Labelled(m: Monitor, p: A.Prom): Monitor {
    m.(labels := Overwrite(m.labels, LabelsFor(p.selector)))
  }

  function Get<T>(m: map<Key, T>, k: Key): Option<T> {
    if k in m then Some(m[k]) else None
  }

  function Failed(p: Progress): Progress {
    p.(errs := p.errs + 1)
  }

  function ServiceCopied(p: Progress, target: Key, src: SourceService, ok: bool): Progress {
    if !ok then Failed(p)
    else
      var k := Key(target.ns, src.key.name);
      var services := p.store.services[k := CopiedService(target, src.svc, Get(p.store.services, k))];
      p.(store := p.store.(services := services))
  }

  function EndpointsCopied(p: Progress, target: Key, src: SourceService, read: bool, found: bool, ok: bool): Progress {
    if src.key !in p.store.endpoints || !read || !found then Failed(p)
    else
      var ep := p.store.endpoints[src.key];
      if !Copyable(src, ep) then p.(end := MissingPort)
      else if !ok then Failed(p)
      else
        var k := Key(target.ns, src.key.name);
        var endpoints := p.store.endpoints[k := CopiedEndpoints(target, src, ep, Get(p.store.endpoints, k))];
        p.(store := p.store.(endpoints := endpoints))
  }

  /** The first m Services of the n-th turn. */
  function ServicesAfter(p: Progress, target: Key, services: seq<SourceService>, n: nat, ok: Outcomes, m: nat): Progress
    requires m <= |services|
  {
    if m == 0 then p
    else
      var q := ServicesAfter(p, target, services, n, ok, m - 1);
      var src := services[m - 1];
      if q.end != Done then q
      else EndpointsCopied(ServiceCopied(q, target, src, ok(n, m - 1, 0)), target, src,
                           ok(n, m - 1, 1), ok(n, m - 1, 2), ok(n, m - 1, 3))
  }

  function SecretsAfter(p: Progress, target: Key, secrets: seq<(string, string)>, n: nat, ok: Outcomes, m: nat): Progress
    requires m <= |secrets|
  {
    if m == 0 then p
    else
      var q := SecretsAfter(p, target, secrets, n, ok, m - 1);
      var (name, data) := secrets[m - 1];
      if !ok(n, m - 1, 4) then Failed(q)
      else q.(store := q.store.(secrets := q.store.secrets[Key(target.ns, name) := Secret(data, Some(target))]))
  }

  function MonitorCopied(p: Progress, key: Key, src: Monitor, t: Turn): Progress
    requires !CopyFails(t)
  {
    var k := Key(t.prom.ns, key.name);
    var m := CopiedMonitor(t.prom, t.namespaces.value, src, Get(p.store.monitors, k));
    p.(store := p.store.(monitors := p.store.monitors[k := m]))
  }

  /** The turn of a project Prometheus. */
  function ProjectTurn(p: Progress, key: Key, src: Monitor, t: Turn, secrets: seq<(string, string)>, n: nat, ok: Outcomes): Progress {
    if CopyFails(t) then Failed(p).(end := if t.services != [] || secrets != [] then NilTarget else Done)
    else
      var target := Key(t.prom.ns, key.name);
      var q := ServicesAfter(MonitorCopied(p, key, src, t), target, t.services, n, ok, |t.services|);
      if q.end != Done then q else SecretsAfter(q, target, secrets, n, ok, |secrets|)
  }

  /** The turn of the default Prometheus; the in-memory source becomes the object as patched. */
  function DefaultTurn(p: Progress, key: Key, src: Monitor, t: Turn): (Progress, Monitor) {
    if !t.patched then (Failed(p), src)
    else
      var m := Labelled(if key in p.store.monitors then p.store.monitors[key] else src, t.prom);
      (p.(store := p.store.(monitors := p.store.monitors[key := m])), m)
  }

  function OneTurn(p: Progress, key: Key, src: Monitor, t: Turn, secrets: seq<(string, string)>, n: nat, ok: Outcomes): (Progress, Monitor) {
    if Blocks(key, t) then (p.(end := Refused), src)
    else if t.isDefault then DefaultTurn(p, key, src, t)
    else (ProjectTurn(p, key, src, t, secrets, n, ok), src)
  }

  /** The first n turns of the fan-out. */
  function TurnsAfter(p: Progress, key: Key, source: Monitor, turns: seq<Turn>, secrets: seq<(string, string)>, ok: Outcomes, n: nat)
    : (Progress, Monitor)
    requires n <= |turns|
  {
    if n == 0 then (p, source)
    else
      var (q, src) := TurnsAfter(p, key, source, turns, secrets, ok, n - 1);
      if q.end != Done then (q, src) else OneTurn(q, key, src, turns[n - 1], secrets, n - 1, ok)
  }

  // ---------------------------------------------------------------- the reconciler

  class FederationReconciler {
    var store: Store
    var errs: nat

    constructor (store: Store)
      ensures this.store == store && errs == 0
    {
      this.store, errs := store, 0;
    }

    /** The state between two calls, while the loop goes on. */
    ghost function Now(): Progress
      reads this
    {
      Progress(store, errs, Done)
    }

    /** updateServiceMonitorLabels on the source. */
    method UpdateLabels(key: Key, src: Monitor, t: Turn) returns (src': Monitor)
      modifies this
      ensures (Now(), src') == DefaultTurn(old(Now()), key, src, t)
    {
      if !t.patched {
        errs := errs + 1;
        return src;
      }
      var cur := if key in store.monitors then store.monitors[key] else src;
      var extra := LabelsForLabelSelector(t.prom.selector);
      src' := cur.(labels := Overwrite(cur.labels, extra));
      store := store.(monitors := store.monitors[key := src']);
    }

    /** copyServiceMonitor; None is the nil target of a failed copy. */
    method CopyServiceMonitor(key: Key, src: Monitor, t: Turn) returns (target: Option<Key>)
      modifies this
      ensures target == if CopyFails(t) then None else Some(Key(t.prom.ns, key.name))
      ensures Now() == if CopyFails(t) then Failed(old(Now())) else MonitorCopied(old(Now()), key, src, t)
    {
      if t.namespaces.None? || !t.copied {
        errs := errs + 1;
        return None;
      }
      var regex := R.NamespaceFilter(t.namespaces.value);
      var keep := R.KeepNamespaces(regex);
      var k := Key(t.prom.ns, key.name);
      var labels := if k in store.monitors then store.monitors[k].labels else map[];
      var extra := LabelsForLabelSelector(t.prom.selector);
      labels := Overwrite(labels, extra);
      labels := labels - {PrometheusLabel};
      var endpoints := new R.Endpoint[|src.endpoints|](i requires 0 <= i < |src.endpoints| => src.endpoints[i]);
      assert endpoints[..] == src.endpoints;
      R.FilterEndpoints(endpoints, keep);
      assert endpoints[..] == Filtered(src.endpoints, keep);
      var m := Monitor(labels, endpoints[..], src.rest, Some(Key(t.prom.ns, t.prom.name)));
      store := store.(monitors := store.monitors[k := m]);
      return Some(k);
    }

    /** copyService */
    method CopyService(src: SourceService, target: Key, ok: bool)
      modifies this
      ensures Now() == ServiceCopied(old(Now()), target, src, ok)
    {
      if !ok {
        errs := errs + 1;
        return;
      }
      var k := Key(target.ns, src.key.name);
      var base := if k in store.services then store.services[k] else Service(map[], "", "", [], None);
      var ports := UpsertPorts(ServicePorts, base.ports, ServiceWants(src.svc.ports));
      var s := Service(Overwrite(base.labels, src.svc.labels), "ClusterIP", base.clusterIP, ports, Some(target));
      store := store.(services := store.services[k := s]);
    }

    /** Reading the source Endpoints and copyEndpoints, which reads the target before it looks the
        ports up; panicked tells that some port name is missing on the Service, and then nothing was
        written. */
    method CopyEndpoints(src: SourceService, target: Key, read: bool, found: bool, ok: bool) returns (panicked: bool)
      modifies this
      ensures Now().(end := if panicked then MissingPort else Done) == EndpointsCopied(old(Now()), target, src, read, found, ok)
    {
      if src.key !in store.endpoints || !read {
        errs := errs + 1;
        return false;
      }
      var ep := store.endpoints[src.key];
      if !found {
        errs := errs + 1;
        return false;
      }
      var k := Key(target.ns, src.key.name);
      var base := if k in store.endpoints then store.endpoints[k] else Endpoints(map[], [], None);
      var subsets := CopySubsets(base.subsets, PortNames(ep.subsets), src.svc.clusterIP, src.svc.ports);
      if subsets.None? { return true; }
      if !ok {
        errs := errs + 1;
        return false;
      }
      var copy := Endpoints(Overwrite(base.labels, ep.labels), subsets.value, Some(target));
      store := store.(endpoints := store.endpoints[k := copy]);
      return false;
    }

    /** The loop over the source Services with a target at hand. */
    method CopyServices(services: seq<SourceService>, target: Key, n: nat, ok: Outcomes) returns (panicked: bool)
      modifies this
      ensures Now().(end := if panicked then MissingPort else Done)
           == ServicesAfter(old(Now()), target, services, n, ok, |services|)
    {
      for m := 0 to |services|
        invariant Now() == ServicesAfter(old(Now()), target, services, n, ok, m)
      {
        CopyService(services[m], target, ok(n, m, 0));
        panicked := CopyEndpoints(services[m], target, ok(n, m, 1), ok(n, m, 2), ok(n, m, 3));
        if panicked {
          StoppedStays(old(Now()), target, services, n, ok, m + 1);
          return;
        }
      }
      return false;
    }

    method CopySecrets(secrets: seq<(string, string)>, target: Key, n: nat, ok: Outcomes)
      modifies this
      ensures Now() == SecretsAfter(old(Now()), target, secrets, n, ok, |secrets|)
    {
      for m := 0 to |secrets|
        invariant Now() == SecretsAfter(old(Now()), target, secrets, n, ok, m)
      {
        if !ok(n, m, 4) {
          errs := errs + 1;
        } else {
          var secret := Secret(secrets[m].1, Some(target));
          store := store.(secrets := store.secrets[Key(target.ns, secrets[m].0) := secret]);
        }
      }
    }

    /** The branch of the fan-out loop for a project Prometheus; the nil target of a failed copy is
        used by the first Service or Secret. */
    method Federate(key: Key, src: Monitor, t: Turn, secrets: seq<(string, string)>, n: nat, ok: Outcomes) returns (end: End)
      modifies this
      ensures Now().(end := end) == ProjectTurn(old(Now()), key, src, t, secrets, n, ok)
    {
      var target := CopyServiceMonitor(key, src, t);
      if target.None? {
        return if |t.services| > 0 || |secrets| > 0 then NilTarget else Done;
      }
      var panicked := CopyServices(t.services, target.value, n, ok);
      if panicked { return MissingPort; }
      CopySecrets(secrets, target.value, n, ok);
      return Done;
    }

    /** The body of the fan-out loop. */
    method TakeTurn(key: Key, src: Monitor, t: Turn, secrets: seq<(string, string)>, n: nat, ok: Outcomes)
      returns (src': Monitor, end: End)
      modifies this
      ensures (Now().(end := end), src') == OneTurn(old(Now()), key, src, t, secrets, n, ok)
    {
      src' := src;
      if !t.isDefault && t.prom.ns == key.ns { return src, Refused; }
      if t.isDefault {
        src' := UpdateLabels(key, src, t);
        end := Done;
      } else {
        end := Federate(key, src, t, secrets, n, ok);
      }
    }

    /** The fan-out loop of Reconcile over the sorted Prometheuses. */
    method FanOut(key: Key, source: Monitor, turns: seq<Turn>, secrets: seq<(string, string)>, ok: Outcomes) returns (end: End)
      modifies this
      ensures Now().(end := end) == TurnsAfter(old(Now()), key, source, turns, secrets, ok, |turns|).0
    {
      var src := source;
      end := Done;
      for n := 0 to |turns|
        invariant end == Done && (Now(), src) == TurnsAfter(old(Now()), key, source, turns, secrets, ok, n)
      {
        src, end := TakeTurn(key, src, turns[n], secrets, n, ok);
        if end != Done {
          EndedStays(old(Now()), key, source, turns, secrets, ok, n + 1);
          return;
        }
      }
    }
  }

  lemma {:induction false} StoppedStays(p: Progress, target: Key, services: seq<SourceService>, n: nat, ok: Outcomes, m: nat)
    requires m <= |services| && ServicesAfter(p, target, services, n, ok, m).end != Done
    ensures ServicesAfter(p, target, services, n, ok, |services|) == ServicesAfter(p, target, services, n, ok, m)
    decreases |services| - m
  {
    if m < |services| { StoppedStays(p, target, services, n, ok, m + 1); }
  }

  lemma {:induction false} EndedStays(p: Progress, key: Key, source: Monitor, turns: seq<Turn>, secrets: seq<(string, string)>,
                                      ok: Outcomes, n: nat)
    requires n <= |turns| && TurnsAfter(p, key, source, turns, secrets, ok, n).0.end != Done
    ensures TurnsAfter(p, key, source, turns, secrets, ok, |turns|) == TurnsAfter(p, key, source, turns, secrets, ok, n)
    decreases |turns| - n
  {
    if n < |turns| { EndedStays(p, key, source, turns, secrets, ok, n + 1); }
  }

  // ---------------------------------------------------------------- errors are not isolated

  lemma ServiceKeeps(p: Progress, target: Key, src: SourceService, a: bool, b: bool, c: bool, d: bool)
    requires p.end == Done
    ensures var r := EndpointsCopied(ServiceCopied(p, target, src, a), target, src, b, c, d);
            && r.store.monitors == p.store.monitors && (r.end == Done || r.end == MissingPort)
            && SameOutside(p.store.endpoints, r.store.endpoints, target.ns)
            && (r.end == MissingPort <==> b && c && src.key in p.store.endpoints && !Copyable(src, p.store.endpoints[src.key]))
  {
  }

  lemma {:induction false} ServicesKeep(p: Progress, target: Key, services: seq<SourceService>, n: nat, ok: Outcomes, m: nat)
    requires m <= |services| && p.end == Done
    ensures var r := ServicesAfter(p, target, services, n, ok, m);
            && r.store.monitors == p.store.monitors && (r.end == Done || r.end == MissingPort)
            && SameOutside(p.store.endpoints, r.store.endpoints, target.ns)
            && (WellServed(p.store.endpoints, target.ns, services) ==> r.end == Done)
  {
    if m > 0 {
      ServicesKeep(p, target, services, n, ok, m - 1);
      var q, src := ServicesAfter(p, target, services, n, ok, m - 1), services[m - 1];
      assert src in services;
      if q.end == Done {
        ServiceKeeps(q, target, src, ok(n, m - 1, 0), ok(n, m - 1, 1), ok(n, m - 1, 2), ok(n, m - 1, 3));
      }
    }
  }

  lemma {:induction false} SecretsKeep(p: Progress, target: Key, secrets: seq<(string, string)>, n: nat, ok: Outcomes, m: nat)
    requires m <= |secrets|
    ensures var r := SecretsAfter(p, target, secrets, n, ok, m);
            r.store.monitors == p.store.monitors && r.store.endpoints == p.store.endpoints && r.end == p.end
  {
    if m > 0 { SecretsKeep(p, target, secrets, n, ok, m - 1); }
  }

  /** How the turn of a project Prometheus ends, and what it leaves alone. */
  lemma ProjectTurnEnds(p: Progress, key: Key, src: Monitor, t: Turn, secrets: seq<(string, string)>, n: nat, ok: Outcomes)
    requires !t.isDefault && p.end == Done
    ensures var r := ProjectTurn(p, key, src, t, secrets, n, ok);
            && r.end != Refused && (r.end == NilTarget <==> UsesMissingTarget(secrets, t))
            && r.store.monitors == (if CopyFails(t) then p.store.monitors else MonitorCopied(p, key, src, t).store.monitors)
            && SameOutside(p.store.endpoints, r.store.endpoints, t.prom.ns)
            && (WellServed(p.store.endpoints, t.prom.ns, t.services) ==> r.end != MissingPort)
  {
    if !CopyFails(t) {
      var target := Key(t.prom.ns, key.name);
      var q := MonitorCopied(p, key, src, t);
      ServicesKeep(q, target, t.services, n, ok, |t.services|);
      SecretsKeep(ServicesAfter(q, target, t.services, n, ok, |t.services|), target, secrets, n, ok, |secrets|);
    }
  }

  /** Outside the namespace nothing has changed. */
  ghost predicate SameOutside(a: map<Key, Endpoints>, b: map<Key, Endpoints>, ns: string) {
    forall k: Key :: k.ns != ns ==> (k in a <==> k in b) && (k in a ==> a[k] == b[k])
  }

  /** No Service lies in the namespace of a project Prometheus, and every named port of its
      Endpoints exists on it. */
  ghost predicate WellServed(endpoints: map<Key, Endpoints>, ns: string, services: seq<SourceService>) {
    forall i :: i in services ==> i.key.ns != ns && (i.key in endpoints ==> Copyable(i, endpoints[i.key]))
  }

  ghost predicate AllWellServed(endpoints: map<Key, Endpoints>, turns: seq<Turn>) {
    forall t, u :: t in turns && u in turns && !u.isDefault ==> WellServed(endpoints, u.prom.ns, t.services)
  }

  /** Copies in the namespace of one project Prometheus leave the source Endpoints alone. */
  lemma StillServed(a: map<Key, Endpoints>, b: map<Key, Endpoints>, turns: seq<Turn>, t: Turn)
    requires t in turns && !t.isDefault && SameOutside(a, b, t.prom.ns) && AllWellServed(a, turns)
    ensures AllWellServed(b, turns)
  {
    forall v, u | v in turns && u in turns && !u.isDefault ensures WellServed(b, u.prom.ns, v.services) {
      assert WellServed(a, u.prom.ns, v.services) && WellServed(a, t.prom.ns, v.services);
    }
  }

  /** Some turn up to the n-th uses the missing target of a failed copy, and none up to it ends the
      reconcile. */
  ghost predicate NilTargetUsed(key: Key, turns: seq<Turn>, secrets: seq<(string, string)>, n: nat)
    requires n <= |turns|
  {
    exists i :: 0 <= i < n && UsesMissingTarget(secrets, turns[i]) && forall m :: 0 <= m <= i ==> !Blocks(key, turns[m])
  }

  lemma {:induction false} NilTargetIff(p: Progress, key: Key, source: Monitor, turns: seq<Turn>, secrets: seq<(string, string)>, ok: Outcomes, n: nat)
    requires n <= |turns| && p.end == Done
    ensures var end := TurnsAfter(p, key, source, turns, secrets, ok, n).0.end;
            && (end != MissingPort ==> (end == NilTarget <==> NilTargetUsed(key, turns, secrets, n)))
            && (end == Refused ==> exists i :: 0 <= i < n && Blocks(key, turns[i]))
            && (end == Done ==> forall i :: 0 <= i < n ==> !Blocks(key, turns[i]))
  {
    if n > 0 {
      NilTargetIff(p, key, source, turns, secrets, ok, n - 1);
      var (q, src) := TurnsAfter(p, key, source, turns, secrets, ok, n - 1);
      if q.end == Done && !turns[n - 1].isDefault {
        ProjectTurnEnds(q, key, src, turns[n - 1], secrets, n - 1, ok);
      }
      NilTargetGrows(key, turns, secrets, n, q.end);
    }
  }

  lemma NilTargetGrows(key: Key, turns: seq<Turn>, secrets: seq<(string, string)>, n: nat, end: End)
    requires 0 < n <= |turns|
    ensures NilTargetUsed(key, turns, secrets, n) <==>
              NilTargetUsed(key, turns, secrets, n - 1)
              || (UsesMissingTarget(secrets, turns[n - 1]) && forall m :: 0 <= m < n ==> !Blocks(key, turns[m]))
  {
  }

  /** The copy of the m-th Service gets as far as looking up its ports, and one is missing. */
  predicate Misses(endpoints: map<Key, Endpoints>, src: SourceService, n: int, m: int, ok: Outcomes) {
    ok(n, m, 1) && ok(n, m, 2) && src.key in endpoints && !Copyable(src, endpoints[src.key])
  }

  /** The loop over the Services gets to the i-th one and panics there. */
  predicate MissesAt(p: Progress, target: Key, services: seq<SourceService>, n: nat, ok: Outcomes, i: nat)
    requires i < |services|
  {
    var q := ServicesAfter(p, target, services, n, ok, i);
    q.end == Done && Misses(q.store.endpoints, services[i], n, i, ok)
  }

  lemma {:induction false} ServicesMissIff(p: Progress, target: Key, services: seq<SourceService>, n: nat, ok: Outcomes, m: nat)
    requires m <= |services| && p.end == Done
    ensures ServicesAfter(p, target, services, n, ok, m).end == MissingPort
            <==> exists i :: 0 <= i < m && MissesAt(p, target, services, n, ok, i)
  {
    if m > 0 {
      ServicesMissIff(p, target, services, n, ok, m - 1);
      ServicesKeep(p, target, services, n, ok, m - 1);
      var q, src := ServicesAfter(p, target, services, n, ok, m - 1), services[m - 1];
      if q.end == Done {
        ServiceKeeps(q, target, src, ok(n, m - 1, 0), ok(n, m - 1, 1), ok(n, m - 1, 2), ok(n, m - 1, 3));
      }
      assert MissesAt(p, target, services, n, ok, m - 1) <==> q.end == Done && Misses(q.store.endpoints, src, n, m - 1, ok);
    }
  }

  /** The i-th turn is reached, copies, and panics at a Service. */
  ghost predicate TurnMisses(p: Progress, key: Key, source: Monitor, turns: seq<Turn>, secrets: seq<(string, string)>, ok: Outcomes, i: nat)
    requires i < |turns|
  {
    var (q, src) := TurnsAfter(p, key, source, turns, secrets, ok, i);
    var t := turns[i];
    && q.end == Done && !t.isDefault && !Blocks(key, t) && !CopyFails(t)
    && exists j :: 0 <= j < |t.services| && MissesAt(MonitorCopied(q, key, src, t), Key(t.prom.ns, key.name), t.services, i, ok, j)
  }

  lemma OneTurnMissesIff(q: Progress, key: Key, src: Monitor, t: Turn, secrets: seq<(string, string)>, n: nat, ok: Outcomes)
    requires q.end == Done
    ensures OneTurn(q, key, src, t, secrets, n, ok).0.end == MissingPort
            <==> && !t.isDefault && !Blocks(key, t) && !CopyFails(t)
                 && exists j :: 0 <= j < |t.services| && MissesAt(MonitorCopied(q, key, src, t), Key(t.prom.ns, key.name), t.services, n, ok, j)
  {
    if !t.isDefault && !CopyFails(t) {
      var target, c := Key(t.prom.ns, key.name), MonitorCopied(q, key, src, t);
      ServicesMissIff(c, target, t.services, n, ok, |t.services|);
      ServicesKeep(c, target, t.services, n, ok, |t.services|);
      SecretsKeep(ServicesAfter(c, target, t.services, n, ok, |t.services|), target, secrets, n, ok, |secrets|);
    }
  }

  ghost predicate PortMissed(p: Progress, key: Key, source: Monitor, turns: seq<Turn>, secrets: seq<(string, string)>, ok: Outcomes, n: nat)
    requires n <= |turns|
  {
    exists i :: 0 <= i < n && TurnMisses(p, key, source, turns, secrets, ok, i)
  }

  lemma {:induction false} MissingPortIff(p: Progress, key: Key, source: Monitor, turns: seq<Turn>, secrets: seq<(string, string)>, ok: Outcomes, n: nat)
    requires n <= |turns| && p.end == Done
    ensures TurnsAfter(p, key, source, turns, secrets, ok, n).0.end == MissingPort
            <==> PortMissed(p, key, source, turns, secrets, ok, n)
  {
    if n > 0 {
      MissingPortIff(p, key, source, turns, secrets, ok, n - 1);
      var (q, src) := TurnsAfter(p, key, source, turns, secrets, ok, n - 1);
      if q.end == Done { OneTurnMissesIff(q, key, src, turns[n - 1], secrets, n - 1, ok); }
      assert TurnMisses(p, key, source, turns, secrets, ok, n - 1)
             ==> TurnsAfter(p, key, source, turns, secrets, ok, n).0.end == MissingPort;
    }
  }

  /** The fan-out panics over a port if and only if a turn that is reached copies and finds one missing.
      It panics over a nil target if and only if no turn does so and some copy of the ServiceMonitor
      fails while there are Services or Secrets to copy, before a project Prometheus in the namespace
      of the source ends the reconcile. */
  lemma PanicsIff(p: Progress, key: Key, source: Monitor, turns: seq<Turn>, secrets: seq<(string, string)>, ok: Outcomes, n: nat)
    requires n <= |turns| && p.end == Done
    ensures var end := TurnsAfter(p, key, source, turns, secrets, ok, n).0.end;
            var missed := PortMissed(p, key, source, turns, secrets, ok, n);
            && (end == MissingPort <==> missed)
            && (end == NilTarget <==> !missed && NilTargetUsed(key, turns, secrets, n))
            && (end == Refused ==> exists i :: 0 <= i < n && Blocks(key, turns[i]))
            && (end == Done ==> forall i :: 0 <= i < n ==> !Blocks(key, turns[i]))
  {
    NilTargetIff(p, key, source, turns, secrets, ok, n);
    MissingPortIff(p, key, source, turns, secrets, ok, n);
  }

  /** No port name is found missing when no source Service lies in the namespace of a project
      Prometheus and all named Endpoints ports exist on their Services. */
  lemma {:induction false} WellServedIsSafe(p: Progress, key: Key, source: Monitor, turns: seq<Turn>, secrets: seq<(string, string)>,
                                            ok: Outcomes, n: nat)
    requires n <= |turns| && p.end == Done && AllWellServed(p.store.endpoints, turns)
    ensures var r := TurnsAfter(p, key, source, turns, secrets, ok, n).0;
            r.end != MissingPort && AllWellServed(r.store.endpoints, turns)
  {
    if n > 0 {
      WellServedIsSafe(p, key, source, turns, secrets, ok, n - 1);
      var (q, src) := TurnsAfter(p, key, source, turns, secrets, ok, n - 1);
      var t := turns[n - 1];
      assert t in turns;
      if q.end == Done && !Blocks(key, t) && !t.isDefault {
        ProjectTurnEnds(q, key, src, t, secrets, n - 1, ok);
        StillServed(q.store.endpoints, ProjectTurn(q, key, src, t, secrets, n - 1, ok).store.endpoints, turns, t);
      }
    }
  }

  /** With all Services well served, that is the only panic. */
  lemma WellServedPanicsIff(p: Progress, key: Key, source: Monitor, turns: seq<Turn>, secrets: seq<(string, string)>, ok: Outcomes)
    requires p.end == Done && AllWellServed(p.store.endpoints, turns)
    ensures var end := TurnsAfter(p, key, source, turns, secrets, ok, |turns|).0.end;
            end == NilTarget || end == MissingPort <==> NilTargetUsed(key, turns, secrets, |turns|)
  {
    WellServedIsSafe(p, key, source, turns, secrets, ok, |turns|);
    PanicsIff(p, key, source, turns, secrets, ok, |turns|);
  }

  // ---------------------------------------------------------------- how the fan-out ends, from its inputs

  /** No source Service lies in the namespace of a project Prometheus. */
  ghost predicate SourcesApart(turns: seq<Turn>) {
    forall t, u, i :: t in turns && u in turns && !u.isDefault && i in t.services ==> i.key.ns != u.prom.ns
  }

  /** How a turn ends that starts with these Endpoints. */
  ghost function TurnEnd(endpoints: map<Key, Endpoints>, key: Key, t: Turn, secrets: seq<(string, string)>, n: nat, ok: Outcomes): End {
    if Blocks(key, t) then Refused
    else if t.isDefault then Done
    else if CopyFails(t) then (if t.services != [] || secrets != [] then NilTarget else Done)
    else if exists j :: 0 <= j < |t.services| && Misses(endpoints, t.services[j], n, j, ok) then MissingPort
    else Done
  }

  lemma {:induction false} ApartServices(p: Progress, target: Key, services: seq<SourceService>, n: nat, ok: Outcomes, m: nat)
    requires m <= |services| && p.end == Done && forall i :: i in services ==> i.key.ns != target.ns
    ensures ServicesAfter(p, target, services, n, ok, m).end
            == if exists j :: 0 <= j < m && Misses(p.store.endpoints, services[j], n, j, ok) then MissingPort else Done
  {
    if m > 0 {
      ApartServices(p, target, services, n, ok, m - 1);
      ServicesKeep(p, target, services, n, ok, m - 1);
      var q, src := ServicesAfter(p, target, services, n, ok, m - 1), services[m - 1];
      assert src in services;
      if q.end == Done {
        ServiceKeeps(q, target, src, ok(n, m - 1, 0), ok(n, m - 1, 1), ok(n, m - 1, 2), ok(n, m - 1, 3));
        assert Misses(q.store.endpoints, src, n, m - 1, ok) <==> Misses(p.store.endpoints, src, n, m - 1, ok);
      }
    }
  }

  /** The source Endpoints are the same. */
  ghost predicate SameSources(a: map<Key, Endpoints>, b: map<Key, Endpoints>, turns: seq<Turn>) {
    forall t, i :: t in turns && i in t.services ==> Get(a, i.key) == Get(b, i.key)
  }

  lemma ApartTurn(q: Progress, key: Key, src: Monitor, turns: seq<Turn>, t: Turn, secrets: seq<(string, string)>, n: nat, ok: Outcomes)
    requires q.end == Done && t in turns && SourcesApart(turns)
    ensures var r := OneTurn(q, key, src, t, secrets, n, ok).0;
            r.end == TurnEnd(q.store.endpoints, key, t, secrets, n, ok) && SameSources(q.store.endpoints, r.store.endpoints, turns)
  {
    if !t.isDefault && !Blocks(key, t) {
      ProjectTurnEnds(q, key, src, t, secrets, n, ok);
      if !CopyFails(t) {
        var target, c := Key(t.prom.ns, key.name), MonitorCopied(q, key, src, t);
        ApartServices(c, target, t.services, n, ok, |t.services|);
        SecretsKeep(ServicesAfter(c, target, t.services, n, ok, |t.services|), target, secrets, n, ok, |secrets|);
      }
    }
  }

  lemma SameEnd(a: map<Key, Endpoints>, b: map<Key, Endpoints>, key: Key, turns: seq<Turn>, t: Turn, secrets: seq<(string, string)>, n: nat, ok: Outcomes)
    requires t in turns && SameSources(a, b, turns)
    ensures TurnEnd(a, key, t, secrets, n, ok) == TurnEnd(b, key, t, secrets, n, ok)
  {
    forall j | 0 <= j < |t.services| ensures Misses(a, t.services[j], n, j, ok) <==> Misses(b, t.services[j], n, j, ok) {
      assert Get(a, t.services[j].key) == Get(b, t.services[j].key);
    }
  }

  /** The first turn of the first n that does not end well, if any. */
  ghost function FirstEnd(endpoints: map<Key, Endpoints>, key: Key, turns: seq<Turn>, secrets: seq<(string, string)>, ok: Outcomes, n: nat): End
    requires n <= |turns|
  {
    if n == 0 then Done
    else
      var before := FirstEnd(endpoints, key, turns, secrets, ok, n - 1);
      if before != Done then before else TurnEnd(endpoints, key, turns[n - 1], secrets, n - 1, ok)
  }

  /** With the source Services apart from the project Prometheuses, how the fan-out ends can be told
      before it starts: it ends as the first turn that, over the Endpoints of the start, refuses or
      panics, and runs to its end without such a turn. */
  lemma {:induction false} FanOutEnds(p: Progress, key: Key, source: Monitor, turns: seq<Turn>, secrets: seq<(string, string)>, ok: Outcomes, n: nat)
    requires n <= |turns| && p.end == Done && SourcesApart(turns)
    ensures var r := TurnsAfter(p, key, source, turns, secrets, ok, n).0;
            r.end == FirstEnd(p.store.endpoints, key, turns, secrets, ok, n) && SameSources(p.store.endpoints, r.store.endpoints, turns)
  {
    if n > 0 {
      FanOutEnds(p, key, source, turns, secrets, ok, n - 1);
      var (q, src) := TurnsAfter(p, key, source, turns, secrets, ok, n - 1);
      if q.end == Done {
        ApartTurn(q, key, src, turns, turns[n - 1], secrets, n - 1, ok);
        SameEnd(p.store.endpoints, q.store.endpoints, key, turns, turns[n - 1], secrets, n - 1, ok);
      }
    }
  }

  // ---------------------------------------------------------------- what a copy is

  /** The spec of a copy is that of the source with the filter on every endpoint, whatever the
      target held; the label that makes a ServiceMonitor a source is gone; and copying again
      changes nothing. */
  lemma CopyIsDetermined(p: A.Prom, namespaces: seq<R.Namespace>, src: Monitor, cur: Option<Monitor>, other: Option<Monitor>)
    ensures var m := CopiedMonitor(p, namespaces, src, cur);
            var o := CopiedMonitor(p, namespaces, src, other);
            && m.endpoints == o.endpoints && m.rest == o.rest == src.rest
            && PrometheusLabel !in m.labels
            && CopiedMonitor(p, namespaces, src, Some(m)) == m
            && CopiedMonitor(p, namespaces, Monitor(src.labels, m.endpoints, m.rest, src.owner), Some(m)) == m
  {
    var m := CopiedMonitor(p, namespaces, src, cur);
    assert Overwrite(m.labels, LabelsFor(p.selector)) - {PrometheusLabel} == m.labels;
    forall i | 0 <= i < |src.endpoints| ensures R.Filtered(m.endpoints[i], KeepRule(namespaces)) == m.endpoints[i] {
      R.FilterOnce(src.endpoints[i], KeepRule(namespaces));
    }
    assert Filtered(m.endpoints, KeepRule(namespaces)) == m.endpoints;
  }

  /** A Service copied onto itself loses its type and every named target port. */
  lemma OwnCopyRenumbers(owner: Key, svc: Service, n: nat)
    requires UniqueNames(svc.ports) && n < |svc.ports|
    ensures var c := CopiedService(owner, svc, Some(svc));
            c.kind == "ClusterIP" && |c.ports| == |svc.ports|
            && c.ports[n] == svc.ports[n].(target := Number(svc.ports[n].number))
  {
    var xs := ServiceWants(svc.ports);
    var r := UpsertAll(ServicePorts, svc.ports, xs);
    FoldOverrides(ServicePorts, svc.ports, xs);
    forall i | 0 <= i < |svc.ports| ensures Last(xs, svc.ports[i].name) == Some(svc.ports[i].number) {
      LastOfService(svc.ports, svc.ports[i].name);
      PortForNameFrom(svc.ports, svc.ports[i].name, i);
    }
    if |r| > |svc.ports| {
      assert AddedAt(ServicePorts, svc.ports, xs, r, |svc.ports|);
      LastIsMember(xs, r[|svc.ports|].name);
      assert false;
    }
    assert KeptAt(ServicePorts, svc.ports, xs, r, n);
  }

  /** The loop over the Services gets to the i-th one and its write succeeds. */
  predicate Writes(p: Progress, target: Key, services: seq<SourceService>, n: nat, ok: Outcomes, i: nat)
    requires i < |services|
  {
    ServicesAfter(p, target, services, n, ok, i).end == Done && ok(n, i, 0)
  }

  /** The only source Service of its name, stored in the namespace that copies go to. */
  predicate LiesInTarget(p: Progress, ns: string, services: seq<SourceService>, i: nat)
    requires i < |services|
  {
    var src := services[i];
    && src.key.ns == ns && src.key in p.store.services && p.store.services[src.key] == src.svc
    && forall j :: 0 <= j < |services| && j != i ==> services[j].key.name != src.key.name
  }

  lemma {:induction false} OwnServiceAfter(p: Progress, target: Key, services: seq<SourceService>, n: nat, ok: Outcomes, m: nat, i: nat)
    requires m <= |services| && i < |services| && p.end == Done && LiesInTarget(p, target.ns, services, i)
    ensures var src := services[i];
            Get(ServicesAfter(p, target, services, n, ok, m).store.services, src.key)
            == Some(if i < m && Writes(p, target, services, n, ok, i)
                    then CopiedService(target, src.svc, Some(src.svc)) else src.svc)
  {
    if m > 0 { OwnServiceAfter(p, target, services, n, ok, m - 1, i); }
  }

  lemma {:induction false} SecretsKeepServices(p: Progress, target: Key, secrets: seq<(string, string)>, n: nat, ok: Outcomes, m: nat)
    requires m <= |secrets|
    ensures SecretsAfter(p, target, secrets, n, ok, m).store.services == p.store.services
  {
    if m > 0 { SecretsKeepServices(p, target, secrets, n, ok, m - 1); }
  }

  /** Services are not guarded like the ServiceMonitor: a source Service in the namespace of a
      project Prometheus is its own target. The turn leaves it as it is if and only if its write is
      not reached or fails; else it has the type, the owner and the port targets of a copy. */
  lemma ServiceOverwritesItself(p: Progress, key: Key, src: Monitor, t: Turn, secrets: seq<(string, string)>,
                                turn: nat, ok: Outcomes, i: nat, n: nat)
    requires p.end == Done && !t.isDefault && !CopyFails(t) && i < |t.services|
    requires LiesInTarget(p, t.prom.ns, t.services, i)
    requires var svc := t.services[i].svc;
             UniqueNames(svc.ports) && n < |svc.ports| && svc.owner != Some(Key(t.prom.ns, key.name))
    ensures var target, svc := Key(t.prom.ns, key.name), t.services[i].svc;
            var services := ProjectTurn(p, key, src, t, secrets, turn, ok).store.services;
            var written := Writes(MonitorCopied(p, key, src, t), target, t.services, turn, ok, i);
            && t.services[i].key in services
            && var now := services[t.services[i].key];
               && (now == svc <==> !written)
               && (written ==> now.kind == "ClusterIP" && now.owner == Some(target) && |now.ports| == |svc.ports|
                               && now.ports[n] == svc.ports[n].(target := Number(svc.ports[n].number)))
  {
    var target, q := Key(t.prom.ns, key.name), MonitorCopied(p, key, src, t);
    OwnServiceAfter(q, target, t.services, turn, ok, |t.services|, i);
    OwnCopyRenumbers(target, t.services[i].svc, n);
    SecretsKeepServices(ServicesAfter(q, target, t.services, turn, ok, |t.services|), target, secrets, turn, ok, |secrets|);
  }

  // ---------------------------------------------------------------- all runs

  /** A version of a ServiceMonitor. */
  datatype Item = Item(key: Key, mon: Monitor)

  /** past: every version ever stored; derived: those a copy step wrote or that were made by
      changing such a version; live: the keys that store one; acted: the versions that either
      ServiceMonitor controller has acted on. */
  datatype State = State(monitors: map<Key, Monitor>, past: set<Item>, derived: set<Item>, live: set<Key>, acted: set<Item>)

  datatype Step =
    | CopyStep(src: Item, prom: A.Prom, namespaces: seq<R.Namespace>)
    | LabelStep(src: Item, prom: A.Prom)
    | Edit(key: Key, mon: Monitor)
    | Remove(key: Key)

  predicate Labeled(m: Monitor) {
    PrometheusLabel in m.labels
  }

  function Put(s: State, k: Key, m: Monitor, derived: bool): State {
    var v := {Item(k, m)};
    s.(monitors := s.monitors[k := m], past := s.past + v,
       derived := if derived then s.derived + v else s.derived,
       live := if derived then s.live + {k} else s.live)
  }

  /** A controller acts on a version its cache returns, however old, if that one is labelled. */
  function Apply(s: State, step: Step): State {
    match step
    case CopyStep(i, p, namespaces) =>
      if i !in s.past || !Labeled(i.mon) || i.mon.labels[PrometheusLabel] != FEDERATED || p.ns == i.key.ns then s
      else
        var k := Key(p.ns, i.key.name);
        var cur := if k in s.monitors then Some(s.monitors[k]) else None;
        Put(s, k, CopiedMonitor(p, namespaces, i.mon, cur), true).(acted := s.acted + {i})
    case LabelStep(i, p) =>
      if i !in s.past || !Labeled(i.mon) then s
      else
        var cur := if i.key in s.monitors then s.monitors[i.key] else i.mon;
        Put(s, i.key, Labelled(cur, p), i.key in s.live).(acted := s.acted + {i})
    case Edit(k, m) => Put(s, k, m, k in s.live)
    case Remove(k) => s.(monitors := s.monitors - {k}, live := s.live - {k})
  }

  function Run(s: State, steps: seq<Step>): State {
    if steps == [] then s else Apply(Run(s, steps[..|steps| - 1]), steps[|steps| - 1])
  }

  /** Nobody else puts the label on a copy: no user, and no selector by way of a controller that
      still sees an older version under the key of a copy. */
  ghost predicate LeavesCopies(s: State, step: Step) {
    match step
    case Edit(k, m) => k in s.live ==> !Labeled(m)
    case LabelStep(i, p) => i.key in s.live ==> PrometheusLabel !in LabelsFor(p.selector)
    case _ => true
  }

  ghost predicate AllLeaveCopies(s: State, steps: seq<Step>) {
    steps == [] ||
    (AllLeaveCopies(s, steps[..|steps| - 1]) && LeavesCopies(Run(s, steps[..|steps| - 1]), steps[|steps| - 1]))
  }

  ghost predicate Inv(s: State) {
    && (forall d :: d in s.derived ==> !Labeled(d.mon))
    && (forall k :: k in s.live && k in s.monitors ==> !Labeled(s.monitors[k]))
    && (forall i :: i in s.acted ==> Labeled(i.mon))
    && (forall k :: k in s.live ==> k in s.monitors)
  }

  lemma StepKeeps(s: State, step: Step)
    requires Inv(s) && LeavesCopies(s, step)
    ensures Inv(Apply(s, step))
  {
  }

  lemma {:induction false} RunKeeps(s: State, steps: seq<Step>)
    requires Inv(s) && AllLeaveCopies(s, steps)
    ensures Inv(Run(s, steps))
  {
    if steps != [] {
      RunKeeps(s, steps[..|steps| - 1]);
      StepKeeps(Run(s, steps[..|steps| - 1]), steps[|steps| - 1]);
    }
  }

  /** Copies never cascade: over any run, with any Prometheuses and however stale the caches,
      neither ServiceMonitor controller ever acts on a version that a copy step wrote or that came
      from one, the copies that an earlier process left at the start among them. */
  lemma CopiesNeverCascade(s: State, steps: seq<Step>, i: Item)
    requires Inv(s) && AllLeaveCopies(s, steps)
    requires i in Run(s, steps).acted
    ensures i !in Run(s, steps).derived
  {
    RunKeeps(s, steps);
  }

  /** No copy step writes the object it copies, in the whole fan-out: the source changes at most
      its labels, by the turn of the default Prometheus. */
  lemma {:induction false} SourceIsNotOverwritten(p: Progress, key: Key, src: Monitor, turns: seq<Turn>, secrets: seq<(string, string)>,
                                                  ok: Outcomes, n: nat)
    requires n <= |turns| && p.end == Done && key in p.store.monitors && p.store.monitors[key] == src
    ensures var (r, m) := TurnsAfter(p, key, src, turns, secrets, ok, n);
            && key in r.store.monitors && r.store.monitors[key] == m
            && m.endpoints == src.endpoints && m.rest == src.rest && m.owner == src.owner
  {
    if n > 0 {
      SourceIsNotOverwritten(p, key, src, turns, secrets, ok, n - 1);
      var (q, m) := TurnsAfter(p, key, src, turns, secrets, ok, n - 1);
      if q.end == Done && !turns[n - 1].isDefault && !Blocks(key, turns[n - 1]) {
        ProjectTurnEnds(q, key, m, turns[n - 1], secrets, n - 1, ok);
      }
    }
  }

  /** The turn i is reached and copies the ServiceMonitor onto the key k. */
  predicate CopiesOnto(p: Progress, key: Key, src: Monitor, turns: seq<Turn>, secrets: seq<(string, string)>, ok: Outcomes, i: nat, k: Key)
    requires i < |turns|
  {
    var t := turns[i];
    && TurnsAfter(p, key, src, turns, secrets, ok, i).0.end == Done
    && !t.isDefault && !Blocks(key, t) && !CopyFails(t) && k == Key(t.prom.ns, key.name)
  }

  /** It may well overwrite another source, and then in full: another ServiceMonitor that carries
      the label stops being a source in a fan-out if and only if it has the name of the source and
      lies in the namespace of a Prometheus whose turn copies. */
  lemma {:induction false} CopyOverwritesAnotherSource(
      p: Progress, key: Key, src: Monitor, turns: seq<Turn>, secrets: seq<(string, string)>, ok: Outcomes, n: nat, k: Key)
    requires n <= |turns| && p.end == Done && key in p.store.monitors && p.store.monitors[key] == src
    requires k in p.store.monitors && Labeled(p.store.monitors[k])
    ensures var monitors := TurnsAfter(p, key, src, turns, secrets, ok, n).0.store.monitors;
            && k in monitors
            && (!Labeled(monitors[k]) <==> exists i :: 0 <= i < n && CopiesOnto(p, key, src, turns, secrets, ok, i, k))
            && (!Labeled(monitors[k]) ==> k != key && monitors[k].rest == src.rest)
  {
    if n > 0 {
      CopyOverwritesAnotherSource(p, key, src, turns, secrets, ok, n - 1, k);
      var (q, m) := TurnsAfter(p, key, src, turns, secrets, ok, n - 1);
      var t := turns[n - 1];
      if q.end == Done {
        SourceIsNotOverwritten(p, key, src, turns, secrets, ok, n - 1);
        TurnUnlabels(q, key, m, t, secrets, n - 1, ok, k);
      }
      assert CopiesOnto(p, key, src, turns, secrets, ok, n - 1, k)
             <==> q.end == Done && !t.isDefault && !Blocks(key, t) && !CopyFails(t) && k == Key(t.prom.ns, key.name);
    }
  }

  lemma TurnUnlabels(p: Progress, key: Key, src: Monitor, t: Turn, secrets: seq<(string, string)>, n: nat, ok: Outcomes, k: Key)
    requires p.end == Done && key in p.store.monitors && p.store.monitors[key] == src && k in p.store.monitors
    ensures var monitors := OneTurn(p, key, src, t, secrets, n, ok).0.store.monitors;
            var onto := !t.isDefault && !Blocks(key, t) && !CopyFails(t) && k == Key(t.prom.ns, key.name);
            && k in monitors
            && (onto ==> k != key && !Labeled(monitors[k]) && monitors[k].rest == src.rest)
            && (!onto && k != key ==> monitors[k] == p.store.monitors[k])
            && (!onto && k == key && Labeled(src) ==> Labeled(monitors[k]))
  {
    if !t.isDefault && !Blocks(key, t) { ProjectTurnEnds(p, key, src, t, secrets, n, ok); }
  }

  /** The step takes the label from the ServiceMonitor stored under the key k. */
  ghost predicate Unlabels(s: State, step: Step, k: Key) {
    && k in s.monitors && Labeled(s.monitors[k])
    && (k !in Apply(s, step).monitors || !Labeled(Apply(s, step).monitors[k]))
  }

  /** A copy step acts, and its target is the key k. */
  predicate ActsOn(s: State, step: Step, k: Key) {
    && step.CopyStep? && step.src in s.past && Labeled(step.src.mon) && step.src.mon.labels[PrometheusLabel] == FEDERATED
    && step.prom.ns != step.src.key.ns && k == Key(step.prom.ns, step.src.key.name)
  }

  /** So it is in the runs: a step unlabels a stored source exactly when it is a copy step whose
      target key holds it, or a user takes the label or the object away. */
  lemma UnlabelsIff(s: State, step: Step, k: Key)
    requires k in s.monitors && Labeled(s.monitors[k])
    ensures Unlabels(s, step, k) <==> ActsOn(s, step, k) || step == Remove(k) || (step.Edit? && step.key == k && !Labeled(step.mon))
  {
  }

  /** A source that some run leaves unlabelled or missing was lost in one of these ways, at a step
      where it still was a source. */
  lemma {:induction false} SourceIsLostBy(s: State, steps: seq<Step>, k: Key) returns (n: nat)
    requires k in s.monitors && Labeled(s.monitors[k])
    requires k in Run(s, steps).monitors ==> !Labeled(Run(s, steps).monitors[k])
    ensures n < |steps| && Unlabels(Run(s, steps[..n]), steps[n], k)
    ensures ActsOn(Run(s, steps[..n]), steps[n], k) || steps[n] == Remove(k)
            || (steps[n].Edit? && steps[n].key == k && !Labeled(steps[n].mon))
  {
    n := |steps| - 1;
    var before := Run(s, steps[..n]);
    if k in before.monitors && Labeled(before.monitors[k]) {
      UnlabelsIff(before, steps[n], k);
    } else {
      n := SourceIsLostBy(s, steps[..n], k);
      assert steps[..|steps| - 1][..n] == steps[..n];
    }
  }
}
