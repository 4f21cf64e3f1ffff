/** What a reached turn of the federation leaves in the namespace of its Prometheus. */
module FederationContents {
  import opened Kube
  import opened Federation
  import opened LabelSelectors
  import opened PortUpserts
  import R = RelabelFilter
  import A = AutoBinding

  // ---------------------------------------------------------------- the ServiceMonitor

  /** A series of this namespace is for a Prometheus that is shown these namespaces. */
  ghost predicate Shown(namespaces: seq<R.Namespace>, ns: string) {
    ns == "" || exists n :: n in namespaces && n.name == ns && n.name != "cattle-project-" + n.project
  }

  /** The endpoint passes what that of the source passes, of the namespaces shown. */
  ghost predicate FilteredCopy(engine: (R.Rule, R.Labels) -> Option<R.Labels>, namespaces: seq<R.Namespace>,
                               src: R.Endpoint, copy: R.Endpoint, l: R.Labels) {
    && copy.honorLabels && copy.rest == src.rest
    && R.Pipeline(engine, copy.rules, l)
       == if Shown(namespaces, R.Value(l, "namespace")) then R.Pipeline(engine, src.rules, l) else None
  }

  /** The n-th turn is reached and copies the ServiceMonitor. */
  ghost predicate Copies(p: Progress, key: Key, source: Monitor, turns: seq<Turn>, secrets: seq<(string, string)>, ok: Outcomes, n: nat)
    requires n < |turns|
  {
    && p.end == Done && key in p.store.monitors && p.store.monitors[key] == source
    && TurnsAfter(p, key, source, turns, secrets, ok, n).0.end == Done
    && !turns[n].isDefault && turns[n].prom.ns != key.ns && turns[n].namespaces.Some? && turns[n].copied
  }

  /** The source as the n-th turn holds it has the endpoints and the rest it started with. */
  lemma CopiedFrom(p: Progress, key: Key, source: Monitor, turns: seq<Turn>, secrets: seq<(string, string)>, ok: Outcomes, n: nat)
    returns (q: Progress, src: Monitor)
    requires n < |turns| && Copies(p, key, source, turns, secrets, ok, n)
    ensures q == TurnsAfter(p, key, source, turns, secrets, ok, n).0
    ensures src.endpoints == source.endpoints && src.rest == source.rest && !CopyFails(turns[n])
    ensures TurnsAfter(p, key, source, turns, secrets, ok, n + 1).0.store.monitors == MonitorCopied(q, key, src, turns[n]).store.monitors
  {
    SourceIsNotOverwritten(p, key, source, turns, secrets, ok, n);
    q, src := TurnsAfter(p, key, source, turns, secrets, ok, n).0, TurnsAfter(p, key, source, turns, secrets, ok, n).1;
    ProjectTurnEnds(q, key, src, turns[n], secrets, n, ok);
  }

  lemma EndpointsAreFiltered(engine: (R.Rule, R.Labels) -> Option<R.Labels>, prom: A.Prom, namespaces: seq<R.Namespace>,
                             src: Monitor, cur: Option<Monitor>, l: R.Labels)
    requires forall x :: x in namespaces ==> R.IsLabel(x.name)
    ensures var m := CopiedMonitor(prom, namespaces, src, cur);
            && |m.endpoints| == |src.endpoints|
            && forall i :: 0 <= i < |src.endpoints| ==> FilteredCopy(engine, namespaces, src.endpoints[i], m.endpoints[i], l)
  {
    var m := CopiedMonitor(prom, namespaces, src, cur);
    forall i | 0 <= i < |src.endpoints| ensures FilteredCopy(engine, namespaces, src.endpoints[i], m.endpoints[i], l) {
      R.FilterIsExact(engine, namespaces, src.endpoints[i], l);
    }
  }

  /** After a reached turn the ServiceMonitor stored for the Prometheus has the endpoints of the source,
      in number and order, each with the labels honoured and passing of the series that the one of the
      source passes exactly those of the namespaces shown to the Prometheus; it has the rest of the spec,
      is owned by the Prometheus and does not carry the selector label. */
  lemma CopyIsFiltered(engine: (R.Rule, R.Labels) -> Option<R.Labels>, p: Progress, key: Key, source: Monitor, turns: seq<Turn>,
                       secrets: seq<(string, string)>, ok: Outcomes, n: nat, l: R.Labels)
    requires n < |turns| && Copies(p, key, source, turns, secrets, ok, n)
    requires forall x :: x in turns[n].namespaces.value ==> R.IsLabel(x.name)
    ensures var t, monitors := turns[n], TurnsAfter(p, key, source, turns, secrets, ok, n + 1).0.store.monitors;
            var k := Key(t.prom.ns, key.name);
            && k in monitors && |monitors[k].endpoints| == |source.endpoints| && monitors[k].rest == source.rest
            && (forall i :: 0 <= i < |source.endpoints| ==>
                  FilteredCopy(engine, t.namespaces.value, source.endpoints[i], monitors[k].endpoints[i], l))
            && monitors[k].owner == Some(Key(t.prom.ns, t.prom.name)) && PrometheusLabel !in monitors[k].labels
  {
    var q, src := CopiedFrom(p, key, source, turns, secrets, ok, n);
    var t := turns[n];
    EndpointsAreFiltered(engine, t.prom, t.namespaces.value, src, Get(q.store.monitors, Key(t.prom.ns, key.name)), l);
  }

  /** The selector says nothing about the label that makes a ServiceMonitor a source. */
  predicate Neutral(s: Selector) {
    PrometheusLabel !in s.matchLabels && forall e :: e in s.exprs ==> e.key != PrometheusLabel
  }

  lemma {:induction false} DerivedKeys(exprs: seq<Expr>, l: LabelSelectors.Labels, k: Label)
    requires k !in l && forall e :: e in exprs ==> e.key != k
    ensures k !in ApplyExprs(exprs, l)
  {
    if exprs != [] { DerivedKeys(exprs[..|exprs| - 1], l, k); }
  }

  /** Which labels it has: with a valid selector that constrains every key once and not the removed
      label, the copy is selected exactly when each expression can be satisfied over the labels that
      were stored there before; labels that the selector does not mention stay. */
  lemma CopyIsSelected(p: Progress, key: Key, source: Monitor, turns: seq<Turn>, secrets: seq<(string, string)>, ok: Outcomes,
                       n: nat, s: Selector)
    requires n < |turns| && Copies(p, key, source, turns, secrets, ok, n)
    requires turns[n].prom.selector == Some(s) && ValidSelector(Some(s)) && DistinctKeys(s) && Neutral(s)
    ensures var k := Key(turns[n].prom.ns, key.name);
            var before := TurnsAfter(p, key, source, turns, secrets, ok, n).0.store.monitors;
            var after := TurnsAfter(p, key, source, turns, secrets, ok, n + 1).0.store.monitors;
            var labels := if k in before then before[k].labels else map[];
            && k in after
            && (Matches(Some(s), after[k].labels) <==> forall e :: e in s.exprs ==> Satisfiable(e, labels))
            && (forall a :: a != PrometheusLabel && a !in s.matchLabels && (forall e :: e in s.exprs ==> e.key != a)
                  ==> (a in after[k].labels <==> a in labels) && (a in labels ==> after[k].labels[a] == labels[a]))
  {
    var q, src := CopiedFrom(p, key, source, turns, secrets, ok, n);
    var k := Key(turns[n].prom.ns, key.name);
    var labels := if k in q.store.monitors then q.store.monitors[k].labels else map[];
    PatchedMatchesIff(s, labels);
    Unlabelled(s, Overwrite(labels, LabelsFor(Some(s))));
    forall a | a !in s.matchLabels && (forall e :: e in s.exprs ==> e.key != a) ensures a !in LabelsFor(Some(s)) {
      DerivedKeys(s.exprs, s.matchLabels, a);
    }
  }

  /** A selector that does not mention the label does not see it go. */
  lemma Unlabelled(s: Selector, l: LabelSelectors.Labels)
    requires Neutral(s)
    ensures Matches(Some(s), l - {PrometheusLabel}) <==> Matches(Some(s), l)
  {
    var l' := l - {PrometheusLabel};
    forall e | e in s.exprs ensures MatchesExpr(e, l') <==> MatchesExpr(e, l) {
    }
    assert forall k :: k in s.matchLabels ==> (k in l' <==> k in l);
  }

  // ---------------------------------------------------------------- Services, Endpoints, Secrets

  /** No call of the n-th turn fails. */
  ghost predicate AllSucceed(ok: Outcomes, n: int) {
    forall m: int, i: int :: ok(n, m, i)
  }

  /** The sources have names of their own, and none lies in the namespace that copies go to. */
  predicate SourcesDistinct(ns: string, services: seq<SourceService>) {
    && (forall i, j :: 0 <= i < j < |services| ==> services[i].key.name != services[j].key.name)
    && (forall i :: 0 <= i < |services| ==> services[i].key.ns != ns)
  }

  /** What one Service changes. */
  lemma OneService(q: Progress, target: Key, src: SourceService, k: Key)
    requires q.end == Done
    ensures var r := EndpointsCopied(ServiceCopied(q, target, src, true), target, src, true, true, true);
            var own := k == Key(target.ns, src.key.name);
            && Get(r.store.services, k) == (if own then Some(CopiedService(target, src.svc, Get(q.store.services, k)))
                                            else Get(q.store.services, k))
            && (!own || src.key !in q.store.endpoints ==> Get(r.store.endpoints, k) == Get(q.store.endpoints, k))
            && (r.end == Done && own && src.key in q.store.endpoints ==>
                  Copyable(src, q.store.endpoints[src.key])
                  && Get(r.store.endpoints, k)
                     == Some(CopiedEndpoints(target, src, q.store.endpoints[src.key], Get(q.store.endpoints, k))))
  {
  }

  /** The i-th Service has been copied, with its Endpoints if it has any, or is still to come. */
  ghost predicate StoredBy(p: Progress, target: Key, src: SourceService, copied: bool, r: Progress) {
    var k := Key(target.ns, src.key.name);
    && Get(r.store.services, k) == (if copied then Some(CopiedService(target, src.svc, Get(p.store.services, k)))
                                    else Get(p.store.services, k))
    && (if copied && src.key in p.store.endpoints
        then Copyable(src, p.store.endpoints[src.key])
             && Get(r.store.endpoints, k) == Some(CopiedEndpoints(target, src, p.store.endpoints[src.key], Get(p.store.endpoints, k)))
        else Get(r.store.endpoints, k) == Get(p.store.endpoints, k))
  }

  /** q and r: before and after another Service, or the i-th one itself, is copied. */
  lemma StoredNext(p: Progress, target: Key, src: SourceService, copied: bool, q: Progress, other: SourceService)
    requires StoredBy(p, target, src, copied, q) && q.end == Done && Get(q.store.endpoints, src.key) == Get(p.store.endpoints, src.key)
    requires if copied then other.key.name != src.key.name else other == src || other.key.name != src.key.name
    requires EndpointsCopied(ServiceCopied(q, target, other, true), target, other, true, true, true).end == Done
    ensures StoredBy(p, target, src, copied || other == src,
                     EndpointsCopied(ServiceCopied(q, target, other, true), target, other, true, true, true))
  {
    OneService(q, target, other, Key(target.ns, src.key.name));
  }

  lemma SourceKept(p: Progress, target: Key, services: seq<SourceService>, n: nat, ok: Outcomes, m: nat, k: Key)
    requires m <= |services| && p.end == Done && k.ns != target.ns
    ensures Get(ServicesAfter(p, target, services, n, ok, m).store.endpoints, k) == Get(p.store.endpoints, k)
  {
    ServicesKeep(p, target, services, n, ok, m);
  }

  lemma {:induction false} ServiceStored(p: Progress, target: Key, services: seq<SourceService>, n: nat, ok: Outcomes, m: nat, i: nat)
    requires m <= |services| && i < |services| && p.end == Done && AllSucceed(ok, n) && SourcesDistinct(target.ns, services)
    requires ServicesAfter(p, target, services, n, ok, m).end == Done
    ensures StoredBy(p, target, services[i], i < m, ServicesAfter(p, target, services, n, ok, m))
  {
    if m > 0 {
      var q, other := ServicesAfter(p, target, services, n, ok, m - 1), services[m - 1];
      ServiceStored(p, target, services, n, ok, m - 1, i);
      SourceKept(p, target, services, n, ok, m - 1, services[i].key);
      assert ServicesAfter(p, target, services, n, ok, m)
          == EndpointsCopied(ServiceCopied(q, target, other, true), target, other, true, true, true);
      StoredNext(p, target, services[i], i < m - 1, q, other);
    }
  }

  lemma {:induction false} SecretStored(p: Progress, target: Key, secrets: seq<(string, string)>, n: nat, ok: Outcomes, m: nat, i: nat)
    requires m <= |secrets| && i < m && AllSucceed(ok, n)
    requires forall a, b :: 0 <= a < b < |secrets| ==> secrets[a].0 != secrets[b].0
    ensures Get(SecretsAfter(p, target, secrets, n, ok, m).store.secrets, Key(target.ns, secrets[i].0))
            == Some(Secret(secrets[i].1, Some(target)))
  {
    if i < m - 1 { SecretStored(p, target, secrets, n, ok, m - 1, i); }
  }

  /** What the copy of a Service is, given what was stored under its key. */
  ghost predicate ServiceCopyOf(target: Key, src: Service, before: Option<Service>, s: Service) {
    && s.kind == "ClusterIP" && s.owner == Some(target) && s.clusterIP == (if before.Some? then before.value.clusterIP else "")
    && (forall a :: a in src.labels ==> a in s.labels && s.labels[a] == src.labels[a])
    && (forall a :: a !in src.labels ==> (a in s.labels <==> before.Some? && a in before.value.labels))
    && (forall a :: a !in src.labels && a in s.labels ==> s.labels[a] == before.value.labels[a])
    && (forall i :: 0 <= i < |src.ports| ==> IsForwarded(s.ports, src.ports[i]))
  }

  predicate IsForwarded(ports: seq<Port>, src: Port) {
    exists j :: 0 <= j < |ports| && Forwards(ports[j], src)
  }

  /** The port has the name and the number of the source port and leads to that number. */
  predicate Forwards(p: Port, src: Port) {
    p.name == src.name && p.number == src.number && p.target == Number(src.number)
  }

  lemma ServiceIsCopied(target: Key, src: Service, before: Option<Service>)
    requires UniqueNames(src.ports)
    ensures ServiceCopyOf(target, src, before, CopiedService(target, src, before))
  {
    var had := if before.Some? then before.value.ports else [];
    var s := CopiedService(target, src, before);
    forall i | 0 <= i < |src.ports| ensures IsForwarded(s.ports, src.ports[i]) {
      var j := PortIsFolded(had, src.ports, i);
    }
  }

  lemma PortIsFolded(had: seq<Port>, src: seq<Port>, i: nat) returns (j: nat)
    requires UniqueNames(src) && i < |src|
    ensures var r := UpsertAll(ServicePorts, had, ServiceWants(src));
            j < |r| && Forwards(r[j], src[i])
  {
    var xs := ServiceWants(src);
    var r := UpsertAll(ServicePorts, had, xs);
    LastOfService(src, src[i].name);
    PortForNameFrom(src, src[i].name, i);
    FoldOverrides(ServicePorts, had, xs);
    assert xs[i] in xs && HasName(r, src[i].name);
    var k :| 0 <= k < |r| && r[k].name == src[i].name;
    j := FirstOf(r, k);
    if j < |had| {
      KeepsNames(ServicePorts, had, xs, r, j);
      assert KeptAt(ServicePorts, had, xs, r, j);
    } else {
      assert AddedAt(ServicePorts, had, xs, r, j);
    }
  }

  /** The copy of Endpoints leads, subset by subset, to the cluster IP of the Service, under every port
      name of the source with the number of the Service's port. */
  ghost predicate EndpointsCopyOf(target: Key, src: SourceService, ep: Endpoints, e: Endpoints) {
    && e.owner == Some(target) && |e.subsets| >= |ep.subsets|
    && (forall a :: a in ep.labels ==> a in e.labels && e.labels[a] == ep.labels[a])
    && (forall i :: 0 <= i < |ep.subsets| ==> e.subsets[i].addresses == [src.svc.clusterIP])
    && (forall i, j, k :: 0 <= i < |ep.subsets| && 0 <= j < |ep.subsets[i].ports| && 0 <= k < |src.svc.ports|
                          && src.svc.ports[k].name == ep.subsets[i].ports[j].name
                          ==> Listens(e.subsets[i].ports, src.svc.ports[k].name, src.svc.ports[k].number))
  }

  lemma EndpointsAreCopied(target: Key, src: SourceService, ep: Endpoints, before: Option<Endpoints>)
    requires Copyable(src, ep) && UniqueNames(src.svc.ports)
    ensures EndpointsCopyOf(target, src, ep, CopiedEndpoints(target, src, ep, before))
  {
    var e := CopiedEndpoints(target, src, ep, before);
    var had := if before.Some? then before.value.subsets else [];
    forall i, j, k | 0 <= i < |ep.subsets| && 0 <= j < |ep.subsets[i].ports| && 0 <= k < |src.svc.ports|
                     && src.svc.ports[k].name == ep.subsets[i].ports[j].name
      ensures Listens(e.subsets[i].ports, src.svc.ports[k].name, src.svc.ports[k].number)
    {
      var names := PortNames(ep.subsets)[i];
      assert names[j] == src.svc.ports[k].name && names in PortNames(ep.subsets);
      LastOfWants(names, src.svc.ports, names[j]);
      PortForNameFrom(src.svc.ports, names[j], k);
      ListensTo(EndpointPorts, OldSubset(had, i).ports, Wants(names, src.svc.ports), names[j]);
    }
  }

  /** After a turn without a failing call that does not panic, every source Service, its Endpoints if it
      has any, and every Secret have their copies in the namespace of the Prometheus. */
  lemma TurnCopiesAll(p: Progress, key: Key, src: Monitor, t: Turn, secrets: seq<(string, string)>, n: nat, ok: Outcomes, i: nat, j: nat)
    requires p.end == Done && !t.isDefault && t.namespaces.Some? && t.copied && AllSucceed(ok, n)
    requires SourcesDistinct(t.prom.ns, t.services) && forall a, b :: 0 <= a < b < |secrets| ==> secrets[a].0 != secrets[b].0
    requires ProjectTurn(p, key, src, t, secrets, n, ok).end == Done
    ensures var target, store := Key(t.prom.ns, key.name), ProjectTurn(p, key, src, t, secrets, n, ok).store;
            && (i < |t.services| && UniqueNames(t.services[i].svc.ports) ==>
                  var s, k := t.services[i], Key(t.prom.ns, t.services[i].key.name);
                  && k in store.services && ServiceCopyOf(target, s.svc, Get(p.store.services, k), store.services[k])
                  && (s.key in p.store.endpoints ==>
                        k in store.endpoints && EndpointsCopyOf(target, s, p.store.endpoints[s.key], store.endpoints[k])))
            && (j < |secrets| ==>
                  var k := Key(t.prom.ns, secrets[j].0);
                  k in store.secrets && store.secrets[k] == Secret(secrets[j].1, Some(target)))
  {
    var target, q := Key(t.prom.ns, key.name), MonitorCopied(p, key, src, t);
    var m := ServicesAfter(q, target, t.services, n, ok, |t.services|);
    SecretsKeep(m, target, secrets, n, ok, |secrets|);
    SecretsKeepServices(m, target, secrets, n, ok, |secrets|);
    if i < |t.services| && UniqueNames(t.services[i].svc.ports) {
      var s, k := t.services[i], Key(t.prom.ns, t.services[i].key.name);
      ServiceStored(q, target, t.services, n, ok, |t.services|, i);
      ServiceIsCopied(target, s.svc, Get(p.store.services, k));
      if s.key in p.store.endpoints { EndpointsAreCopied(target, s, p.store.endpoints[s.key], Get(p.store.endpoints, k)); }
    }
    if j < |secrets| { SecretStored(m, target, secrets, n, ok, |secrets|, j); }
  }

  // ---------------------------------------------------------------- the default Prometheus

  /** The turn of the default Prometheus patches the source, and nothing but its labels: with a valid
      selector that constrains every key once it is selected exactly when each expression can be
      satisfied over the labels it had. */
  lemma DefaultTurnSelects(p: Progress, key: Key, src: Monitor, t: Turn, secrets: seq<(string, string)>, n: nat, ok: Outcomes, s: Selector)
    requires t.isDefault && t.patched && key in p.store.monitors && p.store.monitors[key] == src
    requires t.prom.selector == Some(s) && ValidSelector(Some(s)) && DistinctKeys(s)
    ensures var (r, m) := OneTurn(p, key, src, t, secrets, n, ok);
            && r == p.(store := p.store.(monitors := p.store.monitors[key := m])) && m == src.(labels := m.labels)
            && (Matches(Some(s), m.labels) <==> forall e :: e in s.exprs ==> Satisfiable(e, src.labels))
            && (forall a :: a !in s.matchLabels && (forall e :: e in s.exprs ==> e.key != a)
                  ==> (a in m.labels <==> a in src.labels) && (a in src.labels ==> m.labels[a] == src.labels[a]))
  {
    PatchedMatchesIff(s, src.labels);
    forall a | a !in s.matchLabels && (forall e :: e in s.exprs ==> e.key != a) ensures a !in LabelsFor(Some(s)) {
      DerivedKeys(s.exprs, s.matchLabels, a);
    }
  }
}
