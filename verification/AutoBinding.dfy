/**
 Binding a ServiceMonitor labelled "auto" to a Prometheus: which Prometheus is chosen, that the
 choice does not depend on the order of the listing, and when reconciling comes to rest.
 */
module AutoBinding {
  import opened Kube
  import opened LabelSelectors
  import opened Ordering

  const AUTO := "auto"
  const SYSTEM := "cattle-monitoring-system"

  datatype Prom = Prom(ns: string, name: string, nsSelector: Option<Selector>, selector: Option<Selector>)

  /** What a reconcile reads besides the ServiceMonitor and the Prometheuses; None is a failed
      read. namespace and namespaceAgain are the labels of the ServiceMonitor's namespace. */
  datatype Env = Env(
    ready: bool,
    namespace: Option<Labels>,
    openshift: bool,
    rancher: bool,
    isDefault: (string, string) -> bool,
    systemProject: string,
    project: Option<Option<string>>,
    namespaceAgain: Option<Labels>)

  // ---------------------------------------------------------------- the order of the Prometheuses

  predicate KeyLessEq(p: Prom, q: Prom) {
    if p.ns != q.ns then LessEq(p.ns, q.ns) else LessEq(p.name, q.name)
  }

  ghost predicate UniqueKeys(s: seq<Prom>) {
    forall i, j :: 0 <= i < |s| && 0 <= j < |s| && s[i].ns == s[j].ns && s[i].name == s[j].name ==> s[i] == s[j]
  }

  lemma KeyOrder()
    ensures Preorder(KeyLessEq)
  {
    forall p: Prom, q: Prom ensures KeyLessEq(p, q) || KeyLessEq(q, p) {
      LessEqTotal(p.ns, q.ns);
      LessEqTotal(p.name, q.name);
    }
    forall p: Prom, q: Prom, r: Prom | KeyLessEq(p, q) && KeyLessEq(q, r) ensures KeyLessEq(p, r) {
      KeyTransitive(p, q, r);
    }
  }

  lemma KeyTransitive(p: Prom, q: Prom, r: Prom)
    requires KeyLessEq(p, q) && KeyLessEq(q, r)
    ensures KeyLessEq(p, r)
  {
    if p.ns == q.ns == r.ns {
      LessEqTransitive(p.name, q.name, r.name);
    } else if p.ns != q.ns && q.ns != r.ns {
      LessEqTransitive(p.ns, q.ns, r.ns);
      LessEqTotal(p.ns, q.ns);
    }
  }

  function Ordered(s: seq<Prom>): seq<Prom> {
    Sort(KeyLessEq, s)
  }

  lemma OrderedKeepsMembers(s: seq<Prom>, p: Prom)
    ensures p in Ordered(s) <==> p in s
  {
    KeyOrder();
    SortSorts(KeyLessEq, s);
    assert p in multiset(Ordered(s)) <==> p in multiset(s);
  }

  /** Sorting on the unique pair of namespace and name has one result. */
  lemma OrderedOnce(a: seq<Prom>, b: seq<Prom>)
    requires multiset(a) == multiset(b) && UniqueKeys(a)
    ensures Ordered(a) == Ordered(b)
  {
    KeyOrder();
    SortSorts(KeyLessEq, a);
    SortSorts(KeyLessEq, b);
    var s := Ordered(a);
    forall i, j | 0 <= i < |s| && 0 <= j < |s| && KeyLessEq(s[i], s[j]) && KeyLessEq(s[j], s[i]) ensures s[i] == s[j] {
      LessEqTotal(s[i].ns, s[j].ns);
      LessEqTotal(s[i].name, s[j].name);
      OrderedKeepsMembers(a, s[i]);
      OrderedKeepsMembers(a, s[j]);
    }
    SortedOnce(KeyLessEq, s, Ordered(b));
  }

  // ---------------------------------------------------------------- the choice

  /** The first member that satisfies f. */
  function First(f: Prom -> bool, s: seq<Prom>): Option<Prom> {
    if s == [] then None else if f(s[0]) then Some(s[0]) else First(f, s[1..])
  }

  lemma {:induction false} FirstMeans(f: Prom -> bool, s: seq<Prom>)
    ensures First(f, s).Some? ==> First(f, s).value in s && f(First(f, s).value)
    ensures First(f, s).None? <==> forall p :: p in s ==> !f(p)
  {
    if s != [] { FirstMeans(f, s[1..]); }
  }

  /** A search loop that has passed the first n members without finding one. */
  lemma {:induction false} FirstSkips(f: Prom -> bool, s: seq<Prom>, n: nat)
    requires n <= |s| && forall i :: 0 <= i < n ==> !f(s[i])
    ensures First(f, s) == if n < |s| && f(s[n]) then Some(s[n]) else First(f, s[n..])
  {
    if n > 0 {
      FirstSkips(f, s[1..], n - 1);
      assert s[1..][n - 1..] == s[n..];
    }
  }

  /** HasProm stops at this Prometheus: it has selected the ServiceMonitor, or a selector is invalid. */
  predicate Stops(ns: Labels, l: Labels, p: Prom) {
    || !ValidSelector(p.nsSelector)
    || (Matches(p.nsSelector, ns) && (!ValidSelector(p.selector) || Matches(p.selector, l)))
  }

  predicate Selects(ns: Labels, l: Labels, p: Prom) {
    && ValidSelector(p.nsSelector) && Matches(p.nsSelector, ns)
    && ValidSelector(p.selector) && Matches(p.selector, l)
  }

  function Stopping(ns: Labels, l: Labels): Prom -> bool {
    (p: Prom) => Stops(ns, l, p)
  }

  function IsDefault(env: Env): Prom -> bool {
    (p: Prom) => env.isDefault(p.ns, p.name)
  }

  /** DefaultPrometheus */
  function Default(env: Env, s: seq<Prom>): Option<Prom> {
    if s == [] then None
    else if env.openshift then First(IsDefault(env), s)
    else Some(s[0])
  }

  /** The project search ends at this Prometheus. */
  predicate ServesProject(project: string, p: Prom) {
    p.ns != SYSTEM && (!ValidSelector(p.nsSelector) || Matches(p.nsSelector, map[HelmProject := project]))
  }

  function Serving(project: string): Prom -> bool {
    (p: Prom) => ServesProject(project, p)
  }

  function SystemOnes(): Prom -> bool {
    (p: Prom) => p.ns == SYSTEM
  }

  function ProjectPrometheus(env: Env, s: seq<Prom>): Option<Prom> {
    if env.namespaceAgain.None? || HelmProject !in env.namespaceAgain.value || env.namespaceAgain.value[HelmProject] == ""
    then None
    else
      var project := env.namespaceAgain.value[HelmProject];
      var r := First(Serving(project), s);
      if r.Some? && ValidSelector(r.value.nsSelector) then r else None
  }

  function InSystem(env: Env): bool {
    env.project.Some? && (env.project.value.None? || env.project.value.value == env.systemProject)
  }

  /** The Prometheus whose labels are written, among the sorted ones. */
  function Choose(env: Env, s: seq<Prom>): Option<Prom> {
    if !env.rancher then Default(env, s)
    else if env.project.None? then None
    else
      var system := First(SystemOnes(), s);
      if InSystem(env) && system.Some? then system else ProjectPrometheus(env, s)
  }

  function HasProm(env: Env, l: Labels, s: seq<Prom>): Option<Prom>
    requires env.namespace.Some?
  {
    First(Stopping(env.namespace.value, l), s)
  }

  /** The Prometheus a reconcile binds a ServiceMonitor with labels l to, if it writes at all. */
  function Binding(env: Env, l: Labels, proms: seq<Prom>): Option<Prom> {
    if !env.ready || PrometheusLabel !in l || l[PrometheusLabel] != AUTO || env.namespace.None? then None
    else if HasProm(env, l, proms).Some? then None
    else Choose(env, Ordered(proms))
  }

  function After(env: Env, l: Labels, proms: seq<Prom>, ok: bool): Labels {
    var p := Binding(env, l, proms);
    if p.Some? && ok then Overwrite(l, LabelsFor(p.value.selector)) else l
  }

  // ---------------------------------------------------------------- the reconciler

  class AutoReconciler {
    /** The labels of the stored ServiceMonitor. */
    var labels: Labels

    constructor (labels: Labels)
      ensures this.labels == labels
    {
      this.labels := labels;
    }

    /** HasProm: a Prometheus that selects the ServiceMonitor, or an error. */
    static method FindSelecting(ns: Labels, l: Labels, prometheuses: seq<Prom>) returns (found: Option<Prom>, err: bool)
      ensures found.Some? || err <==> First(Stopping(ns, l), prometheuses).Some?
      ensures found.Some? ==> found == First(Stopping(ns, l), prometheuses) && Selects(ns, l, found.value)
    {
      for i := 0 to |prometheuses|
        invariant forall j :: 0 <= j < i ==> !Stops(ns, l, prometheuses[j])
      {
        var prom := prometheuses[i];
        FirstSkips(Stopping(ns, l), prometheuses, i);
        if !ValidSelector(prom.nsSelector) { return None, true; }
        if !Matches(prom.nsSelector, ns) { continue; }
        if !ValidSelector(prom.selector) { return None, true; }
        if Matches(prom.selector, l) { return Some(prom), false; }
      }
      FirstSkips(Stopping(ns, l), prometheuses, |prometheuses|);
      return None, false;
    }

    /** The two search loops of the Rancher branch, over sorted Prometheuses. */
    static method ChooseForProject(env: Env, prometheuses: seq<Prom>) returns (prom: Option<Prom>)
      requires env.rancher
      ensures prom == Choose(env, prometheuses)
    {
      if env.project.None? { return None; }
      if env.project.value.None? || env.project.value.value == env.systemProject {
        for i := 0 to |prometheuses|
          invariant forall j :: 0 <= j < i ==> prometheuses[j].ns != SYSTEM
        {
          FirstSkips(SystemOnes(), prometheuses, i);
          if prometheuses[i].ns == SYSTEM { return Some(prometheuses[i]); }
        }
        FirstSkips(SystemOnes(), prometheuses, |prometheuses|);
      }
      prom := SearchProject(env, prometheuses);
    }

    static method SearchProject(env: Env, prometheuses: seq<Prom>) returns (prom: Option<Prom>)
      ensures prom == ProjectPrometheus(env, prometheuses)
    {
      if env.namespaceAgain.None? { return None; }
      var ns := env.namespaceAgain.value;
      if HelmProject !in ns || ns[HelmProject] == "" { return None; }
      var project := ns[HelmProject];
      for i := 0 to |prometheuses|
        invariant forall j :: 0 <= j < i ==> !ServesProject(project, prometheuses[j])
      {
        var p := prometheuses[i];
        FirstSkips(Serving(project), prometheuses, i);
        if p.ns == SYSTEM { continue; }
        if !ValidSelector(p.nsSelector) { return None; }
        if Matches(p.nsSelector, map[HelmProject := project]) { return Some(p); }
      }
      FirstSkips(Serving(project), prometheuses, |prometheuses|);
      return None;
    }

    static method DefaultPrometheus(env: Env, prometheuses: seq<Prom>) returns (prom: Option<Prom>)
      ensures prom == Default(env, prometheuses)
    {
      if |prometheuses| == 0 { return None; }
      if env.openshift {
        for i := 0 to |prometheuses|
          invariant forall j :: 0 <= j < i ==> !env.isDefault(prometheuses[j].ns, prometheuses[j].name)
        {
          FirstSkips(IsDefault(env), prometheuses, i);
          if env.isDefault(prometheuses[i].ns, prometheuses[i].name) { return Some(prometheuses[i]); }
        }
        FirstSkips(IsDefault(env), prometheuses, |prometheuses|);
        return None;
      }
      return Some(prometheuses[0]);
    }

    /** Reconcile; ok says whether the server takes the patch. */
    method Reconcile(env: Env, list: seq<Prom>, ok: bool)
      modifies this
      ensures labels == After(env, old(labels), list, ok)
    {
      if !env.ready { return; }
      if PrometheusLabel !in labels || labels[PrometheusLabel] != AUTO { return; }
      if env.namespace.None? { return; }
      if |list| == 0 {
        assert Ordered(list) == [];
        return;
      }
      var found, err := FindSelecting(env.namespace.value, labels, list);
      if err || found.Some? { return; }
      var prometheuses := Sort(KeyLessEq, list);
      var prom: Option<Prom>;
      if !env.rancher {
        prom := DefaultPrometheus(env, prometheuses);
      } else {
        prom := ChooseForProject(env, prometheuses);
      }
      if prom.Some? && ok {
        var extra := LabelsForLabelSelector(prom.value.selector);
        labels := Overwrite(labels, extra);
      }
    }
  }

  // ---------------------------------------------------------------- the order of the listing does not matter

  lemma StopsIgnoresOrder(env: Env, l: Labels, a: seq<Prom>, b: seq<Prom>)
    requires multiset(a) == multiset(b) && env.namespace.Some?
    ensures HasProm(env, l, a).Some? <==> HasProm(env, l, b).Some?
  {
    FirstMeans(Stopping(env.namespace.value, l), a);
    FirstMeans(Stopping(env.namespace.value, l), b);
    assert forall p :: p in a <==> p in multiset(a);
    assert forall p :: p in b <==> p in multiset(b);
  }

  /** Prometheuses have unique names per namespace, so every permutation of the listing leads to
      the same Prometheus and the same labels, although HasProm goes through the unsorted list. */
  lemma BindingIgnoresOrder(env: Env, l: Labels, a: seq<Prom>, b: seq<Prom>)
    requires multiset(a) == multiset(b) && UniqueKeys(a)
    ensures Binding(env, l, a) == Binding(env, l, b)
  {
    OrderedOnce(a, b);
    if env.namespace.Some? { StopsIgnoresOrder(env, l, a, b); }
  }

  lemma {:induction false} FirstIsFirst(f: Prom -> bool, s: seq<Prom>)
    requires First(f, s).Some?
    ensures exists n :: 0 <= n < |s| && s[n] == First(f, s).value && forall i :: 0 <= i < n ==> !f(s[i])
  {
    if f(s[0]) {
      assert s[0] == First(f, s).value;
    } else {
      FirstIsFirst(f, s[1..]);
      var n :| 0 <= n < |s[1..]| && s[1..][n] == First(f, s).value && forall i :: 0 <= i < n ==> !f(s[1..][i]);
      assert s[n + 1] == First(f, s).value;
      forall i | 0 <= i < n + 1 ensures !f(s[i]) {
        if i > 0 { assert s[i] == s[1..][i - 1]; }
      }
    }
  }

  /** The Prometheus with the least key among those of the list that satisfy f. */
  ghost predicate IsLeast(f: Prom -> bool, proms: seq<Prom>, p: Prom) {
    p in proms && f(p) && forall q :: q in proms && f(q) ==> KeyLessEq(p, q)
  }

  lemma OrderedIsSorted(proms: seq<Prom>)
    ensures Sorted(KeyLessEq, Ordered(proms))
  {
    KeyOrder();
    SortSorts(KeyLessEq, proms);
  }

  lemma KeyReflexive(p: Prom)
    ensures KeyLessEq(p, p)
  {
    LessEqTotal(p.name, p.name);
  }

  lemma FirstOfSorted(f: Prom -> bool, s: seq<Prom>)
    requires Sorted(KeyLessEq, s) && First(f, s).Some?
    ensures IsLeast(f, s, First(f, s).value)
  {
    FirstIsFirst(f, s);
    var n :| 0 <= n < |s| && s[n] == First(f, s).value && forall i :: 0 <= i < n ==> !f(s[i]);
    KeyReflexive(s[n]);
    forall q | q in s && f(q) ensures KeyLessEq(s[n], q) {
      var i :| 0 <= i < |s| && s[i] == q;
    }
  }

  lemma FirstIsLeast(f: Prom -> bool, proms: seq<Prom>)
    requires First(f, Ordered(proms)).Some?
    ensures IsLeast(f, proms, First(f, Ordered(proms)).value)
  {
    var s := Ordered(proms);
    OrderedIsSorted(proms);
    FirstOfSorted(f, s);
    forall q ensures q in proms <==> q in s { OrderedKeepsMembers(proms, q); }
  }

  /** The Helm project of the namespace, if it is labelled with one. */
  function HelmProjectOf(env: Env): Option<string> {
    if env.namespaceAgain.Some? && HelmProject in env.namespaceAgain.value && env.namespaceAgain.value[HelmProject] != ""
    then Some(env.namespaceAgain.value[HelmProject]) else None
  }

  /** Under Rancher: a system Prometheus is there, and the namespace is in the system project or in none. */
  ghost predicate UsesSystem(env: Env, proms: seq<Prom>) {
    && (env.project == Some(None) || env.project == Some(Some(env.systemProject)))
    && exists q :: q in proms && q.ns == "cattle-monitoring-system"
  }

  /** Who can be chosen. Outside Rancher everyone, on OpenShift the default ones. Under Rancher, with a
      system Prometheus for a namespace of the system project or of none, those of the system namespace;
      else those outside it that accept the Helm project of the namespace or have an invalid selector,
      which ends the search. */
  ghost predicate Eligible(env: Env, proms: seq<Prom>, q: Prom) {
    if !env.rancher then env.openshift ==> env.isDefault(q.ns, q.name)
    else if UsesSystem(env, proms) then q.ns == "cattle-monitoring-system"
    else
      && HelmProjectOf(env).Some? && q.ns != "cattle-monitoring-system"
      && (!ValidSelector(q.nsSelector) || Matches(q.nsSelector, map[HelmProject := HelmProjectOf(env).value]))
  }

  /** The choice without reference to the sorting: the least pair of namespace and name among those
      eligible, unless that one has the invalid selector. */
  ghost predicate Chosen(env: Env, proms: seq<Prom>, p: Prom) {
    && (env.rancher ==> env.project.Some?)
    && p in proms && Eligible(env, proms, p) && (forall q :: q in proms && Eligible(env, proms, q) ==> KeyLessEq(p, q))
    && (env.rancher && !UsesSystem(env, proms) ==> ValidSelector(p.nsSelector))
  }

  /** All of it: whether and to whom a ServiceMonitor is bound. */
  ghost predicate Binds(env: Env, l: Labels, proms: seq<Prom>, p: Prom) {
    && env.ready && PrometheusLabel in l && l[PrometheusLabel] == "auto" && env.namespace.Some?
    && (forall q :: q in proms ==>
          && ValidSelector(q.nsSelector)
          && (Matches(q.nsSelector, env.namespace.value) ==> ValidSelector(q.selector) && !Matches(q.selector, l)))
    && Chosen(env, proms, p)
  }

  lemma LeastOnce(f: Prom -> bool, proms: seq<Prom>, p: Prom, q: Prom)
    requires UniqueKeys(proms) && IsLeast(f, proms, p) && IsLeast(f, proms, q)
    ensures p == q
  {
    if p.ns == q.ns { LessEqTotal(p.name, q.name); } else { LessEqTotal(p.ns, q.ns); }
    var i :| 0 <= i < |proms| && proms[i] == p;
    var j :| 0 <= j < |proms| && proms[j] == q;
  }

  /** The first of the sorted list that satisfies f is the least one of the list. */
  lemma FirstIffLeast(f: Prom -> bool, proms: seq<Prom>, p: Prom)
    ensures First(f, Ordered(proms)) == Some(p) ==> IsLeast(f, proms, p)
    ensures UniqueKeys(proms) && IsLeast(f, proms, p) ==> First(f, Ordered(proms)) == Some(p)
  {
    var s := Ordered(proms);
    FirstMeans(f, s);
    OrderedKeepsMembers(proms, p);
    if First(f, s).Some? {
      FirstIsLeast(f, proms);
      if UniqueKeys(proms) && IsLeast(f, proms, p) { LeastOnce(f, proms, p, First(f, s).value); }
    }
  }

  lemma SystemIsListed(proms: seq<Prom>)
    ensures First(SystemOnes(), Ordered(proms)).Some? <==> exists q :: q in proms && q.ns == SYSTEM
  {
    FirstMeans(SystemOnes(), Ordered(proms));
    forall q ensures q in proms <==> q in Ordered(proms) { OrderedKeepsMembers(proms, q); }
  }

  /** f says who is eligible. */
  lemma ChosenIsLeast(env: Env, proms: seq<Prom>, f: Prom -> bool, p: Prom)
    requires forall q :: q in proms ==> (f(q) <==> Eligible(env, proms, q))
    ensures Chosen(env, proms, p)
            <==> (env.rancher ==> env.project.Some?) && IsLeast(f, proms, p)
                 && (env.rancher && !UsesSystem(env, proms) ==> ValidSelector(p.nsSelector))
  {
  }

  lemma SystemIsUsed(env: Env, proms: seq<Prom>)
    ensures UsesSystem(env, proms) <==> InSystem(env) && First(SystemOnes(), Ordered(proms)).Some?
  {
    SystemIsListed(proms);
    assert SYSTEM == "cattle-monitoring-system";
    assert InSystem(env) <==> env.project == Some(None) || env.project == Some(Some(env.systemProject)) by {
      if env.project.Some? && env.project.value.Some? { assert env.project == Some(Some(env.project.value.value)); }
    }
  }

  lemma ProjectChoice(env: Env, proms: seq<Prom>, p: Prom)
    requires env.rancher && !UsesSystem(env, proms)
    ensures ProjectPrometheus(env, Ordered(proms)) == Some(p) && env.project.Some? ==> Chosen(env, proms, p)
    ensures UniqueKeys(proms) && Chosen(env, proms, p) ==> ProjectPrometheus(env, Ordered(proms)) == Some(p)
  {
    if HelmProjectOf(env).Some? {
      FirstIffLeast(Serving(HelmProjectOf(env).value), proms, p);
      ChosenIsLeast(env, proms, Serving(HelmProjectOf(env).value), p);
    }
  }

  /** Pairs of namespace and name being unique, these are the same. */
  lemma ChoiceIsLeast(env: Env, proms: seq<Prom>, p: Prom)
    ensures Choose(env, Ordered(proms)) == Some(p) ==> Chosen(env, proms, p)
    ensures UniqueKeys(proms) && Chosen(env, proms, p) ==> Choose(env, Ordered(proms)) == Some(p)
  {
    var s := Ordered(proms);
    OrderedKeepsMembers(proms, p);
    if !env.rancher {
      var f := if env.openshift then IsDefault(env) else q => true;
      assert !env.openshift && s != [] ==> First(f, s) == Some(s[0]);
      FirstIffLeast(f, proms, p);
      ChosenIsLeast(env, proms, f, p);
    } else {
      SystemIsUsed(env, proms);
      if UsesSystem(env, proms) {
        FirstIffLeast(SystemOnes(), proms, p);
        ChosenIsLeast(env, proms, SystemOnes(), p);
      } else {
        ProjectChoice(env, proms, p);
      }
    }
  }

  /** A reconcile writes exactly when the detector is ready, the ServiceMonitor asks for it, its namespace
      can be read, no selector that matters is invalid and none selects the ServiceMonitor, and then for
      the Prometheus chosen. */
  lemma BindingIsExact(env: Env, l: Labels, proms: seq<Prom>, p: Prom)
    ensures Binding(env, l, proms) == Some(p) ==> Binds(env, l, proms, p)
    ensures UniqueKeys(proms) && Binds(env, l, proms, p) ==> Binding(env, l, proms) == Some(p)
  {
    ChoiceIsLeast(env, proms, p);
    if env.namespace.Some? { FirstMeans(Stopping(env.namespace.value, l), proms); }
  }

  // ---------------------------------------------------------------- coming to rest

  /** Nothing is written when some Prometheus of the list selects the ServiceMonitor. */
  lemma SelectedMeansBound(env: Env, l: Labels, proms: seq<Prom>, p: Prom)
    requires env.namespace.Some? && p in proms && Stops(env.namespace.value, l, p)
    ensures Binding(env, l, proms) == None
  {
    FirstMeans(Stopping(env.namespace.value, l), proms);
  }

  lemma ChosenIsListed(env: Env, s: seq<Prom>)
    ensures Choose(env, s).Some? ==> Choose(env, s).value in s
  {
    FirstMeans(IsDefault(env), s);
    FirstMeans(SystemOnes(), s);
    if env.namespaceAgain.Some? && HelmProject in env.namespaceAgain.value {
      FirstMeans(Serving(env.namespaceAgain.value[HelmProject]), s);
    }
  }

  /** Which Prometheus is chosen has nothing to do with the labels of the ServiceMonitor. */
  lemma ChoiceIgnoresLabels(env: Env, l: Labels, l': Labels, proms: seq<Prom>)
    requires Binding(env, l, proms).Some? && Binding(env, l', proms).Some?
    ensures Binding(env, l, proms) == Binding(env, l', proms)
  {
  }

  /** After one patch a further reconcile changes no label, whatever the selectors look like and
      in whatever order the Prometheuses are listed. */
  lemma RepeatedPatchIsIdempotent(env: Env, l: Labels, a: seq<Prom>, b: seq<Prom>, ok: bool)
    requires multiset(a) == multiset(b) && UniqueKeys(a) && Binding(env, l, a).Some?
    ensures After(env, After(env, l, a, true), b, ok) == After(env, l, a, true)
  {
    var l1 := After(env, l, a, true);
    BindingIgnoresOrder(env, l1, a, b);
    if Binding(env, l1, a).Some? {
      ChoiceIgnoresLabels(env, l, l1, a);
      OverwriteTwice(l, LabelsFor(Binding(env, l, a).value.selector));
    }
  }

  /** A binding settles, so that every later reconcile of the same cluster writes nothing, when the
      chosen Prometheus watches the namespace and has a selector of match labels only. */
  lemma MatchLabelsSettle(env: Env, l: Labels, a: seq<Prom>, b: seq<Prom>)
    requires multiset(a) == multiset(b) && UniqueKeys(a) && Binding(env, l, a).Some?
    requires var p := Binding(env, l, a).value;
             Matches(p.nsSelector, env.namespace.value) && p.selector.Some? && p.selector.value.exprs == []
    ensures Binding(env, After(env, l, a, true), b) == None
  {
    var p := Binding(env, l, a).value;
    ChosenIsListed(env, Ordered(a));
    OrderedKeepsMembers(a, p);
    assert p in multiset(b);
    if ValidSelector(p.nsSelector) && ValidSelector(p.selector) {
      PatchedMatchesIff(p.selector.value, l);
    }
    SelectedMeansBound(env, After(env, l, a, true), b, p);
  }

  /** In general, with every key constrained once: the chosen Prometheus selects the patched
      ServiceMonitor exactly when it watches the namespace and has a selector whose expressions
      the derived labels can satisfy. A missing selector is never satisfied. */
  lemma BindsIff(env: Env, l: Labels, proms: seq<Prom>)
    requires Binding(env, l, proms).Some?
    requires var p := Binding(env, l, proms).value;
             ValidSelector(p.nsSelector) && ValidSelector(p.selector) && (p.selector.Some? ==> DistinctKeys(p.selector.value))
    ensures var p := Binding(env, l, proms).value;
            Selects(env.namespace.value, After(env, l, proms, true), p)
            <==> && Matches(p.nsSelector, env.namespace.value)
                 && p.selector.Some? && forall e :: e in p.selector.value.exprs ==> Satisfiable(e, l)
  {
    var p := Binding(env, l, proms).value;
    if p.selector.Some? { PatchedMatchesIff(p.selector.value, l); }
  }

  /** A Prometheus without a selector is chosen again and again, and nothing ever changes. */
  lemma MissingSelectorNeverBinds(env: Env, l: Labels, proms: seq<Prom>)
    requires Binding(env, l, proms).Some? && Binding(env, l, proms).value.selector.None?
    ensures After(env, l, proms, true) == l
    ensures Binding(env, After(env, l, proms, true), proms) == Binding(env, l, proms)
  {
    assert After(env, l, proms, true) == l;
  }
}
