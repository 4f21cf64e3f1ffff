/** The rewritten Perses dashboard, related to the one before variable by variable and query by query. */
module PersesContents {
  import opened Kube
  import opened PersesRewrite

  /** Only a missing datasource of an object is filled in. */
  ghost predicate Filled(s: PluginSpec, r: PluginSpec, d: Datasource) {
    match s
    case Object(datasource, rest) => r == Object(Some(if datasource.Some? then datasource.value else d), rest)
    case NoObject(_) => r == s
  }

  /** The datasource variable points to ds, Prometheus-backed list variables have a datasource, and no
      other variable has changed. */
  ghost predicate VariableOf(v: Var, r: Var, ds: string) {
    if v.isList && v.spec.ListSpec? && v.spec.name == "datasource" then
      r.isList && r.spec == ListSpec("datasource", Some(Single(ds)), v.spec.plugin, v.spec.spec, v.spec.rest)
    else if v.isList && v.spec.ListSpec? && (v.spec.plugin == LabelValues || v.spec.plugin == PromQL) then
      && r.isList && r.spec.ListSpec? && r.spec.(spec := v.spec.spec) == v.spec && Filled(v.spec.spec, r.spec.spec, Prometheus(ds))
    else r == v
  }

  /** A Prometheus time series query has a datasource, the variable if it had none; any other query is
      as it was. */
  ghost predicate QueryOf(q: Query, r: Query) {
    if q.timeSeries && q.prometheus then r.(spec := q.spec) == q && Filled(q.spec, r.spec, Variable) else r == q
  }

  ghost predicate PanelOf(p: Panel, r: Panel) {
    && r.rest == p.rest && |r.queries| == |p.queries|
    && forall i :: 0 <= i < |p.queries| ==> QueryOf(p.queries[i], r.queries[i])
  }

  ghost predicate BoardOf(b: Board, r: Board, ds: string) {
    && |r.variables| == |b.variables| && (forall i :: 0 <= i < |b.variables| ==> VariableOf(b.variables[i], r.variables[i], ds))
    && r.panels.Keys == b.panels.Keys && (forall k :: k in b.panels ==> PanelOf(b.panels[k], r.panels[k]))
    && r.rest == b.rest
  }

  /** The rewrite fails exactly on a list variable with another type of spec. Otherwise it points the
      datasource variable to ds, gives every query a datasource, and changes nothing else. */
  lemma RewriteIsExact(b: Board, ds: string)
    ensures Rewrite(b, ds).None? <==> exists v :: v in b.variables && v.isList && v.spec.OtherSpec?
    ensures Rewrite(b, ds).Some? ==> BoardOf(b, Rewrite(b, ds).value, ds)
  {
    if v :| v in b.variables && v.isList && v.spec.OtherSpec? { assert Mistyped(v); }
    if Rewrite(b, ds).Some? {
      forall k | k in b.panels ensures PanelOf(b.panels[k], UpdatedPanel(b.panels[k])) {
      }
    }
  }
}
