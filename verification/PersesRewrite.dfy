/**
 Setting the datasource of a Perses dashboard: the datasource variable, the Prometheus-backed list
 variables, and the queries of the panels.
 */
module PersesRewrite {
  import opened Kube

  datatype Datasource = Prometheus(name: string) | Variable | OtherSource(text: string)

  /** The spec of a plugin: an object, of which only the datasource matters, or anything else. */
  datatype PluginSpec = Object(datasource: Option<Datasource>, rest: string) | NoObject(text: string)

  datatype VariablePlugin = LabelValues | PromQL | OtherVariable(kind: string)

  datatype Default = Single(value: string) | OtherDefault(text: string)

  /** The decoded spec of a variable; a ListVariable may carry another type of spec. */
  datatype VariableSpec =
    | ListSpec(name: string, default: Option<Default>, plugin: VariablePlugin, spec: PluginSpec, rest: string)
    | OtherSpec(text: string)

  datatype Var = Var(isList: bool, spec: VariableSpec)

  datatype Query = Query(timeSeries: bool, prometheus: bool, spec: PluginSpec, rest: string)

  datatype Panel = Panel(queries: seq<Query>, rest: string)

  datatype Board = Board(variables: seq<Var>, panels: map<string, Panel>, rest: string)

  const DATASOURCE := "datasource"

  // ---------------------------------------------------------------- the result of the rewrite

  function Inject(s: PluginSpec, d: Datasource): PluginSpec {
    if s.Object? && s.datasource.None? then s.(datasource := Some(d)) else s
  }

  predicate Mistyped(v: Var) {
    v.isList && !v.spec.ListSpec?
  }

  predicate IsDatasourceVariable(v: Var) {
    v.isList && v.spec.ListSpec? && v.spec.name == DATASOURCE
  }

  /** A Prometheus-backed list variable other than the datasource variable. */
  predicate IsBacked(v: Var) {
    v.isList && v.spec.ListSpec? && v.spec.name != DATASOURCE && !v.spec.plugin.OtherVariable?
  }

  function UpdatedVar(v: Var, ds: string): Var {
    if IsDatasourceVariable(v) then v.(spec := v.spec.(default := Some(Single(ds))))
    else if IsBacked(v) then v.(spec := v.spec.(spec := Inject(v.spec.spec, Prometheus(ds))))
    else v
  }

  function UpdatedVars(vs: seq<Var>, ds: string): (r: seq<Var>)
    ensures |r| == |vs| && forall i :: 0 <= i < |r| ==> r[i] == UpdatedVar(vs[i], ds)
  {
    seq(|vs|, i requires 0 <= i < |vs| => UpdatedVar(vs[i], ds))
  }

  function UpdatedQuery(q: Query): Query {
    if q.timeSeries && q.prometheus then q.(spec := Inject(q.spec, Variable)) else q
  }

  function UpdatedPanel(p: Panel): (r: Panel)
    ensures |r.queries| == |p.queries| && forall i :: 0 <= i < |r.queries| ==> r.queries[i] == UpdatedQuery(p.queries[i])
  {
    p.(queries := seq(|p.queries|, i requires 0 <= i < |p.queries| => UpdatedQuery(p.queries[i])))
  }

  function UpdatedPanels(panels: map<string, Panel>): map<string, Panel> {
    map k | k in panels :: UpdatedPanel(panels[k])
  }

  /** None is the type error. */
  function Rewrite(b: Board, ds: string): Option<Board> {
    if exists v :: v in b.variables && Mistyped(v) then None
    else Some(Board(UpdatedVars(b.variables, ds), UpdatedPanels(b.panels), b.rest))
  }

  /** The loop stopped at the n-th variable. */
  ghost predicate Interrupted(vs: seq<Var>, r: seq<Var>, n: nat, ds: string) {
    n < |vs| && Mistyped(vs[n]) && r == UpdatedVars(vs[..n], ds) + vs[n..]
  }

  // ---------------------------------------------------------------- the code

  class Dashboard {
    const variables: array<Var>
    var panels: map<string, Panel>
    const rest: string

    constructor (b: Board)
      ensures fresh(variables) && Value() == b
    {
      variables := new Var[|b.variables|](i requires 0 <= i < |b.variables| => b.variables[i]);
      panels, rest := b.panels, b.rest;
      new;
      assert variables[..] == b.variables;
    }

    function Value(): Board
      reads this, variables
    {
      Board(variables[..], panels, rest)
    }

    /** The loop over the variables; on a type error the variables before it are already rewritten. */
    method UpdateVariables(ds: string) returns (err: bool)
      modifies variables
      ensures err <==> exists v :: v in old(variables[..]) && Mistyped(v)
      ensures !err ==> variables[..] == UpdatedVars(old(variables[..]), ds)
      ensures err ==> exists n :: Interrupted(old(variables[..]), variables[..], n, ds)
    {
      for i := 0 to variables.Length
        invariant forall j :: 0 <= j < i ==> variables[j] == UpdatedVar(old(variables[j]), ds) && !Mistyped(old(variables[j]))
        invariant forall j :: i <= j < variables.Length ==> variables[j] == old(variables[j])
      {
        var v := variables[i];
        if !v.isList { continue; }
        if !v.spec.ListSpec? {
          assert v in old(variables[..]);
          assert Interrupted(old(variables[..]), variables[..], i, ds);
          return true;
        }
        var spec := v.spec;
        if spec.name == DATASOURCE {
          variables[i] := v.(spec := spec.(default := Some(Single(ds))));
          continue;
        }
        if spec.plugin != LabelValues && spec.plugin != PromQL { continue; }
        if !spec.spec.Object? { continue; }
        var pluginSpec := spec.spec;
        if pluginSpec.datasource.None? {
          pluginSpec := pluginSpec.(datasource := Some(Prometheus(ds)));
        }
        variables[i] := v.(spec := spec.(spec := pluginSpec));
      }
      return false;
    }

    static method UpdateQueries(panel: Panel) returns (r: Panel)
      ensures r == UpdatedPanel(panel)
    {
      var queries := panel.queries;
      for qi := 0 to |queries|
        invariant |queries| == |panel.queries|
        invariant forall j :: 0 <= j < qi ==> queries[j] == UpdatedQuery(panel.queries[j])
        invariant forall j :: qi <= j < |queries| ==> queries[j] == panel.queries[j]
      {
        var query := queries[qi];
        if !query.timeSeries { continue; }
        if !query.prometheus { continue; }
        if !query.spec.Object? { continue; }
        if query.spec.datasource.None? {
          queries := queries[qi := query.(spec := query.spec.(datasource := Some(Variable)))];
        }
      }
      return panel.(queries := queries);
    }

    /** The loop over the panels, whose keys come in any order. */
    method UpdatePanels()
      modifies this`panels
      ensures panels == UpdatedPanels(old(panels))
    {
      var todo := panels.Keys;
      while todo != {}
        invariant panels.Keys == old(panels).Keys && todo <= panels.Keys
        invariant forall k :: k in panels ==> panels[k] == if k in todo then old(panels)[k] else UpdatedPanel(old(panels)[k])
        decreases |todo|
      {
        var k :| k in todo;
        var panel := UpdateQueries(panels[k]);
        panels := panels[k := panel];
        todo := todo - {k};
      }
    }

    /** updateDatasourceVariable */
    method UpdateDatasourceVariable(ds: string) returns (err: bool)
      modifies variables, this`panels
      ensures err <==> Rewrite(old(Value()), ds).None?
      ensures !err ==> Rewrite(old(Value()), ds) == Some(Value())
    {
      err := UpdateVariables(ds);
      if err { return; }
      UpdatePanels();
    }
  }

  /** The remote Perses, as one stored dashboard. */
  class Syncer {
    var remote: Option<Board>

    constructor ()
      ensures remote == None
    {
      remote := None;
    }

    /** The part of setDashboard from the decoded model to the remote call; accepted is the outcome
        of that call. A partly rewritten dashboard never gets to it. */
    method SetDashboard(model: Board, ds: string, accepted: bool) returns (err: bool)
      modifies this
      ensures remote == if Rewrite(model, ds).Some? && accepted then Rewrite(model, ds) else old(remote)
      ensures err <==> Rewrite(model, ds).None? || !accepted
    {
      var pDB := new Dashboard(model);
      err := pDB.UpdateDatasourceVariable(ds);
      if err { return true; }
      if !accepted { return true; }
      remote := Some(pDB.Value());
      return false;
    }
  }

  // ---------------------------------------------------------------- composing two rewrites

  /** A present datasource and the spec of any other plugin are never changed, and an absent one is
      always filled in. */
  lemma InjectionIsMinimal(b: Board, ds: string, i: nat)
    requires Rewrite(b, ds).Some? && i < |b.variables| && b.variables[i].spec.ListSpec?
    ensures var old', new' := b.variables[i].spec, Rewrite(b, ds).value.variables[i].spec;
            && new'.ListSpec? && new'.name == old'.name && new'.plugin == old'.plugin && new'.rest == old'.rest
            && (old'.spec.NoObject? || old'.spec.datasource.Some? || old'.plugin.OtherVariable? ==> new'.spec == old'.spec)
            && (IsBacked(b.variables[i]) && old'.spec.Object? ==>
                  new'.spec == if old'.spec.datasource.Some? then old'.spec else Object(Some(Prometheus(ds)), old'.spec.rest))
            && (new'.default != old'.default ==> IsDatasourceVariable(b.variables[i]) && new'.default == Some(Single(ds)))
  {
  }

  /** Rewriting for d1 and then for d2 moves the datasource variables on to d2 and leaves every
      injected datasource, and all panels, as the first rewrite made them. */
  lemma SecondRewrite(b: Board, d1: string, d2: string)
    requires Rewrite(b, d1).Some?
    ensures var b1 := Rewrite(b, d1).value;
            var r := Rewrite(b1, d2);
            && r.Some? && r.value.panels == b1.panels && r.value.rest == b.rest
            && |r.value.variables| == |b1.variables|
            && forall i :: 0 <= i < |b1.variables| ==>
                 r.value.variables[i] == if IsDatasourceVariable(b1.variables[i])
                                         then b1.variables[i].(spec := b1.variables[i].spec.(default := Some(Single(d2))))
                                         else b1.variables[i]
  {
    var b1 := Rewrite(b, d1).value;
    forall v | v in b1.variables ensures !Mistyped(v) {
      var i :| 0 <= i < |b1.variables| && b1.variables[i] == v;
      assert b.variables[i] in b.variables;
    }
    forall k | k in b1.panels ensures UpdatedPanel(b1.panels[k]) == b1.panels[k] {
      assert UpdatedPanel(b1.panels[k]).queries == b1.panels[k].queries;
    }
    assert UpdatedPanels(b1.panels) == b1.panels;
  }

  lemma RewriteTwice(b: Board, ds: string)
    requires Rewrite(b, ds).Some?
    ensures Rewrite(Rewrite(b, ds).value, ds) == Rewrite(b, ds)
  {
    SecondRewrite(b, ds, ds);
    assert Rewrite(Rewrite(b, ds).value, ds).value.variables == Rewrite(b, ds).value.variables;
  }

  /** Some variable gets its datasource injected. */
  predicate NeedsInjection(v: Var) {
    IsBacked(v) && v.spec.spec.Object? && v.spec.spec.datasource.None?
  }

  /** The last rewrite wins, as it does for Grafana models, if and only if it is a rewrite for the
      same datasource or nothing was injected. */
  lemma LastWriterWinsIff(b: Board, d1: string, d2: string)
    requires Rewrite(b, d1).Some?
    ensures Rewrite(Rewrite(b, d1).value, d2) == Rewrite(b, d2)
            <==> d1 == d2 || forall v :: v in b.variables ==> !NeedsInjection(v)
  {
    SecondRewrite(b, d1, d2);
    var r, s := Rewrite(Rewrite(b, d1).value, d2).value, Rewrite(b, d2).value;
    if d1 == d2 {
      RewriteTwice(b, d1);
    } else if v :| v in b.variables && NeedsInjection(v) {
      var i :| 0 <= i < |b.variables| && b.variables[i] == v;
      assert r.variables[i].spec.spec.datasource == Some(Prometheus(d1));
      assert s.variables[i].spec.spec.datasource == Some(Prometheus(d2));
    } else {
      forall i | 0 <= i < |b.variables| ensures r.variables[i] == s.variables[i] {
        assert b.variables[i] in b.variables;
      }
      assert r.variables == s.variables;
    }
  }
}
