/**
 Rewriting the datasource of a Grafana dashboard model: panels, rows of collapsed panels, and
 template variables.
 */
module JsonRewrite {
  import opened Kube

  /** An object key: one the rewrite looks at, or any other. */
  datatype Key = Datasource | Collapsed | Panels | Templating | List | Type | Id | Uid | Other(name: string)

  /** A JSON value; numbers are opaque. */
  datatype Json = Null | Bool(b: bool) | Num(text: string) | Str(s: string) | Arr(items: seq<Json>) | Obj(fields: Fields)

  type Fields = map<Key, Json>

  /** Failed is the error of decoding something that is no object, Panic a write to a nil map. */
  datatype Outcome = Ok(model: Json) | Failed | Panic

  const DATASOURCE_TYPE := "datasource"

  // ---------------------------------------------------------------- panels

  /** A collapsed row with a list of panels. */
  predicate IsRow(p: Fields) {
    Collapsed in p && p[Collapsed] == Bool(true) && Panels in p && p[Panels].Arr?
  }

  function UpdatedPanel(p: Json, ds: string): (r: Json)
    requires p.Obj?
    ensures r.Obj?
    decreases p, 1
  {
    var f := p.fields[Datasource := Str(ds)];
    Obj(if IsRow(p.fields) then f[Panels := Arr(UpdatedPanels(p.fields[Panels].items, ds))] else f)
  }

  /** What getUpdatedPanels returns: panels that are no objects are dropped. */
  function UpdatedPanels(panels: seq<Json>, ds: string): seq<Json>
    decreases panels, 0
  {
    if panels == [] then []
    else
      var last := panels[|panels| - 1];
      UpdatedPanels(panels[..|panels| - 1], ds) + if last.Obj? then [UpdatedPanel(last, ds)] else []
  }

  method GetUpdatedPanels(panels: seq<Json>, ds: string) returns (updated: seq<Json>)
    ensures updated == UpdatedPanels(panels, ds)
    decreases panels
  {
    updated := [];
    for i := 0 to |panels|
      invariant updated == UpdatedPanels(panels[..i], ds)
    {
      assert panels[..i + 1][..i] == panels[..i];
      if !panels[i].Obj? { continue; }
      var panel := panels[i].fields;
      panel := panel[Datasource := Str(ds)];
      if Collapsed in panel && panel[Collapsed].Bool? && panel[Collapsed].b {
        if Panels in panel && panel[Panels].Arr? {
          assert panel[Panels] == panels[i].fields[Panels];
          var nested := GetUpdatedPanels(panel[Panels].items, ds);
          panel := panel[Panels := Arr(nested)];
        }
      }
      updated := updated + [Obj(panel)];
    }
    assert panels[..|panels|] == panels;
  }

  // ---------------------------------------------------------------- template variables

  predicate IsVariable(v: Json) {
    v.Obj? && Type in v.fields && v.fields[Type].Str?
  }

  predicate IsDatasourceVariable(v: Json) {
    IsVariable(v) && v.fields[Type].s == DATASOURCE_TYPE
  }

  function SetDatasource(v: Json, ds: string): Json
    requires v.Obj?
  {
    Obj(v.fields[Datasource := Str(ds)])
  }

  /** Variables without a type, and those of type datasource, are dropped. */
  function UpdatedVariables(vars: seq<Json>, ds: string): seq<Json> {
    if vars == [] then []
    else
      var v := vars[|vars| - 1];
      UpdatedVariables(vars[..|vars| - 1], ds)
      + if IsVariable(v) && !IsDatasourceVariable(v) then [SetDatasource(v, ds)] else []
  }

  /** The new list as encoded: an empty one was never allocated and becomes null. */
  function Encoded(vars: seq<Json>): Json {
    if vars == [] then Null else Arr(vars)
  }

  function UpdatedTemplating(t: Json, ds: string): Json {
    if t.Obj? && List in t.fields && t.fields[List].Arr?
    then Obj(t.fields[List := Encoded(UpdatedVariables(t.fields[List].items, ds))])
    else t
  }

  function Rewritten(m: Fields, ds: string): Fields {
    if Panels in m && m[Panels].Arr? then
      var m1 := m[Panels := Arr(UpdatedPanels(m[Panels].items, ds))];
      if Templating in m then m1[Templating := UpdatedTemplating(m[Templating], ds)] else m1
    else m
  }

  /** What replaceDatasource returns; null decodes to an object without keys and comes back as it is. */
  function Rewrite(model: Json, ds: string): Outcome {
    match model
    case Obj(m) => Ok(Obj(Rewritten(m, ds)))
    case Null => Ok(Null)
    case _ => Failed
  }

  method UpdateVariables(vars: seq<Json>, ds: string) returns (updated: seq<Json>)
    ensures updated == UpdatedVariables(vars, ds)
  {
    updated := [];
    for i := 0 to |vars|
      invariant updated == UpdatedVariables(vars[..i], ds)
    {
      assert vars[..i + 1][..i] == vars[..i];
      if !vars[i].Obj? { continue; }
      var vr := vars[i].fields;
      if Type !in vr || !vr[Type].Str? { continue; }
      var ty := vr[Type].s;
      vr := vr[Datasource := Str(ds)];
      if ty != DATASOURCE_TYPE {
        updated := updated + [Obj(vr)];
      }
    }
    assert vars[..|vars|] == vars;
  }

  method ReplaceDatasource(model: Json, ds: string) returns (r: Outcome)
    ensures r == Rewrite(model, ds)
  {
    if model.Null? { return Ok(model); }
    if !model.Obj? { return Failed; }
    var val := model.fields;
    if Panels !in val || !val[Panels].Arr? { return Ok(model); }
    var panels := GetUpdatedPanels(val[Panels].items, ds);
    val := val[Panels := Arr(panels)];
    if Templating !in val || !val[Templating].Obj? {
      assert Templating in val ==> val[Templating := val[Templating]] == val;
      return Ok(Obj(val));
    }
    var list := val[Templating].fields;
    if List !in list || !list[List].Arr? {
      assert val[Templating := val[Templating]] == val;
      return Ok(Obj(val));
    }
    var vars := UpdateVariables(list[List].items, ds);
    list := list[List := Encoded(vars)];
    val := val[Templating := Obj(list)];
    return Ok(Obj(val));
  }

  /** addDashboardID; decoding null leaves a nil map. */
  function AddId(model: Json, id: string, uid: string): Outcome {
    match model
    case Obj(m) => Ok(Obj(m[Id := Num(id)][Uid := Str(uid)]))
    case Null => Panic
    case _ => Failed
  }

  // ---------------------------------------------------------------- the last writer wins

  lemma {:induction false} PanelTwice(p: Json, d1: string, d2: string)
    requires p.Obj?
    ensures UpdatedPanel(UpdatedPanel(p, d1), d2) == UpdatedPanel(p, d2)
    decreases p, 1
  {
    var q := UpdatedPanel(p, d1).fields;
    if IsRow(p.fields) {
      var items := p.fields[Panels].items;
      PanelsTwice(items, d1, d2);
      assert IsRow(q) && q[Panels] == Arr(UpdatedPanels(items, d1));
      assert q[Datasource := Str(d2)][Panels := Arr(UpdatedPanels(items, d2))]
          == p.fields[Datasource := Str(d2)][Panels := Arr(UpdatedPanels(items, d2))];
    } else {
      assert !IsRow(q) && q[Datasource := Str(d2)] == p.fields[Datasource := Str(d2)];
    }
  }

  lemma {:induction false} PanelsTwice(ps: seq<Json>, d1: string, d2: string)
    ensures UpdatedPanels(UpdatedPanels(ps, d1), d2) == UpdatedPanels(ps, d2)
    decreases ps, 0
  {
    if ps != [] {
      var init, last := ps[..|ps| - 1], ps[|ps| - 1];
      PanelsTwice(init, d1, d2);
      var once := UpdatedPanels(ps, d1);
      if last.Obj? {
        PanelTwice(last, d1, d2);
        assert once[..|once| - 1] == UpdatedPanels(init, d1);
      } else {
        assert once == UpdatedPanels(init, d1);
      }
    }
  }

  lemma {:induction false} VariablesTwice(vs: seq<Json>, d1: string, d2: string)
    ensures UpdatedVariables(UpdatedVariables(vs, d1), d2) == UpdatedVariables(vs, d2)
    ensures UpdatedVariables(vs, d1) == [] <==> UpdatedVariables(vs, d2) == []
  {
    if vs != [] {
      var init, v := vs[..|vs| - 1], vs[|vs| - 1];
      VariablesTwice(init, d1, d2);
      var once := UpdatedVariables(vs, d1);
      if IsVariable(v) && !IsDatasourceVariable(v) {
        assert once[..|once| - 1] == UpdatedVariables(init, d1);
        assert SetDatasource(SetDatasource(v, d1), d2) == SetDatasource(v, d2);
      } else {
        assert once == UpdatedVariables(init, d1);
      }
    }
  }

  lemma TemplatingTwice(t: Json, d1: string, d2: string)
    ensures UpdatedTemplating(UpdatedTemplating(t, d1), d2) == UpdatedTemplating(t, d2)
  {
    if t.Obj? && List in t.fields && t.fields[List].Arr? {
      VariablesTwice(t.fields[List].items, d1, d2);
      var u := UpdatedTemplating(t, d1).fields;
      assert u[List := Encoded(UpdatedVariables(t.fields[List].items, d2))]
          == t.fields[List := Encoded(UpdatedVariables(t.fields[List].items, d2))];
      if u[List].Null? {
        assert UpdatedTemplating(Obj(u), d2) == Obj(u);
      }
    }
  }

  lemma RewrittenTwice(m: Fields, d1: string, d2: string)
    ensures Rewritten(Rewritten(m, d1), d2) == Rewritten(m, d2)
  {
    if Panels in m && m[Panels].Arr? {
      PanelsTwice(m[Panels].items, d1, d2);
      if Templating in m { TemplatingTwice(m[Templating], d1, d2); }
      assert Rewritten(Rewritten(m, d1), d2) == Rewritten(m, d2);
    }
  }

  /** R(d2, R(d1, m)) = R(d2, m) for every JSON value; with d1 = d2 the rewrite is idempotent. */
  lemma LastWriterWins(model: Json, d1: string, d2: string)
    requires Rewrite(model, d1).Ok?
    ensures Rewrite(Rewrite(model, d1).model, d2) == Rewrite(model, d2)
  {
    if model.Obj? { RewrittenTwice(model.fields, d1, d2); }
  }

  /** Setting the identity of an existing dashboard and rewriting its datasource commute. */
  lemma RewriteCommutesWithId(m: Fields, ds: string, id: string, uid: string)
    ensures AddId(Rewrite(Obj(m), ds).model, id, uid) == Rewrite(AddId(Obj(m), id, uid).model, ds)
  {
    var l := Rewritten(m, ds)[Id := Num(id)][Uid := Str(uid)];
    var r := Rewritten(m[Id := Num(id)][Uid := Str(uid)], ds);
    assert l == r;
  }

  // ---------------------------------------------------------------- what the rewrite reaches and what it keeps

  /** Every panel has the datasource, down through the rows. */
  ghost predicate AllSet(ps: seq<Json>, ds: string)
    decreases ps
  {
    forall i :: 0 <= i < |ps| ==>
      && ps[i].Obj? && Datasource in ps[i].fields && ps[i].fields[Datasource] == Str(ds)
      && (IsRow(ps[i].fields) ==> AllSet(ps[i].fields[Panels].items, ds))
  }

  lemma {:induction false} PanelsAllSet(ps: seq<Json>, ds: string)
    ensures AllSet(UpdatedPanels(ps, ds), ds)
    decreases ps
  {
    if ps != [] {
      var init, last := ps[..|ps| - 1], ps[|ps| - 1];
      PanelsAllSet(init, ds);
      if last.Obj? && IsRow(last.fields) { PanelsAllSet(last.fields[Panels].items, ds); }
    }
  }

  /** r is p but for the datasource and, in a row, the panels. */
  ghost predicate SamePanel(p: Json, r: Json)
    decreases p, 1
  {
    && p.Obj? && r.Obj?
    && (forall k :: k != Datasource && (k != Panels || !IsRow(p.fields)) ==>
          (k in p.fields <==> k in r.fields) && (k in p.fields ==> r.fields[k] == p.fields[k]))
    && (IsRow(p.fields) ==> IsRow(r.fields) && SamePanels(p.fields[Panels].items, r.fields[Panels].items))
  }

  ghost predicate SamePanels(ps: seq<Json>, rs: seq<Json>)
    decreases ps, 0
  {
    if ps == [] then rs == []
    else if ps[|ps| - 1].Obj? then
      rs != [] && SamePanel(ps[|ps| - 1], rs[|rs| - 1]) && SamePanels(ps[..|ps| - 1], rs[..|rs| - 1])
    else SamePanels(ps[..|ps| - 1], rs)
  }

  lemma {:induction false} PanelsKept(ps: seq<Json>, ds: string)
    ensures SamePanels(ps, UpdatedPanels(ps, ds))
    decreases ps
  {
    if ps != [] {
      var init, last := ps[..|ps| - 1], ps[|ps| - 1];
      PanelsKept(init, ds);
      var rs := UpdatedPanels(ps, ds);
      if last.Obj? {
        assert rs[..|rs| - 1] == UpdatedPanels(init, ds);
        if IsRow(last.fields) { PanelsKept(last.fields[Panels].items, ds); }
        assert SamePanel(last, UpdatedPanel(last, ds));
      } else {
        assert rs == UpdatedPanels(init, ds);
      }
    }
  }

  lemma {:induction false} VariablesSet(vs: seq<Json>, ds: string)
    ensures forall v :: v in UpdatedVariables(vs, ds) ==>
      IsVariable(v) && !IsDatasourceVariable(v) && Datasource in v.fields && v.fields[Datasource] == Str(ds)
  {
    if vs != [] { VariablesSet(vs[..|vs| - 1], ds); }
  }

  /** In a model with a panel list the rewrite reaches every panel through the collapsed rows, keeps
      the order of the panels and all their other keys, and leaves no variable of type datasource
      in a variable list. A model without a panel list comes back unchanged, variables included. */
  lemma RewriteReaches(m: Fields, ds: string)
    ensures var r := Rewritten(m, ds);
            if !(Panels in m && m[Panels].Arr?) then r == m
            else
              && Panels in r && r[Panels].Arr? && AllSet(r[Panels].items, ds) && SamePanels(m[Panels].items, r[Panels].items)
              && (forall k :: k != Panels && k != Templating ==> (k in r <==> k in m) && (k in m ==> r[k] == m[k]))
              && (Templating in r && r[Templating].Obj? && List in r[Templating].fields && r[Templating].fields[List].Arr? ==>
                    forall v :: v in r[Templating].fields[List].items ==>
                      IsVariable(v) && !IsDatasourceVariable(v) && Datasource in v.fields && v.fields[Datasource] == Str(ds))
  {
    if Panels in m && m[Panels].Arr? {
      PanelsAllSet(m[Panels].items, ds);
      PanelsKept(m[Panels].items, ds);
      if Templating in m && m[Templating].Obj? && List in m[Templating].fields && m[Templating].fields[List].Arr? {
        VariablesSet(m[Templating].fields[List].items, ds);
      }
    }
  }

  /** A list that held only datasource variables becomes null. */
  lemma EmptiedListIsNull(v: Json, ds: string)
    requires IsDatasourceVariable(v)
    ensures UpdatedTemplating(Obj(map[List := Arr([v])]), ds) == Obj(map[List := Null])
  {
    assert UpdatedVariables([v], ds) == UpdatedVariables([v][..0], ds);
  }
}
