/**
 The rewritten dashboard model, related to the model before key by key: every JSON value that
 replaceDatasource can be given, and nothing but the datasource changes hands.
 */
module JsonContents {
  import opened Kube
  import opened JsonRewrite

  // ---------------------------------------------------------------- panels

  /** r is the panel p with the datasource and, in a collapsed row, with its panels rewritten. */
  ghost predicate PanelOf(p: Json, r: Json, ds: string)
    decreases p, 1
  {
    && p.Obj? && r.Obj? && r.fields.Keys == p.fields.Keys + {Datasource} && r.fields[Datasource] == Str(ds)
    && (forall k :: k in p.fields && k != Datasource && k != Panels ==> r.fields[k] == p.fields[k])
    && (Panels in p.fields ==>
          if p.fields[Panels].Arr? && Collapsed in p.fields && p.fields[Collapsed] == Bool(true)
          then r.fields[Panels].Arr? && PanelsOf(p.fields[Panels].items, r.fields[Panels].items, ds)
          else r.fields[Panels] == p.fields[Panels])
  }

  /** rs are the objects among ps, in their order, each rewritten. */
  ghost predicate PanelsOf(ps: seq<Json>, rs: seq<Json>, ds: string)
    decreases ps, 0
  {
    if ps == [] then rs == []
    else if ps[|ps| - 1].Obj? then
      rs != [] && PanelOf(ps[|ps| - 1], rs[|rs| - 1], ds) && PanelsOf(ps[..|ps| - 1], rs[..|rs| - 1], ds)
    else PanelsOf(ps[..|ps| - 1], rs, ds)
  }

  lemma {:induction false} PanelsAreRewritten(ps: seq<Json>, ds: string)
    ensures PanelsOf(ps, UpdatedPanels(ps, ds), ds)
    decreases ps
  {
    if ps != [] {
      var init, last := ps[..|ps| - 1], ps[|ps| - 1];
      var rs := UpdatedPanels(ps, ds);
      PanelsAreRewritten(init, ds);
      if last.Obj? {
        assert rs[..|rs| - 1] == UpdatedPanels(init, ds);
        if IsRow(last.fields) { PanelsAreRewritten(last.fields[Panels].items, ds); }
        assert PanelOf(last, UpdatedPanel(last, ds), ds);
      } else {
        assert rs == UpdatedPanels(init, ds);
      }
    }
  }

  // ---------------------------------------------------------------- template variables

  /** A variable with a type that is no datasource. */
  predicate Stays(v: Json) {
    v.Obj? && Type in v.fields && v.fields[Type].Str? && v.fields[Type].s != "datasource"
  }

  ghost predicate VariableOf(v: Json, r: Json, ds: string) {
    && v.Obj? && r.Obj? && r.fields.Keys == v.fields.Keys + {Datasource} && r.fields[Datasource] == Str(ds)
    && forall k :: k in v.fields && k != Datasource ==> r.fields[k] == v.fields[k]
  }

  /** rs are the variables of vs that stay, in their order, each with the datasource. */
  ghost predicate VariablesOf(vs: seq<Json>, rs: seq<Json>, ds: string) {
    if vs == [] then rs == []
    else if Stays(vs[|vs| - 1]) then
      rs != [] && VariableOf(vs[|vs| - 1], rs[|rs| - 1], ds) && VariablesOf(vs[..|vs| - 1], rs[..|rs| - 1], ds)
    else VariablesOf(vs[..|vs| - 1], rs, ds)
  }

  lemma {:induction false} VariablesStay(vs: seq<Json>, ds: string)
    ensures VariablesOf(vs, UpdatedVariables(vs, ds), ds)
    ensures UpdatedVariables(vs, ds) == [] <==> forall v :: v in vs ==> !Stays(v)
  {
    if vs != [] {
      var init, v := vs[..|vs| - 1], vs[|vs| - 1];
      var rs := UpdatedVariables(vs, ds);
      VariablesStay(init, ds);
      assert forall x :: x in vs <==> x in init || x == v;
      if Stays(v) {
        assert rs[..|rs| - 1] == UpdatedVariables(init, ds);
      } else {
        assert rs == UpdatedVariables(init, ds);
      }
    }
  }

  /** A list of which nothing stays becomes null. */
  ghost predicate ListOf(vs: seq<Json>, l: Json, ds: string) {
    if forall v :: v in vs ==> !Stays(v) then l == Null else l.Arr? && VariablesOf(vs, l.items, ds)
  }

  ghost predicate TemplatingOf(t: Json, r: Json, ds: string) {
    if t.Obj? && List in t.fields && t.fields[List].Arr? then
      && r.Obj? && r.fields.Keys == t.fields.Keys && ListOf(t.fields[List].items, r.fields[List], ds)
      && forall k :: k in t.fields && k != List ==> r.fields[k] == t.fields[k]
    else r == t
  }

  // ---------------------------------------------------------------- the model

  ghost predicate ModelOf(m: Fields, r: Fields, ds: string) {
    if Panels in m && m[Panels].Arr? then
      && r.Keys == m.Keys && r[Panels].Arr? && PanelsOf(m[Panels].items, r[Panels].items, ds)
      && (Templating in m ==> TemplatingOf(m[Templating], r[Templating], ds))
      && forall k :: k in m && k != Panels && k != Templating ==> r[k] == m[k]
    else r == m
  }

  /** What comes of any model: an object is rewritten, panels down through the collapsed rows and the
      variables that stay, and keeps everything else; null stays null; nothing else decodes. */
  lemma RewriteIsExact(model: Json, ds: string)
    ensures match model
            case Obj(m) => Rewrite(model, ds).Ok? && Rewrite(model, ds).model.Obj? && ModelOf(m, Rewrite(model, ds).model.fields, ds)
            case Null => Rewrite(model, ds) == Ok(Null)
            case _ => Rewrite(model, ds) == Failed
  {
    if model.Obj? && Panels in model.fields && model.fields[Panels].Arr? {
      var m := model.fields;
      PanelsAreRewritten(m[Panels].items, ds);
      if Templating in m && m[Templating].Obj? && List in m[Templating].fields && m[Templating].fields[List].Arr? {
        VariablesStay(m[Templating].fields[List].items, ds);
      }
    }
  }

  /** The identity of an existing dashboard goes into every object, next to all other keys; a missing
      model panics. */
  lemma IdIsSet(model: Json, id: string, uid: string)
    ensures AddId(model, id, uid).Ok? <==> model.Obj?
    ensures AddId(model, id, uid).Panic? <==> model.Null?
    ensures model.Obj? ==>
              var r := AddId(model, id, uid).model;
              && r.Obj? && r.fields.Keys == model.fields.Keys + {Id, Uid} && r.fields[Id] == Num(id) && r.fields[Uid] == Str(uid)
              && forall k :: k in model.fields && k != Id && k != Uid ==> r.fields[k] == model.fields[k]
  {
  }
}
