/**
 Selecting the panels of a Perses dashboard by title. Panels are kept in a map from reference to
 panel, and a map is iterated in any order.
 */
module PanelSelection {
  import opened Kube

  /** References to titles. */
  type Panels = map<string, string>

  /** The table from title to reference: every wanted title that some panel has, with one of the
      panels that have it. */
  ghost predicate IsTable(panels: Panels, wanted: set<string>, all: bool, table: map<string, string>) {
    && (forall t :: t in table ==> table[t] in panels && panels[table[t]] == t && (all || t in wanted))
    && (forall r :: r in panels && (all || panels[r] in wanted) ==> panels[r] in table)
  }

  /** The references that a table gives for the requested titles, in their order. */
  function Picked(table: map<string, string>, titles: seq<string>): seq<string> {
    if titles == [] then []
    else
      var t := titles[|titles| - 1];
      Picked(table, titles[..|titles| - 1]) + if t in table then [table[t]] else []
  }

  function Titles(requested: seq<string>): set<string> {
    set t | t in requested
  }

  /** The first loop of toEmbeddedPersesPanels. */
  method RefByTitle(panels: Panels, requested: seq<string>) returns (table: map<string, string>)
    ensures IsTable(panels, Titles(requested), requested == [], table)
  {
    table := map[];
    var todo := panels.Keys;
    while todo != {}
      invariant todo <= panels.Keys
      invariant forall t :: t in table ==> table[t] in panels && panels[table[t]] == t && (requested == [] || t in requested)
      invariant forall r :: r in panels && r !in todo && (requested == [] || panels[r] in requested) ==> panels[r] in table
      decreases |todo|
    {
      var ref :| ref in todo;
      todo := todo - {ref};
      if requested != [] && panels[ref] !in requested { continue; }
      table := table[panels[ref] := ref];
    }
  }

  /** What the second loop makes of a table: the requested order, or each entry once. */
  ghost predicate Uses(requested: seq<string>, table: map<string, string>, selected: seq<string>) {
    if requested == [] then Distinct(selected) && forall r :: r in selected <==> r in table.Values
    else selected == Picked(table, requested)
  }

  /** Some order of iterating the panels leads to this selection. */
  ghost predicate IsSelection(panels: Panels, requested: seq<string>, selected: seq<string>) {
    exists table :: IsTable(panels, Titles(requested), requested == [], table) && Uses(requested, table, selected)
  }

  /** The selection in toEmbeddedPersesPanels. */
  method SelectPanels(panels: Panels, requested: seq<string>) returns (selected: seq<string>)
    ensures IsSelection(panels, requested, selected)
  {
    var refByTitle := RefByTitle(panels, requested);
    selected := [];
    if |requested| == 0 {
      var todo := refByTitle.Keys;
      while todo != {}
        invariant todo <= refByTitle.Keys && Distinct(selected)
        invariant forall r :: r in selected <==> exists t :: t in refByTitle && t !in todo && refByTitle[t] == r
        decreases |todo|
      {
        var title :| title in todo;
        todo := todo - {title};
        assert refByTitle[title] !in selected;
        selected := selected + [refByTitle[title]];
      }
    } else {
      for i := 0 to |requested|
        invariant selected == Picked(refByTitle, requested[..i])
      {
        assert requested[..i + 1][..i] == requested[..i];
        if requested[i] in refByTitle {
          selected := selected + [refByTitle[requested[i]]];
        }
      }
      assert requested[..|requested|] == requested;
    }
    assert Uses(requested, refByTitle, selected);
  }

  predicate Distinct(s: seq<string>) {
    forall i, j :: 0 <= i < j < |s| ==> s[i] != s[j]
  }

  // ---------------------------------------------------------------- a request names panels

  /** The requested titles that some panel has, in order, repetitions included. */
  function Existing(panels: Panels, titles: seq<string>): seq<string> {
    if titles == [] then []
    else
      var t := titles[|titles| - 1];
      Existing(panels, titles[..|titles| - 1]) + if t in panels.Values then [t] else []
  }

  /** Each reference names a panel with the title. */
  ghost predicate Names(panels: Panels, refs: seq<string>, titles: seq<string>) {
    |refs| == |titles| && forall i :: 0 <= i < |refs| ==> refs[i] in panels && panels[refs[i]] == titles[i]
  }

  lemma {:induction false} PickedNames(panels: Panels, requested: seq<string>, titles: seq<string>, table: map<string, string>)
    requires IsTable(panels, Titles(requested), false, table) && forall t :: t in titles ==> t in requested
    ensures Names(panels, Picked(table, titles), Existing(panels, titles))
  {
    if titles != [] {
      PickedNames(panels, requested, titles[..|titles| - 1], table);
      var t := titles[|titles| - 1];
      assert t in titles;
      assert t in table ==> table[t] in panels && panels[table[t]] == t;
      if t in panels.Values {
        var r :| r in panels && panels[r] == t;
        assert t in table;
      }
    }
  }

  /** Whatever the iteration order: a non-empty request gets references in request order, one for
      every requested title that exists, each naming a panel with that title. */
  lemma SelectionFollowsRequest(panels: Panels, requested: seq<string>, selected: seq<string>)
    requires requested != [] && IsSelection(panels, requested, selected)
    ensures Names(panels, selected, Existing(panels, requested))
  {
    var table :| IsTable(panels, Titles(requested), false, table) && Uses(requested, table, selected);
    PickedNames(panels, requested, requested, table);
  }

  /** The i-th selected panel has the title. */
  predicate Shows(panels: Panels, selected: seq<string>, i: nat, title: string) {
    i < |selected| && selected[i] in panels && panels[selected[i]] == title
  }

  /** An empty request gets exactly one reference per distinct title. */
  lemma EmptyRequestTakesEachTitleOnce(panels: Panels, selected: seq<string>, title: string)
    requires IsSelection(panels, [], selected) && title in panels.Values
    ensures exists i: nat :: Shows(panels, selected, i, title)
    ensures forall i: nat, j: nat :: Shows(panels, selected, i, title) && Shows(panels, selected, j, title) ==> i == j
  {
    var table :| IsTable(panels, Titles([]), true, table) && Uses([], table, selected);
    var r :| r in panels && panels[r] == title;
    assert title in table;
    assert table[title] in table.Values && table[title] in selected;
    var k :| 0 <= k < |selected| && selected[k] == table[title];
    assert Shows(panels, selected, k, title);
    forall i: nat | Shows(panels, selected, i, title) ensures i == k {
      assert selected[i] in selected && selected[i] in table.Values;
      var t :| t in table && table[t] == selected[i];
      assert t == title;
      assert selected[i] == selected[k];
    }
  }

  lemma {:induction false} PickedOnce(panels: Panels, requested: seq<string>, titles: seq<string>, a: map<string, string>, b: map<string, string>)
    requires IsTable(panels, Titles(requested), false, a) && IsTable(panels, Titles(requested), false, b)
    requires forall r, s :: r in panels && s in panels && panels[r] == panels[s] && panels[r] in requested ==> r == s
    ensures Picked(a, titles) == Picked(b, titles)
  {
    if titles != [] {
      PickedOnce(panels, requested, titles[..|titles| - 1], a, b);
      var t := titles[|titles| - 1];
      if t in a { assert panels[a[t]] == t && t in b; }
      if t in b { assert panels[b[t]] == t && t in a; }
    }
  }

  /** The order of iteration shows only where two panels share a requested title. */
  lemma SelectionIsUnique(panels: Panels, requested: seq<string>, s: seq<string>, t: seq<string>)
    requires requested != [] && IsSelection(panels, requested, s) && IsSelection(panels, requested, t)
    requires forall p, q :: p in panels && q in panels && panels[p] == panels[q] && panels[p] in requested ==> p == q
    ensures s == t
  {
    var a :| IsTable(panels, Titles(requested), false, a) && Uses(requested, a, s);
    var b :| IsTable(panels, Titles(requested), false, b) && Uses(requested, b, t);
    PickedOnce(panels, requested, requested, a, b);
  }
}
