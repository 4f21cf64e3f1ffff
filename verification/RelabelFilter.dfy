/**
 The namespace filter of a federated ServiceMonitor: a keep rule whose regular expression is put
 together from namespace names. The expression is read back by a parser for the regular
 expression fragment it lies in, and matched against the whole label value as Prometheus does.
 */
module RelabelFilter {
  import opened Kube
  import opened Lists
  import opened Ordering

  // ---------------------------------------------------------------- regular expressions

  datatype Re = Empty | Chr(c: char) | Cat(l: Re, r: Re) | Alt(l: Re, r: Re)

  /** re matches the whole of v. */
  ghost predicate Matches(re: Re, v: string) {
    match re
    case Empty => v == ""
    case Chr(c) => v == [c]
    case Cat(l, r) => exists k :: 0 <= k <= |v| && Matches(l, v[..k]) && Matches(r, v[k..])
    case Alt(l, r) => Matches(l, v) || Matches(r, v)
  }

  predicate IsMeta(c: char) {
    c in "\\.+*?()|[]{}^$"
  }

  /** The end of an alternative. */
  predicate AtEnd(s: string) {
    s == "" || s[0] == '|' || s[0] == ')'
  }

  /** Alternatives, up to the end or an unmatched closing parenthesis. None: not in the fragment
      of literals, groups and alternatives. The second part of a result is the unread text. */
  function ParseAlt(s: string): (r: Option<(Re, string)>)
    ensures r.Some? ==> |r.value.1| <= |s|
    decreases |s|, 2
  {
    var first := ParseCat(s);
    if first.None? || first.value.1 == "" || first.value.1[0] != '|' then first
    else
      var rest := ParseAlt(first.value.1[1..]);
      if rest.None? then None else Some((Alt(first.value.0, rest.value.0), rest.value.1))
  }

  function ParseCat(s: string): (r: Option<(Re, string)>)
    ensures r.Some? ==> |r.value.1| <= |s|
    decreases |s|, 1
  {
    if AtEnd(s) then Some((Empty, s))
    else
      var first := ParseAtom(s);
      if first.None? then None
      else
        var rest := ParseCat(first.value.1);
        if rest.None? then None else Some((Cat(first.value.0, rest.value.0), rest.value.1))
  }

  function ParseAtom(s: string): (r: Option<(Re, string)>)
    requires s != ""
    ensures r.Some? ==> |r.value.1| < |s|
    decreases |s|, 0
  {
    if s[0] == '(' then
      var inner := ParseAlt(s[1..]);
      if inner.None? || inner.value.1 == "" || inner.value.1[0] != ')' then None
      else Some((inner.value.0, inner.value.1[1..]))
    else if IsMeta(s[0]) then None
    else Some((Chr(s[0]), s[1..]))
  }

  function Parse(s: string): Option<Re> {
    var r := ParseAlt(s);
    if r.Some? && r.value.1 == "" then Some(r.value.0) else None
  }

  // ---------------------------------------------------------------- the expression of the keep rule

  predicate IsLower(c: char) {
    'a' <= c <= 'z' || '0' <= c <= '9'
  }

  /** A label as in section 2.1 of RFC 1123, in lower case: the form of namespace names. */
  predicate IsLabel(s: string) {
    && 0 < |s| <= 63 && IsLower(s[0]) && IsLower(s[|s| - 1])
    && forall i :: 0 <= i < |s| ==> IsLower(s[i]) || s[i] == '-'
  }

  predicate Plain(s: string) {
    forall i :: 0 <= i < |s| ==> !IsMeta(s[i])
  }

  lemma LabelsArePlain(s: string)
    requires IsLabel(s)
    ensures Plain(s)
  {
  }

  /** strings.Join(names, "|") */
  function Join(names: seq<string>): string {
    if names == [] then "" else if |names| == 1 then names[0] else names[0] + ['|'] + Join(names[1..])
  }

  function KeepRegex(names: seq<string>): string {
    ['('] + Join(names) + [')']
  }

  function Word(w: string): Re {
    if w == "" then Empty else Cat(Chr(w[0]), Word(w[1..]))
  }

  function AltOf(names: seq<string>): Re
    requires names != []
  {
    if |names| == 1 then Word(names[0]) else Alt(Word(names[0]), AltOf(names[1..]))
  }

  lemma {:induction false} ParseWord(w: string, rest: string)
    requires Plain(w) && AtEnd(rest)
    ensures ParseCat(w + rest) == Some((Word(w), rest))
  {
    if w == "" {
      assert w + rest == rest;
    } else {
      assert (w + rest)[1..] == w[1..] + rest;
      assert (w + rest)[0] == w[0];
      ParseWord(w[1..], rest);
    }
  }

  lemma {:induction false} ParseNames(names: seq<string>, rest: string)
    requires names != [] && (forall n :: n in names ==> Plain(n)) && rest != "" && rest[0] == ')'
    ensures ParseAlt(Join(names) + rest) == Some((AltOf(names), rest))
  {
    if |names| == 1 {
      ParseWord(names[0], rest);
    } else {
      var more := ['|'] + (Join(names[1..]) + rest);
      assert Join(names) + rest == names[0] + more;
      ParseWord(names[0], more);
      assert more[1..] == Join(names[1..]) + rest;
      ParseNames(names[1..], rest);
    }
  }

  lemma {:induction false} WordLanguage(w: string, v: string)
    ensures Matches(Word(w), v) <==> v == w
  {
    if w != "" {
      var re := Word(w);
      if v == w {
        WordLanguage(w[1..], v[1..]);
        assert v[..1] == [w[0]] && Matches(re.l, v[..1]) && Matches(re.r, v[1..]);
      }
      if Matches(re, v) {
        var k :| 0 <= k <= |v| && Matches(Chr(w[0]), v[..k]) && Matches(Word(w[1..]), v[k..]);
        WordLanguage(w[1..], v[k..]);
        assert v == v[..k] + v[k..] && w == [w[0]] + w[1..];
      }
    }
  }

  lemma {:induction false} AltLanguage(names: seq<string>, v: string)
    requires names != []
    ensures Matches(AltOf(names), v) <==> v in names
  {
    WordLanguage(names[0], v);
    if |names| > 1 { AltLanguage(names[1..], v); }
  }

  lemma CatEmpty(re: Re, v: string)
    ensures Matches(Cat(re, Empty), v) <==> Matches(re, v)
  {
    if Matches(re, v) {
      assert v[..|v|] == v && Matches(Empty, v[|v|..]);
    }
    if Matches(Cat(re, Empty), v) {
      var k :| 0 <= k <= |v| && Matches(re, v[..k]) && Matches(Empty, v[k..]);
      assert v[..k] == v;
    }
  }

  /** The fully anchored language of the expression joined from namespace names (and "") is the
      set of those names, nothing more and nothing less. */
  lemma KeepRegexLanguage(names: seq<string>, v: string)
    requires names != [] && forall n :: n in names ==> n == "" || IsLabel(n)
    ensures var re := Parse(KeepRegex(names));
            re.Some? && (Matches(re.value, v) <==> v in names)
  {
    var s := KeepRegex(names);
    var inner := Join(names) + [')'];
    forall n | n in names ensures Plain(n) { if n != "" { LabelsArePlain(n); } }
    assert s[0] == '(' && s[1..] == inner;
    ParseNames(names, [')']);
    assert [')'][1..] == "";
    assert ParseAtom(s) == Some((AltOf(names), ""));
    assert ParseCat("") == Some((Empty, ""));
    assert ParseCat(s) == Some((Cat(AltOf(names), Empty), ""));
    CatEmpty(AltOf(names), v);
    AltLanguage(names, v);
  }

  // ---------------------------------------------------------------- the selected namespaces

  /** project is the value of the Rancher project label, "" when missing. */
  datatype Namespace = Namespace(name: string, project: string)

  /** The namespace Rancher keeps for the project itself. */
  predicate OwnedByProject(n: Namespace) {
    n.name == "cattle-project-" + n.project
  }

  /** What one namespace adds to the names. */
  function Names(n: Namespace): seq<string> {
    if OwnedByProject(n) then [] else [n.name]
  }

  /** "" stands for metrics without a namespace. */
  function Selected(items: seq<Namespace>): seq<string> {
    [""] + Collect(Names, items)
  }

  function SortedNames(items: seq<Namespace>): seq<string> {
    Sort(LessEq, Selected(items))
  }

  /** Collecting, sorting and joining the names in copyServiceMonitor. */
  method NamespaceFilter(items: seq<Namespace>) returns (regex: string)
    ensures regex == KeepRegex(SortedNames(items))
  {
    var namespaces := [""];  // for non-namespaced resources
    for k := 0 to |items|
      invariant namespaces == Selected(items[..k])
    {
      assert items[..k + 1][..k] == items[..k];
      if items[k].name == "cattle-project-" + items[k].project { continue; }
      namespaces := namespaces + [items[k].name];
    }
    assert items[..|items|] == items;
    namespaces := Sort(LessEq, namespaces);
    regex := ['('] + Join(namespaces) + [')'];
  }

  lemma SelectedNames(items: seq<Namespace>, v: string)
    ensures v in Selected(items) <==> v == "" || exists n :: n in items && !OwnedByProject(n) && n.name == v
  {
    Collected(Names, items, v);
  }

  lemma StringOrder()
    ensures Preorder(LessEq)
  {
    forall a: string, b: string ensures LessEq(a, b) || LessEq(b, a) { LessEqTotal(a, b); }
    forall a: string, b: string, c: string | LessEq(a, b) && LessEq(b, c) ensures LessEq(a, c) {
      LessEqTransitive(a, b, c);
    }
  }

  lemma StringsAntisymmetric(s: seq<string>)
    ensures Antisymmetric(LessEq, s)
  {
    forall i, j | 0 <= i < |s| && 0 <= j < |s| && LessEq(s[i], s[j]) && LessEq(s[j], s[i]) ensures s[i] == s[j] {
      LessEqTotal(s[i], s[j]);
    }
  }

  lemma SortIgnoresOrder(a: seq<string>, b: seq<string>)
    requires multiset(a) == multiset(b)
    ensures Sort(LessEq, a) == Sort(LessEq, b)
  {
    StringOrder();
    SortSorts(LessEq, a);
    SortSorts(LessEq, b);
    StringsAntisymmetric(Sort(LessEq, a));
    SortedOnce(LessEq, Sort(LessEq, a), Sort(LessEq, b));
  }

  lemma SortedNamesSame(items: seq<Namespace>, v: string)
    ensures v in SortedNames(items) <==> v in Selected(items)
    ensures SortedNames(items) != []
  {
    StringOrder();
    SortSorts(LessEq, Selected(items));
    SelectedNames(items, "");
    assert v in SortedNames(items) <==> v in multiset(SortedNames(items));
    assert "" in multiset(SortedNames(items));
  }

  /** The text of the filter does not depend on the order in which the namespaces are listed. */
  lemma FilterIgnoresOrder(a: seq<Namespace>, b: seq<Namespace>)
    requires multiset(a) == multiset(b)
    ensures KeepRegex(SortedNames(a)) == KeepRegex(SortedNames(b))
  {
    CollectIgnoresOrder(Names, a, b);
    SortIgnoresOrder(Selected(a), Selected(b));
  }

  // ---------------------------------------------------------------- the relabel pipeline

  type Labels = map<string, string>

  /** A metric relabelling rule: a keep rule, or a rule of another kind. */
  datatype Rule = Keep(sources: seq<string>, regex: string) | OtherRule(text: string)

  function Value(l: Labels, name: string): string {
    if name in l then l[name] else ""
  }

  function Values(l: Labels, names: seq<string>): string {
    if names == [] then "" else if |names| == 1 then Value(l, names[0]) else Value(l, names[0]) + [';'] + Values(l, names[1..])
  }

  /** One rule on the labels of one series; None drops the series. engine stands for every rule
      that is not a keep rule with an expression of the fragment. */
  ghost function Relabel(engine: (Rule, Labels) -> Option<Labels>, r: Rule, l: Labels): Option<Labels> {
    if r.Keep? && Parse(r.regex).Some? then
      if Matches(Parse(r.regex).value, Values(l, r.sources)) then Some(l) else None
    else engine(r, l)
  }

  ghost function Pipeline(engine: (Rule, Labels) -> Option<Labels>, rules: seq<Rule>, l: Labels): Option<Labels> {
    if rules == [] then Some(l)
    else
      var r := Relabel(engine, rules[0], l);
      if r.None? then None else Pipeline(engine, rules[1..], r.value)
  }

  datatype Endpoint = Endpoint(honorLabels: bool, rules: seq<Rule>, rest: string)

  function KeepNamespaces(regex: string): Rule {
    Keep(["namespace"], regex)
  }

  function Filtered(e: Endpoint, keep: Rule): Endpoint {
    Endpoint(true, if e.rules != [] && e.rules[0] == keep then e.rules else [keep] + e.rules, e.rest)
  }

  /** The endpoint loop of copyServiceMonitor. */
  method FilterEndpoints(endpoints: array<Endpoint>, keep: Rule)
    modifies endpoints
    ensures forall i :: 0 <= i < endpoints.Length ==> endpoints[i] == Filtered(old(endpoints[i]), keep)
  {
    for i := 0 to endpoints.Length
      invariant forall j :: 0 <= j < i ==> endpoints[j] == Filtered(old(endpoints[j]), keep)
      invariant forall j :: i <= j < endpoints.Length ==> endpoints[j] == old(endpoints[j])
    {
      var e := endpoints[i];
      e := e.(honorLabels := true);
      if |e.rules| == 0 || keep != e.rules[0] {
        e := e.(rules := [keep] + e.rules);
      }
      endpoints[i] := e;
    }
  }

  lemma {:induction false} KeepOnTop(engine: (Rule, Labels) -> Option<Labels>, keep: Rule, rules: seq<Rule>, l: Labels)
    requires keep.Keep? && Parse(keep.regex).Some?
    ensures Pipeline(engine, [keep] + rules, l)
         == if Matches(Parse(keep.regex).value, Values(l, keep.sources)) then Pipeline(engine, rules, l) else None
  {
    assert ([keep] + rules)[0] == keep && ([keep] + rules)[1..] == rules;
  }

  /** The filtered endpoint drops exactly the series of other namespaces: a series passes if it
      passes the endpoint of the source and its namespace is empty or one listed for the
      Prometheus and not the project's own; and then it comes out the same. */
  lemma FilterIsExact(engine: (Rule, Labels) -> Option<Labels>, items: seq<Namespace>, e: Endpoint, l: Labels)
    requires forall n :: n in items ==> IsLabel(n.name)
    ensures var keep := KeepNamespaces(KeepRegex(SortedNames(items)));
            var ns := Value(l, "namespace");
            Pipeline(engine, Filtered(e, keep).rules, l)
            == if ns == "" || exists n :: n in items && !OwnedByProject(n) && n.name == ns
               then Pipeline(engine, e.rules, l) else None
  {
    var names := SortedNames(items);
    var keep := KeepNamespaces(KeepRegex(names));
    var ns := Value(l, "namespace");
    SortedNamesSame(items, ns);
    SelectedNames(items, ns);
    forall n | n in names ensures n == "" || IsLabel(n) {
      SortedNamesSame(items, n);
      SelectedNames(items, n);
    }
    KeepRegexLanguage(names, ns);
    assert Values(l, keep.sources) == ns;
    KeepOnTop(engine, keep, e.rules, l);
    if e.rules != [] && e.rules[0] == keep {
      assert e.rules == [keep] + e.rules[1..];
      KeepOnTop(engine, keep, e.rules[1..], l);
    }
  }

  /** The rule is never doubled: filtering a filtered endpoint changes nothing, and one that lacks
      the rule gets it once. */
  lemma FilterOnce(e: Endpoint, keep: Rule)
    ensures Filtered(Filtered(e, keep), keep) == Filtered(e, keep)
    ensures keep !in e.rules ==> multiset(Filtered(e, keep).rules)[keep] == 1
  {
    if keep !in e.rules {
      assert keep !in multiset(e.rules);
    }
  }
}
