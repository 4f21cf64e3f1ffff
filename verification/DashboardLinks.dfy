/**
 The query string of a dashboard link: the datasource variable put into the request, the escaped
 and sorted source variables, and the raw target variables after them.
 */
module DashboardLinks {
  import opened Kube
  import opened Ordering

  datatype VarType = SourceVar | TargetVar | OtherType(name: string)

  datatype Var = Var(name: string, value: string, kind: VarType)

  const DATASOURCE := "datasource"
  const PREFIX := "var-"

  /** The key under which a variable goes into the query. */
  function VarName(v: Var): string {
    if PREFIX <= v.name then v.name else PREFIX + v.name
  }

  // ---------------------------------------------------------------- upsertDatasourceVar

  predicate IsDatasourceVar(v: Var) {
    v.kind == SourceVar && v.name == DATASOURCE
  }

  function Pointed(vars: seq<Var>, ds: string): (r: seq<Var>)
    ensures |r| == |vars|
    ensures forall i :: 0 <= i < |r| ==> r[i] == if IsDatasourceVar(vars[i]) then vars[i].(value := ds) else vars[i]
  {
    seq(|vars|, i requires 0 <= i < |vars| => if IsDatasourceVar(vars[i]) then vars[i].(value := ds) else vars[i])
  }

  function Upserted(vars: seq<Var>, ds: string): seq<Var> {
    if exists v :: v in vars && IsDatasourceVar(v) then Pointed(vars, ds)
    else Pointed(vars, ds) + [Var(DATASOURCE, ds, SourceVar)]
  }

  /** upsertDatasourceVar; the variables of the request are rewritten in place. */
  method UpsertDatasourceVar(vars: array<Var>, ds: string) returns (result: seq<Var>)
    modifies vars
    ensures result == Upserted(old(vars[..]), ds)
    ensures vars[..] == Pointed(old(vars[..]), ds)
  {
    var found := false;
    for i := 0 to vars.Length
      invariant found <==> exists j :: 0 <= j < i && IsDatasourceVar(old(vars[j]))
      invariant forall j :: 0 <= j < i ==> vars[j] == if IsDatasourceVar(old(vars[j])) then old(vars[j]).(value := ds) else old(vars[j])
      invariant forall j :: i <= j < vars.Length ==> vars[j] == old(vars[j])
    {
      var v := vars[i];
      if v.kind == SourceVar && v.name == DATASOURCE {
        v := v.(value := ds);
        vars[i] := v;
        found := true;
      }
    }
    assert forall j :: 0 <= j < vars.Length ==> old(vars[..])[j] == old(vars[j]);
    result := vars[..];
    if !found {
      result := result + [Var(DATASOURCE, ds, SourceVar)];
    }
  }

  /** Afterwards there is a datasource variable, every one of them has the value, and all other
      variables are as they were. */
  lemma UpsertSets(vars: seq<Var>, ds: string)
    ensures exists v :: v in Upserted(vars, ds) && IsDatasourceVar(v)
    ensures forall v :: v in Upserted(vars, ds) && IsDatasourceVar(v) ==> v.value == ds
    ensures forall i :: 0 <= i < |vars| && !IsDatasourceVar(vars[i]) ==> Upserted(vars, ds)[i] == vars[i]
  {
    var r := Upserted(vars, ds);
    if v :| v in vars && IsDatasourceVar(v) {
      var i :| 0 <= i < |vars| && vars[i] == v;
      assert IsDatasourceVar(r[i]) && r[i] in r;
    } else {
      assert r[|vars|] == Var(DATASOURCE, ds, SourceVar) && r[|vars|] in r;
      assert forall i :: 0 <= i < |vars| ==> vars[i] in vars;
    }
  }

  lemma PointedTwice(vars: seq<Var>, ds: string, ds': string)
    ensures Pointed(Pointed(vars, ds), ds') == Pointed(vars, ds')
  {
  }

  /** A second upsert decides alone. */
  lemma UpsertTwice(vars: seq<Var>, ds: string, ds': string)
    ensures Upserted(Upserted(vars, ds), ds') == Upserted(vars, ds')
  {
    UpsertSets(vars, ds);
    PointedTwice(vars, ds, ds');
    var added := [Var(DATASOURCE, ds, SourceVar)];
    if v :| v in vars && IsDatasourceVar(v) {
    } else {
      assert Pointed(Pointed(vars, ds) + added, ds') == Pointed(vars, ds') + [Var(DATASOURCE, ds', SourceVar)];
    }
  }

  // ---------------------------------------------------------------- escaping

  predicate IsUnreserved(c: char) {
    'a' <= c <= 'z' || 'A' <= c <= 'Z' || '0' <= c <= '9' || c == '-' || c == '_' || c == '.' || c == '~'
  }

  /** Strings are sequences of bytes. */
  predicate IsByte(c: char) {
    c as int < 256
  }

  predicate IsBytes(s: string) {
    forall i :: 0 <= i < |s| ==> IsByte(s[i])
  }

  function Hex(n: int): char
    requires 0 <= n < 16
  {
    if n < 10 then ('0' as int + n) as char else ('A' as int + n - 10) as char
  }

  function Unhex(c: char): int {
    if '0' <= c <= '9' then c as int - '0' as int
    else if 'A' <= c <= 'F' then c as int - 'A' as int + 10
    else 0
  }

  function EscapeChar(c: char): string {
    if IsUnreserved(c) then [c]
    else if c == ' ' then ['+']
    else ['%', Hex(c as int / 16 % 16), Hex(c as int % 16)]
  }

  /** url.QueryEscape */
  function Escape(s: string): string {
    if s == "" then "" else EscapeChar(s[0]) + Escape(s[1..])
  }

  function Unescape(s: string): string {
    if s == "" then ""
    else if s[0] == '+' then [' '] + Unescape(s[1..])
    else if s[0] == '%' && |s| >= 3 && 0 <= Unhex(s[1]) < 16 && 0 <= Unhex(s[2]) < 16
    then [(16 * Unhex(s[1]) + Unhex(s[2])) as char] + Unescape(s[3..])
    else [s[0]] + Unescape(s[1..])
  }

  predicate Lacks(s: string, c: char) {
    forall i :: 0 <= i < |s| ==> s[i] != c
  }

  lemma {:induction false} EscapeIsSafe(s: string)
    ensures Lacks(Escape(s), '&') && Lacks(Escape(s), '=')
  {
    if s != "" { EscapeIsSafe(s[1..]); }
  }

  lemma HexRoundTrip(n: int)
    requires 0 <= n < 16
    ensures Unhex(Hex(n)) == n
  {
  }

  lemma EscapedChar(c: char, rest: string)
    requires IsByte(c)
    ensures Unescape(EscapeChar(c) + rest) == [c] + Unescape(rest)
  {
    if IsUnreserved(c) || c == ' ' {
      assert (EscapeChar(c) + rest)[1..] == rest;
    } else {
      var h, l := c as int / 16 % 16, c as int % 16;
      assert c as int == 16 * h + l;
      HexRoundTrip(h);
      HexRoundTrip(l);
      UnescapeHex(h, l, rest);
    }
  }

  lemma UnescapeHex(h: int, l: int, rest: string)
    requires 0 <= h < 16 && 0 <= l < 16
    ensures Unescape(['%', Hex(h), Hex(l)] + rest) == [(16 * h + l) as char] + Unescape(rest)
  {
    HexRoundTrip(h);
    HexRoundTrip(l);
    var s := ['%', Hex(h), Hex(l)] + rest;
    assert s[0] == '%' && s[1] == Hex(h) && s[2] == Hex(l) && s[3..] == rest;
  }

  /** Escaping loses nothing. */
  lemma {:induction false} EscapeRoundTrip(s: string)
    requires IsBytes(s)
    ensures Unescape(Escape(s)) == s
  {
    if s != "" {
      EscapeRoundTrip(s[1..]);
      EscapedChar(s[0], Escape(s[1..]));
    }
  }

  // ---------------------------------------------------------------- joining and splitting

  function Join(parts: seq<string>): string {
    if parts == [] then "" else if |parts| == 1 then parts[0] else parts[0] + ['&'] + Join(parts[1..])
  }

  /** The parts between the separators. */
  function Split(s: string, sep: char): (r: seq<string>)
    ensures r != []
  {
    if s == "" then [""]
    else
      var rest := Split(s[1..], sep);
      if s[0] == sep then [""] + rest else [[s[0]] + rest[0]] + rest[1..]
  }

  lemma {:induction false} SplitWord(w: string, sep: char)
    requires Lacks(w, sep)
    ensures Split(w, sep) == [w]
  {
    if w != "" {
      SplitWord(w[1..], sep);
      assert w == [w[0]] + w[1..];
    }
  }

  lemma {:induction false} SplitFirst(w: string, s: string, sep: char)
    requires Lacks(w, sep)
    ensures Split(w + [sep] + s, sep) == [w] + Split(s, sep)
  {
    if w == "" {
      assert w + [sep] + s == [sep] + s;
      assert ([sep] + s)[1..] == s;
    } else {
      SplitFirst(w[1..], s, sep);
      assert (w + [sep] + s)[1..] == w[1..] + [sep] + s;
      assert w == [w[0]] + w[1..];
    }
  }

  lemma {:induction false} SplitJoin(parts: seq<string>)
    requires parts != [] && forall i :: 0 <= i < |parts| ==> Lacks(parts[i], '&')
    ensures Split(Join(parts), '&') == parts
  {
    if |parts| == 1 {
      SplitWord(parts[0], '&');
    } else {
      SplitJoin(parts[1..]);
      SplitFirst(parts[0], Join(parts[1..]), '&');
    }
  }

  lemma {:induction false} JoinConcat(a: seq<string>, b: seq<string>)
    requires a != [] && b != []
    ensures Join(a + b) == Join(a) + ['&'] + Join(b)
  {
    if |a| == 1 {
      assert (a + b)[1..] == b;
    } else {
      JoinConcat(a[1..], b);
      assert (a + b)[1..] == a[1..] + b;
    }
  }

  // ---------------------------------------------------------------- addVars

  datatype Pair = Pair(key: string, value: string)

  predicate PairLessEq(p: Pair, q: Pair) {
    LessEq(p.key, q.key)
  }

  function Encoded(p: Pair): string {
    Escape(p.key) + ['='] + Escape(p.value)
  }

  function EncodedAll(ps: seq<Pair>): seq<string> {
    if ps == [] then [] else EncodedAll(ps[..|ps| - 1]) + [Encoded(ps[|ps| - 1])]
  }

  /** The pairs as Encode writes them: by key, under one key in the order they were added. */
  function InOrder(ps: seq<Pair>): seq<Pair> {
    Sort(PairLessEq, ps)
  }

  /** All variables but the target ones, in order. */
  function SourcePairs(vars: seq<Var>): seq<Pair> {
    if vars == [] then []
    else
      var v := vars[|vars| - 1];
      SourcePairs(vars[..|vars| - 1]) + if v.kind == TargetVar then [] else [Pair(VarName(v), v.value)]
  }

  /** The target variables; their values are not escaped. */
  function TargetParts(vars: seq<Var>): seq<string> {
    if vars == [] then []
    else
      var v := vars[|vars| - 1];
      TargetParts(vars[..|vars| - 1]) + if v.kind == TargetVar then [Escape(VarName(v)) + ['='] + v.value] else []
  }

  /** The query that addVars returns for the pairs q. */
  function Query(q: seq<Pair>, vars: seq<Var>): string {
    var src := Join(EncodedAll(InOrder(q + SourcePairs(vars))));
    if TargetParts(vars) == [] then src
    else src + [if SourcePairs(vars) != [] then '&' else '?'] + Join(TargetParts(vars))
  }

  /** Appending to a builder that holds parts. */
  lemma {:induction false} JoinAppend(parts: seq<string>, p: string)
    ensures Join(parts + [p]) == if parts == [] then p else Join(parts) + ['&'] + p
  {
    if parts != [] {
      JoinConcat(parts, [p]);
    } else {
      assert parts + [p] == [p];
    }
  }

  lemma {:induction false} EncodedNonEmpty(ps: seq<Pair>)
    ensures |EncodedAll(ps)| == |ps| && forall i :: 0 <= i < |ps| ==> EncodedAll(ps)[i] == Encoded(ps[i])
  {
    if ps != [] { EncodedNonEmpty(ps[..|ps| - 1]); }
  }

  lemma {:induction false} TargetsNonEmpty(vars: seq<Var>)
    ensures forall i :: 0 <= i < |TargetParts(vars)| ==> TargetParts(vars)[i] != ""
  {
    if vars != [] { TargetsNonEmpty(vars[..|vars| - 1]); }
  }

  /** url.Values.Encode */
  method Encode(q: seq<Pair>) returns (s: string)
    ensures s == Join(EncodedAll(InOrder(q)))
  {
    s := WritePairs(Sort(PairLessEq, q));
  }

  method WritePairs(ps: seq<Pair>) returns (s: string)
    ensures s == Join(EncodedAll(ps))
  {
    s := "";
    for i := 0 to |ps|
      invariant s == Join(EncodedAll(ps[..i])) && (s == "" <==> i == 0)
    {
      assert ps[..i + 1][..i] == ps[..i];
      JoinAppend(EncodedAll(ps[..i]), Encoded(ps[i]));
      EncodedNonEmpty(ps[..i]);
      if |s| > 0 { s := s + ['&']; }
      s := s + Escape(ps[i].key) + ['='] + Escape(ps[i].value);
    }
    assert ps[..|ps|] == ps;
  }

  method TargetQuery(vars: seq<Var>) returns (s: string)
    ensures s == Join(TargetParts(vars))
  {
    s := "";
    for i := 0 to |vars|
      invariant s == Join(TargetParts(vars[..i])) && (s == "" <==> TargetParts(vars[..i]) == [])
    {
      assert vars[..i + 1][..i] == vars[..i];
      if vars[i].kind != TargetVar {
        assert TargetParts(vars[..i + 1]) == TargetParts(vars[..i]);
        continue;
      }
      JoinAppend(TargetParts(vars[..i]), Escape(VarName(vars[i])) + ['='] + vars[i].value);
      if |s| > 0 { s := s + ['&']; }
      s := s + Escape(VarName(vars[i])) + ['='] + vars[i].value;
    }
    assert vars[..|vars|] == vars;
  }

  method AddVars(q: seq<Pair>, vars: seq<Var>) returns (rawQuery: string)
    ensures rawQuery == Query(q, vars)
  {
    var values := q;
    var srcVars, targetVars := 0, 0;
    for i := 0 to |vars|
      invariant values == q + SourcePairs(vars[..i])
      invariant srcVars == |SourcePairs(vars[..i])| && targetVars == |TargetParts(vars[..i])|
    {
      assert vars[..i + 1][..i] == vars[..i];
      if vars[i].kind == TargetVar {
        targetVars := targetVars + 1;
        continue;
      }
      values := values + [Pair(VarName(vars[i]), vars[i].value)];
      srcVars := srcVars + 1;
    }
    assert vars[..|vars|] == vars;
    rawQuery := Encode(values);
    if targetVars > 0 {
      var targets := TargetQuery(vars);
      if srcVars > 0 {
        rawQuery := rawQuery + ['&'];
      } else {
        rawQuery := rawQuery + ['?'];
      }
      rawQuery := rawQuery + targets;
    }
  }

  /** The body of the loop of Create: the request gets its datasource before its link, whose other
      pairs are base. */
  method Link(request: seq<Var>, ds: string, base: seq<Pair>) returns (query: string)
    ensures query == Query(base, Upserted(request, ds))
  {
    var vars := new Var[|request|](i requires 0 <= i < |request| => request[i]);
    assert vars[..] == request;
    var upserted := UpsertDatasourceVar(vars, ds);
    query := AddVars(base, upserted);
  }

  // ---------------------------------------------------------------- what the query says

  lemma {:induction false} TargetsLackSeparator(vars: seq<Var>)
    requires forall v :: v in vars && v.kind == TargetVar ==> Lacks(v.value, '&')
    ensures forall i :: 0 <= i < |TargetParts(vars)| ==> Lacks(TargetParts(vars)[i], '&')
  {
    if vars != [] {
      var v := vars[|vars| - 1];
      TargetsLackSeparator(vars[..|vars| - 1]);
      assert v in vars;
      EscapeIsSafe(VarName(v));
    }
  }

  lemma {:induction false} HasSourcePair(vars: seq<Var>, v: Var)
    requires v in vars && v.kind != TargetVar
    ensures Pair(VarName(v), v.value) in SourcePairs(vars)
  {
    var last := vars[|vars| - 1];
    if v != last {
      var i :| 0 <= i < |vars| && vars[i] == v;
      assert vars[..|vars| - 1][i] == v;
      HasSourcePair(vars[..|vars| - 1], v);
    }
  }

  lemma SortedSize(ps: seq<Pair>)
    ensures |InOrder(ps)| == |ps| && multiset(InOrder(ps)) == multiset(ps)
  {
    forall p: Pair, q: Pair ensures PairLessEq(p, q) || PairLessEq(q, p) { LessEqTotal(p.key, q.key); }
    forall p: Pair, q: Pair, r: Pair | PairLessEq(p, q) && PairLessEq(q, r) ensures PairLessEq(p, r) {
      LessEqTransitive(p.key, q.key, r.key);
    }
    SortSorts(PairLessEq, ps);
    assert |InOrder(ps)| == |multiset(InOrder(ps))|;
  }

  predicate KeysAscend(ps: seq<Pair>) {
    forall i, j :: 0 <= i < j < |ps| ==> LessEq(ps[i].key, ps[j].key)
  }

  /** The pairs of one key. */
  function Of(ps: seq<Pair>, key: string): seq<Pair> {
    Where((p: Pair) => p.key == key, ps)
  }

  /** What the encoder's order means: keys ascend, and the pairs under one key are those that were
      added under it, in the order they were added. */
  lemma EncoderOrder(ps: seq<Pair>, key: string)
    ensures KeysAscend(InOrder(ps)) && Of(InOrder(ps), key) == Of(ps, key)
  {
    forall p: Pair, q: Pair ensures PairLessEq(p, q) || PairLessEq(q, p) { LessEqTotal(p.key, q.key); }
    forall p: Pair, q: Pair, r: Pair | PairLessEq(p, q) && PairLessEq(q, r) ensures PairLessEq(p, r) {
      LessEqTransitive(p.key, q.key, r.key);
    }
    SortSorts(PairLessEq, ps);
    var here := (p: Pair) => p.key == key;
    forall p: Pair, q: Pair | here(p) && here(q) ensures PairLessEq(p, q) { LessEqTotal(key, key); }
    SortIsStable(PairLessEq, here, ps);
  }

  /** For every request that has gone through the upsert, with target values that contain no '&',
      the query string splits at '&' into the encoded base and source pairs in sorted order and
      then the target pairs in order; so the '?' separator is never used. */
  lemma QuerySplits(q: seq<Pair>, vars: seq<Var>, ds: string)
    requires forall v :: v in vars && v.kind == TargetVar ==> Lacks(v.value, '&')
    ensures var all := Upserted(vars, ds);
            && SourcePairs(all) != []
            && Split(Query(q, all), '&') == EncodedAll(InOrder(q + SourcePairs(all))) + TargetParts(all)
  {
    var all := Upserted(vars, ds);
    UpsertSets(vars, ds);
    var v :| v in all && IsDatasourceVar(v);
    HasSourcePair(all, v);
    forall t | t in all && t.kind == TargetVar ensures Lacks(t.value, '&') { TargetIsOld(vars, ds, t); }
    SplitQuery(q, all);
  }

  lemma TargetIsOld(vars: seq<Var>, ds: string, t: Var)
    requires t in Upserted(vars, ds) && t.kind == TargetVar
    ensures t in vars
  {
    var i :| 0 <= i < |Upserted(vars, ds)| && Upserted(vars, ds)[i] == t;
    assert i < |vars| && vars[i] == t;
  }

  lemma {:induction false} EncodedAllSafe(ps: seq<Pair>)
    ensures |EncodedAll(ps)| == |ps| && forall i :: 0 <= i < |ps| ==> Lacks(EncodedAll(ps)[i], '&')
  {
    if ps != [] {
      EncodedAllSafe(ps[..|ps| - 1]);
      EncodedIsSafe(ps[|ps| - 1]);
    }
  }

  lemma SplitBoth(a: seq<string>, b: seq<string>)
    requires a != [] && (forall i :: 0 <= i < |a| ==> Lacks(a[i], '&')) && (forall i :: 0 <= i < |b| ==> Lacks(b[i], '&'))
    ensures Split(if b == [] then Join(a) else Join(a) + ['&'] + Join(b), '&') == a + b
  {
    if b == [] {
      assert a + b == a;
    } else {
      JoinConcat(a, b);
    }
    SplitJoin(a + b);
  }

  lemma SplitQuery(q: seq<Pair>, vars: seq<Var>)
    requires SourcePairs(vars) != [] && forall v :: v in vars && v.kind == TargetVar ==> Lacks(v.value, '&')
    ensures Split(Query(q, vars), '&') == EncodedAll(InOrder(q + SourcePairs(vars))) + TargetParts(vars)
  {
    SortedSize(q + SourcePairs(vars));
    EncodedAllSafe(InOrder(q + SourcePairs(vars)));
    TargetsLackSeparator(vars);
    SplitBoth(EncodedAll(InOrder(q + SourcePairs(vars))), TargetParts(vars));
  }

  lemma EncodedIsSafe(p: Pair)
    ensures Lacks(Encoded(p), '&')
  {
    EscapeIsSafe(p.key);
    EscapeIsSafe(p.value);
  }

  /** An encoded pair splits at '=' and unescapes to the pair. */
  lemma PairRoundTrip(p: Pair)
    requires IsBytes(p.key) && IsBytes(p.value)
    ensures var parts := Split(Encoded(p), '=');
            |parts| == 2 && Unescape(parts[0]) == p.key && Unescape(parts[1]) == p.value
  {
    EscapeIsSafe(p.key);
    EscapeIsSafe(p.value);
    SplitFirst(Escape(p.key), Escape(p.value), '=');
    SplitWord(Escape(p.value), '=');
    EscapeRoundTrip(p.key);
    EscapeRoundTrip(p.value);
  }

  lemma {:induction false} LacksConcat(a: string, b: string, c: char)
    requires Lacks(a, c) && Lacks(b, c)
    ensures Lacks(a + b, c)
  {
    forall i | 0 <= i < |a + b| ensures (a + b)[i] != c {
      if i >= |a| { assert (a + b)[i] == b[i - |a|]; }
    }
  }

  /** Without a source variable a single base pair and a single target pair run into one part. */
  lemma MissingSourceBreaksQuery(q: Pair, t: Var)
    requires t.kind == TargetVar && Lacks(t.value, '&')
    ensures |Split(Query([q], [t]), '&')| == 1
  {
    var src, target := Encoded(q), Escape(VarName(t)) + ['='] + t.value;
    OneOfEach(q, t);
    EncodedIsSafe(q);
    EscapeIsSafe(VarName(t));
    LacksConcat(Escape(VarName(t)) + ['='], t.value, '&');
    LacksConcat(src + ['?'], target, '&');
    SplitWord(src + ['?'] + target, '&');
  }

  lemma OneOfEach(q: Pair, t: Var)
    requires t.kind == TargetVar
    ensures Query([q], [t]) == Encoded(q) + ['?'] + (Escape(VarName(t)) + ['='] + t.value)
  {
    assert [t][..0] == [] && [q][..0] == [] && [q][1..] == [];
    assert SourcePairs([t]) == [];
    assert [q] + SourcePairs([t]) == [q];
    assert Sort(PairLessEq, [q][1..]) == [];
    assert InOrder([q]) == [q];
    assert EncodedAll([q]) == [Encoded(q)];
    assert TargetParts([t]) == [Escape(VarName(t)) + ['='] + t.value];
  }

  // ---------------------------------------------------------------- which variable goes where

  /** The variable goes under its own name if that starts with "var-", else under that with "var-" in front. */
  ghost predicate Under(v: Var, key: string) {
    if "var-" <= v.name then key == v.name else key == "var-" + v.name
  }

  /** ps are the pairs of the variables that are no targets, in their order. */
  ghost predicate PairsOf(vars: seq<Var>, ps: seq<Pair>) {
    if vars == [] then ps == []
    else if vars[|vars| - 1].kind != TargetVar then
      && ps != [] && Under(vars[|vars| - 1], ps[|ps| - 1].key) && ps[|ps| - 1].value == vars[|vars| - 1].value
      && PairsOf(vars[..|vars| - 1], ps[..|ps| - 1])
    else PairsOf(vars[..|vars| - 1], ps)
  }

  /** A target variable as it is written: the key escaped, the value as it is. */
  ghost predicate WrittenAs(v: Var, part: string) {
    exists key :: Under(v, key) && part == Escape(key) + ['='] + v.value
  }

  /** ts are the target variables as they are written, in their order. */
  ghost predicate TargetsOf(vars: seq<Var>, ts: seq<string>) {
    if vars == [] then ts == []
    else if vars[|vars| - 1].kind == TargetVar then
      ts != [] && WrittenAs(vars[|vars| - 1], ts[|ts| - 1]) && TargetsOf(vars[..|vars| - 1], ts[..|ts| - 1])
    else TargetsOf(vars[..|vars| - 1], ts)
  }

  lemma {:induction false} PairsAreOf(vars: seq<Var>)
    ensures PairsOf(vars, SourcePairs(vars)) && TargetsOf(vars, TargetParts(vars))
  {
    if vars != [] {
      var init, v := vars[..|vars| - 1], vars[|vars| - 1];
      PairsAreOf(init);
      var ps, ts := SourcePairs(vars), TargetParts(vars);
      assert Under(v, VarName(v));
      if v.kind == TargetVar {
        assert ps == SourcePairs(init) && ts[..|ts| - 1] == TargetParts(init);
      } else {
        assert ts == TargetParts(init) && ps[..|ps| - 1] == SourcePairs(init);
      }
    }
  }

  /** What is in the query of an upserted request, with target values that contain no '&': first the base
      pairs and one pair for each variable that is no target, encoded and in the order of the encoder, the
      datasource variable with the datasource among them; then the targets in order. */
  lemma QueryCarries(q: seq<Pair>, vars: seq<Var>, ds: string) returns (ps: seq<Pair>, ts: seq<string>)
    requires forall v :: v in vars && v.kind == TargetVar ==> Lacks(v.value, '&')
    ensures PairsOf(Upserted(vars, ds), ps) && TargetsOf(Upserted(vars, ds), ts)
    ensures Split(Query(q, Upserted(vars, ds)), '&') == EncodedAll(InOrder(q + ps)) + ts
    ensures Pair("var-datasource", ds) in ps
  {
    var all := Upserted(vars, ds);
    ps, ts := SourcePairs(all), TargetParts(all);
    PairsAreOf(all);
    QuerySplits(q, vars, ds);
    DatasourceHasPair(vars, ds);
  }

  lemma DatasourceKey(v: Var)
    requires v.name == "datasource"
    ensures VarName(v) == "var-datasource"
  {
    assert v.name[0] == 'd' && PREFIX[0] == 'v';
  }

  lemma DatasourceHasPair(vars: seq<Var>, ds: string)
    ensures Pair("var-datasource", ds) in SourcePairs(Upserted(vars, ds))
  {
    UpsertSets(vars, ds);
    var v :| v in Upserted(vars, ds) && IsDatasourceVar(v);
    VariableHasPair(Upserted(vars, ds), v);
    DatasourceKey(v);
  }

  lemma {:induction false} VariableHasPair(vars: seq<Var>, v: Var)
    requires v in vars && v.kind != TargetVar
    ensures Pair(VarName(v), v.value) in SourcePairs(vars)
  {
    if v != vars[|vars| - 1] { VariableHasPair(vars[..|vars| - 1], v); }
  }
}
