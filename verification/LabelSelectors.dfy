/** Kubernetes label selectors, and the labels the controllers derive from them. */
module LabelSelectors {
  import opened Kube
  import opened Lists

  /** A label key: one of those the controllers look at, or any other. */
  datatype Label = PrometheusLabel | FieldProject | HelmProject | Named(name: string)

  type Labels = map<Label, string>

  datatype Op = In | NotIn | Exists | DoesNotExist | OtherOp

  datatype Expr = Expr(key: Label, op: Op, values: seq<string>)

  datatype Selector = Selector(matchLabels: Labels, exprs: seq<Expr>)

  // ---------------------------------------------------------------- syntax

  predicate IsLowerNum(c: char) {
    'a' <= c <= 'z' || '0' <= c <= '9'
  }

  predicate IsAlphaNum(c: char) {
    IsLowerNum(c) || 'A' <= c <= 'Z'
  }

  /** The name part of a label key, and every non-empty label value. */
  predicate IsLabelName(s: string) {
    && 0 < |s| <= 63 && IsAlphaNum(s[0]) && IsAlphaNum(s[|s| - 1])
    && forall i :: 0 <= i < |s| ==> IsAlphaNum(s[i]) || s[i] == '-' || s[i] == '_' || s[i] == '.'
  }

  predicate IsSubdomain(s: string) {
    && 0 < |s| <= 253 && IsLowerNum(s[0]) && IsLowerNum(s[|s| - 1])
    && forall i :: 0 <= i < |s| ==>
         IsLowerNum(s[i]) || s[i] == '-' || (s[i] == '.' && 0 < i < |s| - 1 && IsLowerNum(s[i - 1]) && IsLowerNum(s[i + 1]))
  }

  predicate ValidKey(k: Label) {
    k.Named? ==>
      IsLabelName(k.name) ||
      exists i :: 0 <= i < |k.name| && k.name[i] == '/' && IsSubdomain(k.name[..i]) && IsLabelName(k.name[i + 1..])
  }

  predicate ValidValue(v: string) {
    v == "" || IsLabelName(v)
  }

  predicate ValidExpr(e: Expr) {
    && ValidKey(e.key)
    && (forall v :: v in e.values ==> ValidValue(v))
    && match e.op
       case In => e.values != []
       case NotIn => e.values != []
       case Exists => e.values == []
       case DoesNotExist => e.values == []
       case OtherOp => false
  }

  /** LabelSelectorAsSelector succeeds. */
  predicate ValidSelector(s: Option<Selector>) {
    s.Some? ==>
      && (forall k :: k in s.value.matchLabels ==> ValidKey(k) && ValidValue(s.value.matchLabels[k]))
      && (forall e :: e in s.value.exprs ==> ValidExpr(e))
  }

  // ---------------------------------------------------------------- matching

  predicate MatchesExpr(e: Expr, l: Labels) {
    match e.op
    case In => e.key in l && l[e.key] in e.values
    case NotIn => e.key in l ==> l[e.key] !in e.values
    case Exists => e.key in l
    case DoesNotExist => e.key !in l
    case OtherOp => false
  }

  /** A missing selector matches nothing, an empty one everything. */
  predicate Matches(s: Option<Selector>, l: Labels) {
    && s.Some?
    && (forall k :: k in s.value.matchLabels ==> k in l && l[k] == s.value.matchLabels[k])
    && (forall e :: e in s.value.exprs ==> MatchesExpr(e, l))
  }

  // ---------------------------------------------------------------- labels for a selector

  /** The value written for a NotIn expression. */
  function OtherThan(values: seq<string>): string
    requires values != []
  {
    if values[0] == "true" && |values| == 1 then "false"
    else if values[0] == "false" && |values| == 1 then "true"
    else "not-" + values[0]
  }

  function ApplyExpr(e: Expr, l: Labels): Labels {
    match e.op
    case In => if e.values != [] then l[e.key := e.values[0]] else l
    case NotIn => if e.values != [] then l[e.key := OtherThan(e.values)] else l
    case Exists => l[e.key := ""]
    case DoesNotExist => l - {e.key}
    case OtherOp => l
  }

  function ApplyExprs(exprs: seq<Expr>, l: Labels): Labels {
    if exprs == [] then l else ApplyExpr(exprs[|exprs| - 1], ApplyExprs(exprs[..|exprs| - 1], l))
  }

  function LabelsFor(s: Option<Selector>): Labels {
    if s.None? then map[] else ApplyExprs(s.value.exprs, s.value.matchLabels)
  }

  /** LabelsForLabelSelector */
  method LabelsForLabelSelector(s: Option<Selector>) returns (l: Labels)
    ensures l == LabelsFor(s)
  {
    if s.None? { return map[]; }
    l := s.value.matchLabels;
    var exprs := s.value.exprs;
    for i := 0 to |exprs|
      invariant l == ApplyExprs(exprs[..i], s.value.matchLabels)
    {
      var e := exprs[i];
      assert exprs[..i + 1][..i] == exprs[..i];
      match e.op {
        case In => if |e.values| > 0 { l := l[e.key := e.values[0]]; }
        case NotIn => if |e.values| > 0 { l := l[e.key := OtherThan(e.values)]; }
        case Exists => l := l[e.key := ""];
        case DoesNotExist => l := l - {e.key};
        case OtherOp =>
      }
    }
    assert exprs[..|exprs|] == exprs;
  }

  /** OverwriteKeys with one source. */
  function Overwrite(l: Labels, extra: Labels): Labels {
    l + extra
  }

  // ---------------------------------------------------------------- does the patched object match

  /** Every key is constrained once. */
  ghost predicate DistinctKeys(s: Selector) {
    && (forall e :: e in s.exprs ==> e.key !in s.matchLabels)
    && (forall i, j :: 0 <= i < j < |s.exprs| ==> s.exprs[i].key != s.exprs[j].key)
  }

  lemma {:induction false} OtherKeysStay(exprs: seq<Expr>, l: Labels, k: Label)
    requires forall e :: e in exprs ==> e.key != k
    ensures k in ApplyExprs(exprs, l) <==> k in l
    ensures k in l ==> ApplyExprs(exprs, l)[k] == l[k]
  {
    if exprs != [] {
      assert exprs[|exprs| - 1] in exprs;
      OtherKeysStay(exprs[..|exprs| - 1], l, k);
    }
  }

  /** What the derived labels hold under the key of one expression. */
  lemma {:induction false} OwnKey(exprs: seq<Expr>, l: Labels, n: nat)
    requires n < |exprs| && exprs[n].key !in l && ValidExpr(exprs[n])
    requires forall i, j :: 0 <= i < j < |exprs| ==> exprs[i].key != exprs[j].key
    ensures var r := ApplyExprs(exprs, l);
            var e := exprs[n];
            match e.op
            case In => e.key in r && r[e.key] == e.values[0]
            case NotIn => e.key in r && r[e.key] == OtherThan(e.values)
            case Exists => e.key in r
            case DoesNotExist => e.key !in r
            case OtherOp => false
  {
    var init := exprs[..|exprs| - 1];
    if n == |exprs| - 1 {
      OtherKeysStay(init, l, exprs[n].key);
    } else {
      OwnKey(init, l, n);
    }
  }

  /** The derived labels can satisfy the expression: a key that must be missing is missing already,
      since labels are only added, and the value made up for NotIn is not itself excluded. */
  predicate Satisfiable(e: Expr, l: Labels) {
    match e.op
    case NotIn => e.values != [] && OtherThan(e.values) !in e.values
    case DoesNotExist => e.key !in l
    case _ => true
  }

  /** The value made up for NotIn is excluded itself only by a list of several values that contains
      its first one with "not-" in front. */
  lemma MadeUpValue(values: seq<string>)
    requires values != []
    ensures OtherThan(values) in values <==> |values| > 1 && "not-" + values[0] in values
  {
    assert |"not-" + values[0]| == 4 + |values[0]|;
    if |values| == 1 {
      assert forall v :: v in values ==> v == values[0];
      assert |"true"| != |"false"|;
    }
  }

  lemma PatchedExpr(s: Selector, l: Labels, n: nat)
    requires n < |s.exprs| && DistinctKeys(s) && ValidExpr(s.exprs[n])
    ensures MatchesExpr(s.exprs[n], Overwrite(l, LabelsFor(Some(s)))) <==> Satisfiable(s.exprs[n], l)
  {
    assert s.exprs[n] in s.exprs;
    OwnKey(s.exprs, s.matchLabels, n);
  }

  /** An object patched with the labels derived from a valid selector that constrains every key
      once matches the selector exactly when each of its expressions is satisfiable. */
  lemma PatchedMatchesIff(s: Selector, l: Labels)
    requires ValidSelector(Some(s)) && DistinctKeys(s)
    ensures Matches(Some(s), Overwrite(l, LabelsFor(Some(s)))) <==> forall e :: e in s.exprs ==> Satisfiable(e, l)
  {
    var l' := Overwrite(l, LabelsFor(Some(s)));
    forall k | k in s.matchLabels ensures k in l' && l'[k] == s.matchLabels[k] {
      OtherKeysStay(s.exprs, s.matchLabels, k);
    }
    forall n | 0 <= n < |s.exprs| ensures MatchesExpr(s.exprs[n], l') <==> Satisfiable(s.exprs[n], l) {
      assert s.exprs[n] in s.exprs;
      PatchedExpr(s, l, n);
    }
  }

  lemma OverwriteTwice(l: Labels, extra: Labels)
    ensures Overwrite(Overwrite(l, extra), extra) == Overwrite(l, extra)
  {
  }
}
