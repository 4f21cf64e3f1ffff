/**
 The table that remembers the state of an AppBinding under its UID and generation, shared by
 GrafanaState and PersesState.
 */
module StateMemo {
  import opened Kube

  /** parameters is the raw JSON of the spec, url what URL() derives from it; None is an error. */
  datatype Spec = Spec(parameters: Option<string>, url: Option<string>)

  datatype AppBinding = AppBinding(uid: string, generation: int, spec: Spec)

  datatype GrafanaConfig = GrafanaConfig(datasource: string, folderID: Option<int>)

  datatype PersesConfig = PersesConfig(datasource: string, projectName: string, projectID: int, folderName: string, folderID: int)

  /** A computed state, or its error. */
  datatype Value = Value(state: string, err: bool)

  const FAILED := Value("", true)

  datatype Key = Key(uid: string, generation: int)

  /** JSON decoding, decimal notation, and the base64 of the hash. */
  datatype Env = Env(grafana: string -> Option<GrafanaConfig>, perses: string -> Option<PersesConfig>, decimal: int -> string, hash: string -> string)

  function KeyOf(ab: AppBinding): Key {
    Key(ab.uid, ab.generation)
  }

  function GrafanaText(e: Env, url: string, c: GrafanaConfig): string {
    url + "," + c.datasource + "," + e.decimal(if c.folderID.Some? then c.folderID.value else 0)
  }

  function PersesText(e: Env, url: string, c: PersesConfig): string {
    url + "," + c.datasource + "," + c.projectName + "," + e.decimal(c.projectID) + "," + c.folderName + "," + e.decimal(c.folderID)
  }

  function DirectGrafana(e: Env, s: Spec): Value {
    var c := if s.parameters.Some? then e.grafana(s.parameters.value) else Some(GrafanaConfig("", None));
    if c.None? || s.url.None? then FAILED else Value(e.hash(GrafanaText(e, s.url.value, c.value)), false)
  }

  function DirectPerses(e: Env, s: Spec): Value {
    var c := if s.parameters.Some? then e.perses(s.parameters.value) else Some(PersesConfig("", "", 0, "", 0));
    if c.None? || s.url.None? then FAILED else Value(e.hash(PersesText(e, s.url.value, c.value)), false)
  }

  /** One call of GrafanaState or PersesState. */
  datatype Call = Call(backend: Backend, ab: AppBinding)

  function Direct(e: Env, c: Call): Value {
    match c.backend
    case Grafana => DirectGrafana(e, c.ab.spec)
    case Perses => DirectPerses(e, c.ab.spec)
  }

  type Table = map<Key, Value>

  /** The answer of one call, and the table after it. */
  function Answer(e: Env, t: Table, c: Call): (Value, Table) {
    var k := KeyOf(c.ab);
    if k in t then (t[k], t) else (Direct(e, c), t[k := Direct(e, c)])
  }

  function TableAfter(e: Env, calls: seq<Call>): Table {
    if calls == [] then map[] else Answer(e, TableAfter(e, calls[..|calls| - 1]), calls[|calls| - 1]).1
  }

  /** The answer to the n-th of the calls, which the mutex puts in one order. */
  function AnswerTo(e: Env, calls: seq<Call>, n: nat): Value
    requires n < |calls|
  {
    Answer(e, TableAfter(e, calls[..n]), calls[n]).0
  }

  class Memo {
    const env: Env
    var stateMap: Table

    constructor (env: Env)
      ensures this.env == env && stateMap == map[]
    {
      this.env, stateMap := env, map[];
    }

    method GrafanaState(ab: AppBinding) returns (r: Value)
      modifies this
      ensures (r, stateMap) == Answer(env, old(stateMap), Call(Grafana, ab))
    {
      var key := Key(ab.uid, ab.generation);
      if key in stateMap { return stateMap[key]; }
      r := ComputeGrafana(ab.spec);
      stateMap := stateMap[key := r];
    }

    method ComputeGrafana(s: Spec) returns (r: Value)
      ensures r == DirectGrafana(env, s)
    {
      var config := GrafanaConfig("", None);
      if s.parameters.Some? {
        var decoded := env.grafana(s.parameters.value);
        if decoded.None? { return FAILED; }
        config := decoded.value;
      }
      if s.url.None? { return FAILED; }
      return Value(env.hash(GrafanaText(env, s.url.value, config)), false);
    }

    method PersesState(ab: AppBinding) returns (r: Value)
      modifies this
      ensures (r, stateMap) == Answer(env, old(stateMap), Call(Perses, ab))
    {
      var key := Key(ab.uid, ab.generation);
      if key in stateMap { return stateMap[key]; }
      r := ComputePerses(ab.spec);
      stateMap := stateMap[key := r];
    }

    method ComputePerses(s: Spec) returns (r: Value)
      ensures r == DirectPerses(env, s)
    {
      var config := PersesConfig("", "", 0, "", 0);
      if s.parameters.Some? {
        var decoded := env.perses(s.parameters.value);
        if decoded.None? { return FAILED; }
        config := decoded.value;
      }
      if s.url.None? { return FAILED; }
      return Value(env.hash(PersesText(env, s.url.value, config)), false);
    }

    /** Any interleaving of calls, in the order in which they take the mutex. */
    method Serve(calls: seq<Call>) returns (answers: seq<Value>)
      requires stateMap == map[]
      modifies this
      ensures |answers| == |calls| && forall n :: 0 <= n < |calls| ==> answers[n] == AnswerTo(env, calls, n)
    {
      answers := [];
      for n := 0 to |calls|
        invariant stateMap == TableAfter(env, calls[..n])
        invariant |answers| == n && forall m :: 0 <= m < n ==> answers[m] == AnswerTo(env, calls, m)
      {
        assert calls[..n + 1][..n] == calls[..n];
        var r: Value;
        match calls[n].backend {
          case Grafana => r := GrafanaState(calls[n].ab);
          case Perses => r := PersesState(calls[n].ab);
        }
        answers := answers + [r];
      }
    }
  }

  // ---------------------------------------------------------------- when the table is right

  predicate SameKey(a: Call, b: Call) {
    KeyOf(a.ab) == KeyOf(b.ab)
  }

  /** The table holds, under every key asked for, the direct value of the first call with that key. */
  lemma {:induction false} TableHoldsFirst(e: Env, calls: seq<Call>, k: Key)
    ensures var t := TableAfter(e, calls);
            if k in t
            then exists m :: 0 <= m < |calls| && KeyOf(calls[m].ab) == k && t[k] == Direct(e, calls[m])
                             && forall i :: 0 <= i < m ==> KeyOf(calls[i].ab) != k
            else forall i :: 0 <= i < |calls| ==> KeyOf(calls[i].ab) != k
  {
    if calls != [] {
      var n := |calls| - 1;
      var init := calls[..n];
      TableHoldsFirst(e, init, k);
      var t := TableAfter(e, init);
      if k in t {
        var m :| 0 <= m < |init| && KeyOf(init[m].ab) == k && t[k] == Direct(e, init[m])
                 && forall i :: 0 <= i < m ==> KeyOf(init[i].ab) != k;
        assert KeyOf(calls[m].ab) == k && forall i :: 0 <= i < m ==> KeyOf(calls[i].ab) != k;
      } else {
        assert forall i :: 0 <= i < n ==> KeyOf(calls[i].ab) == KeyOf(init[i].ab);
        if KeyOf(calls[n].ab) == k {
          assert TableAfter(e, calls)[k] == Direct(e, calls[n]);
        }
      }
    }
  }

  /** Every call is answered with the direct value of the first call that had its key. */
  lemma AnswerIsFirst(e: Env, calls: seq<Call>, n: nat) returns (m: nat)
    requires n < |calls|
    ensures m <= n && SameKey(calls[m], calls[n]) && AnswerTo(e, calls, n) == Direct(e, calls[m])
    ensures forall i :: 0 <= i < m ==> !SameKey(calls[i], calls[n])
  {
    var k := KeyOf(calls[n].ab);
    var init := calls[..n];
    TableHoldsFirst(e, init, k);
    if k in TableAfter(e, init) {
      m :| 0 <= m < n && KeyOf(init[m].ab) == k && TableAfter(e, init)[k] == Direct(e, init[m])
           && forall i :: 0 <= i < m ==> KeyOf(init[i].ab) != k;
      assert forall i :: 0 <= i < m ==> calls[i] == init[i];
    } else {
      m := n;
      assert forall i :: 0 <= i < n ==> calls[i] == init[i];
    }
  }

  /** Over any interleaving, every answer is the directly computed value if and only if no two
      calls with one UID and generation have different direct values. */
  lemma RightIff(e: Env, calls: seq<Call>)
    ensures (forall n :: 0 <= n < |calls| ==> AnswerTo(e, calls, n) == Direct(e, calls[n]))
            <==> forall i, j :: 0 <= i < j < |calls| && SameKey(calls[i], calls[j]) ==> Direct(e, calls[i]) == Direct(e, calls[j])
  {
    if forall i, j :: 0 <= i < j < |calls| && SameKey(calls[i], calls[j]) ==> Direct(e, calls[i]) == Direct(e, calls[j]) {
      forall n | 0 <= n < |calls| ensures AnswerTo(e, calls, n) == Direct(e, calls[n]) {
        var m := AnswerIsFirst(e, calls, n);
      }
    }
    if forall n :: 0 <= n < |calls| ==> AnswerTo(e, calls, n) == Direct(e, calls[n]) {
      forall i, j | 0 <= i < j < |calls| && SameKey(calls[i], calls[j]) ensures Direct(e, calls[i]) == Direct(e, calls[j]) {
        var m := AnswerIsFirst(e, calls, i);
        var m' := AnswerIsFirst(e, calls, j);
        assert m == m';
      }
    }
  }

  /** What the callers can see to: a UID and generation determine the spec, and no UID is asked
      for by both functions. */
  ghost predicate WellUsed(calls: seq<Call>) {
    forall i, j :: 0 <= i < |calls| && 0 <= j < |calls| && calls[i].ab.uid == calls[j].ab.uid ==>
      && calls[i].backend == calls[j].backend
      && (calls[i].ab.generation == calls[j].ab.generation ==> calls[i].ab.spec == calls[j].ab.spec)
  }

  lemma WellUsedIsRight(e: Env, calls: seq<Call>, n: nat)
    requires WellUsed(calls) && n < |calls|
    ensures AnswerTo(e, calls, n) == Direct(e, calls[n])
  {
    RightIff(e, calls);
  }

  /** The second condition is needed: with two calls for one AppBinding, the Perses state comes out
      as the Grafana state, which is another one unless the hash collides. */
  lemma SharedUidIsWrong(e: Env, ab: AppBinding)
    requires ab.spec.parameters.None? && ab.spec.url.Some? && forall s, t :: e.hash(s) == e.hash(t) ==> s == t
    ensures AnswerTo(e, [Call(Grafana, ab), Call(Perses, ab)], 1) == DirectGrafana(e, ab.spec) != DirectPerses(e, ab.spec)
  {
    var calls := [Call(Grafana, ab), Call(Perses, ab)];
    var m := AnswerIsFirst(e, calls, 1);
    assert SameKey(calls[0], calls[1]) && m == 0;
    var url := ab.spec.url.value;
    var g := GrafanaText(e, url, GrafanaConfig("", None));
    var p := PersesText(e, url, PersesConfig("", "", 0, "", 0));
    assert |g| == |url| + 2 + |e.decimal(0)| && |p| == |url| + 5 + 2 * |e.decimal(0)|;
    assert e.hash(g) != e.hash(p);
  }

  // ---------------------------------------------------------------- what a state tells apart

  /** No two texts have one hash, and no two numbers one notation, which has no comma. */
  ghost predicate Faithful(e: Env) {
    && (forall s, t :: e.hash(s) == e.hash(t) ==> s == t)
    && (forall m, n :: e.decimal(m) == e.decimal(n) ==> m == n)
    && forall n :: ',' !in e.decimal(n)
  }

  lemma CommaInRest(a: string, x: string, b: string, y: string)
    requires a + "," + x == b + "," + y && |a| < |b|
    ensures ',' in x
  {
    var s := a + "," + x;
    assert s[|b|] == ',' && s[|b|] == x[|b| - |a| - 1];
  }

  lemma LastPart(a: string, x: string, b: string, y: string)
    requires a + "," + x == b + "," + y && ',' !in x && ',' !in y
    ensures a == b && x == y
  {
    if |a| < |b| { CommaInRest(a, x, b, y); }
    if |b| < |a| { CommaInRest(b, y, a, x); }
    var s := a + "," + x;
    assert a == s[..|a|] && x == s[|a| + 1..];
  }

  /** The configuration that a spec comes to, an absent folder being folder 0. */
  function GrafanaSetup(e: Env, s: Spec): Option<(string, int)> {
    var c := if s.parameters.Some? then e.grafana(s.parameters.value) else Some(GrafanaConfig("", None));
    if c.None? then None else Some((c.value.datasource, if c.value.folderID.Some? then c.value.folderID.value else 0))
  }

  /** A Grafana state is an error exactly without a decodable configuration or a URL, and for one URL it
      changes exactly when the datasource or the folder does. */
  lemma GrafanaStateIff(e: Env, s: Spec, t: Spec)
    requires Faithful(e) && s.url == t.url
    ensures DirectGrafana(e, s).err <==> GrafanaSetup(e, s).None? || s.url.None?
    ensures !DirectGrafana(e, s).err && !DirectGrafana(e, t).err ==>
              (DirectGrafana(e, s) == DirectGrafana(e, t) <==> GrafanaSetup(e, s) == GrafanaSetup(e, t))
  {
    if !DirectGrafana(e, s).err && !DirectGrafana(e, t).err && DirectGrafana(e, s) == DirectGrafana(e, t) {
      var (a, m) := GrafanaSetup(e, s).value;
      var (b, n) := GrafanaSetup(e, t).value;
      var u := s.url.value + ",";
      assert u + a + "," + e.decimal(m) == u + b + "," + e.decimal(n);
      LastPart(u + a, e.decimal(m), u + b, e.decimal(n));
      assert a == (u + a)[|u|..] && b == (u + b)[|u|..];
    }
  }

  /** A Perses state does not tell all configurations apart: a comma may belong to the datasource or to
      the name of the project. */
  lemma PersesStatesCollide(e: Env, url: string)
    ensures PersesText(e, url, PersesConfig("a,b", "c", 0, "", 0)) == PersesText(e, url, PersesConfig("a", "b,c", 0, "", 0))
  {
    assert url + "," + "a,b" + "," + "c" == url + "," + "a" + "," + "b,c";
  }
}
