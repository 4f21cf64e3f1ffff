/**
 Copying dashboards into client monitoring namespaces: what one pass writes, when a second pass
 is silent, and why no copy is ever copied again.
 */
module DashboardCopies {
  import opened Kube

  const SUFFIX := "-monitoring"
  const TITLE_PREFIX := "KubeDB /"

  datatype Key = Key(ns: string, name: string, kind: Backend)

  /** A templating variable of a Grafana board. */
  datatype Var = Var(name: string, kind: string, query: string)

  datatype Model = Broken | Model(title: string, vars: seq<Var>, body: string)

  /** backend is the reference to the AppBinding the dashboard is synchronised with. */
  datatype Spec = Spec(backend: Option<(string, string)>, model: Option<Model>, rest: string)

  /** An annotation key: the two the copier writes, or any other. */
  datatype Annotation = Source | Hash | Other(name: string)

  datatype Board = Board(labels: map<string, string>, annotations: map<Annotation, string>, spec: Spec)

  type Store = map<Key, Board>

  /** A listed dashboard: its key and the version the cache returned. */
  datatype Item = Item(key: Key, board: Board)

  // ---------------------------------------------------------------- strings

  predicate HasSuffix(s: string, t: string) {
    |t| <= |s| && s[|s| - |t|..] == t
  }

  function TrimPrefix(s: string, t: string): string {
    if t <= s then s[|t|..] else s
  }

  predicate IsSpace(c: char) {
    c in "\t\n\r \U{b}\U{c}\U{85}\U{a0}\U{1680}\U{2028}\U{2029}\U{202f}\U{205f}\U{3000}" || '\U{2000}' <= c <= '\U{200a}'
  }

  function TrimLeft(s: string): string {
    if s != "" && IsSpace(s[0]) then TrimLeft(s[1..]) else s
  }

  function TrimRight(s: string): string {
    if s != "" && IsSpace(s[|s| - 1]) then TrimRight(s[..|s| - 1]) else s
  }

  function TrimSpace(s: string): string {
    TrimRight(TrimLeft(s))
  }

  /** ClientDashboardTitle */
  function ClientTitle(title: string): string {
    TrimSpace(TrimPrefix(title, TITLE_PREFIX))
  }

  function MonitoringNamespace(org: string): string {
    org + SUFFIX
  }

  function Ref(k: Key): string {
    k.ns + "/" + k.name
  }

  // ---------------------------------------------------------------- one copy

  predicate Annotated(b: Board) {
    Source in b.annotations
  }

  predicate Suffixed(k: Key) {
    HasSuffix(k.ns, SUFFIX)
  }

  /** The loop skips copies and everything in a monitoring namespace. */
  predicate Skipped(i: Item) {
    Annotated(i.board) || Suffixed(i.key)
  }

  predicate Usable(b: Board) {
    b.spec.model.Some? && b.spec.model.value.Model?
  }

  predicate Copied(i: Item) {
    !Skipped(i) && Usable(i.board)
  }

  function Target(org: string, k: Key): Key {
    Key(MonitoringNamespace(org), k.name, k.kind)
  }

  function BindingName(kind: Backend): string {
    match kind case Grafana => "grafana" case Perses => "perses"
  }

  function Pinned(vars: seq<Var>, org: string): (r: seq<Var>)
    ensures |r| == |vars|
    ensures forall i :: 0 <= i < |vars| ==>
      r[i] == if vars[i].name == "namespace" then Var("namespace", "constant", org) else vars[i]
  {
    if vars == [] then []
    else
      var v := vars[|vars| - 1];
      Pinned(vars[..|vars| - 1], org) + [if v.name == "namespace" then v.(kind := "constant", query := org) else v]
  }

  /** Perses boards are only re-titled. */
  function ClientModel(kind: Backend, m: Model, org: string): Model
    requires m.Model?
  {
    var vars := if kind == Grafana then Pinned(m.vars, org) else m.vars;
    m.(title := ClientTitle(m.title), vars := vars)
  }

  /** The object the copy step asks for, given what is stored under the target key. Labels and
      annotations come from the source only when the copy is created. */
  function Wanted(hash: Board -> string, org: string, i: Item, cur: Option<Board>): Board
    requires Usable(i.board)
  {
    var labels := if cur.Some? then cur.value.labels else i.board.labels;
    var annotations := if cur.Some? then cur.value.annotations else i.board.annotations;
    var backend := Some((MonitoringNamespace(org), BindingName(i.key.kind)));
    var model := Some(ClientModel(i.key.kind, i.board.spec.model.value, org));
    Board(labels, annotations[Source := Ref(i.key)][Hash := hash(i.board)],
          i.board.spec.(backend := backend, model := model))
  }

  function Stored(store: Store, k: Key): Option<Board> {
    if k in store then Some(store[k]) else None
  }

  function Copy(hash: Board -> string, store: Store, org: string, i: Item): Store
    requires Usable(i.board)
  {
    var t := Target(org, i.key);
    store[t := Wanted(hash, org, i, Stored(store, t))]
  }

  // ---------------------------------------------------------------- one pass

  /** errs counts copies that failed, changed those that created or changed an object. */
  datatype Progress = Progress(store: Store, errs: nat, changed: nat, aborted: bool)

  function Iterate(hash: Board -> string, p: Progress, org: string, i: Item, ok: bool): Progress {
    if p.aborted || Skipped(i) then p
    else if !Usable(i.board) then p.(aborted := true)
    else if !ok then p.(errs := p.errs + 1)
    else
      var store := Copy(hash, p.store, org, i);
      p.(store := store, changed := if store == p.store then p.changed else p.changed + 1)
  }

  function Pass(hash: Board -> string, store: Store, org: string, items: seq<Item>, oks: nat -> bool): Progress {
    if items == [] then Progress(store, 0, 0, false)
    else
      var n := |items| - 1;
      Iterate(hash, Pass(hash, store, org, items[..n], oks), org, items[n], oks(n))
  }

  lemma {:induction false} AbortedStays(hash: Board -> string, store: Store, org: string, items: seq<Item>, oks: nat -> bool, n: nat)
    requires n <= |items| && Pass(hash, store, org, items[..n], oks).aborted
    ensures Pass(hash, store, org, items, oks) == Pass(hash, store, org, items[..n], oks)
  {
    if n < |items| {
      assert items[..|items| - 1][..n] == items[..n];
      AbortedStays(hash, store, org, items[..|items| - 1], oks, n);
    } else {
      assert items[..n] == items;
    }
  }

  /** The namespace loop over board.Templating.List. */
  method PinNamespace(list: array<Var>, org: string)
    modifies list
    ensures list[..] == Pinned(old(list[..]), org)
  {
    for idx := 0 to list.Length
      invariant forall j :: 0 <= j < idx ==>
        list[j] == if old(list[j]).name == "namespace" then Var("namespace", "constant", org) else old(list[j])
      invariant forall j :: idx <= j < list.Length ==> list[j] == old(list[j])
    {
      var item := list[idx];
      if item.name != "namespace" { continue; }
      item := item.(kind := "constant", query := org);
      list[idx] := item;
    }
  }

  class Copier {
    const hash: Board -> string
    var store: Store

    constructor (hash: Board -> string, store: Store)
      ensures this.hash == hash && this.store == store
    {
      this.hash, this.store := hash, store;
    }

    /** copyGrafanaDashboards (and copyPersesDashboards, which pins nothing) over one listing;
        oks says which writes the server accepts. */
    method CopyDashboards(org: string, kind: Backend, items: seq<Item>, oks: nat -> bool) returns (errs: nat, aborted: bool)
      requires forall i :: i in items ==> i.key.kind == kind
      modifies this
      ensures var p := Pass(hash, old(store), org, items, oks);
              store == p.store && aborted == p.aborted && errs == p.errs
    {
      errs, aborted := 0, false;
      for n := 0 to |items|
        invariant var p := Pass(hash, old(store), org, items[..n], oks);
                  store == p.store && aborted == p.aborted && errs == p.errs && !aborted
      {
        assert items[..n + 1][..n] == items[..n];
        var err: bool;
        err, aborted := CopyDashboard(org, items[n], oks(n));
        if aborted {
          AbortedStays(hash, old(store), org, items, oks, n + 1);
          return;
        }
        if err { errs := errs + 1; }
      }
      assert items[..|items|] == items;
    }

    /** The body of the loop. */
    method CopyDashboard(org: string, i: Item, ok: bool) returns (err: bool, aborted: bool)
      modifies this
      ensures aborted <==> !Skipped(i) && !Usable(i.board)
      ensures err <==> Copied(i) && !ok
      ensures store == if Copied(i) && ok then Copy(hash, old(store), org, i) else old(store)
    {
      if Source in i.board.annotations || HasSuffix(i.key.ns, SUFFIX) { return false, false; }
      if i.board.spec.model.None? || i.board.spec.model.value.Broken? { return false, true; }
      var model := i.board.spec.model.value;
      if i.key.kind == Grafana {
        var list := new Var[|model.vars|](j requires 0 <= j < |model.vars| => model.vars[j]);
        assert list[..] == model.vars;
        PinNamespace(list, org);
        model := model.(vars := list[..]);
      }
      model := model.(title := ClientTitle(model.title));
      if !ok { return true, false; }
      CreateOrPatch(org, i, model);
      return false, false;
    }

    method CreateOrPatch(org: string, i: Item, model: Model)
      requires Usable(i.board) && model == ClientModel(i.key.kind, i.board.spec.model.value, org)
      modifies this
      ensures store == Copy(hash, old(store), org, i)
    {
      var t := Key(MonitoringNamespace(org), i.key.name, i.key.kind);
      var cur := if t in store then store[t] else i.board;
      var annotations := cur.annotations[Source := Ref(i.key)];
      annotations := annotations[Hash := hash(i.board)];
      var backend := Some((MonitoringNamespace(org), BindingName(i.key.kind)));
      store := store[t := Board(cur.labels, annotations, i.board.spec.(backend := backend, model := Some(model)))];
    }
  }

  // ---------------------------------------------------------------- a second pass

  function AllOk(n: nat): bool {
    true
  }

  /** No two sources of one kind share a name. */
  ghost predicate UniqueNames(items: seq<Item>) {
    forall i, j :: 0 <= i < j < |items| && !Skipped(items[i]) && !Skipped(items[j])
      ==> items[i].key.name != items[j].key.name || items[i].key.kind != items[j].key.kind
  }

  ghost predicate AllUsable(items: seq<Item>) {
    forall i :: i in items && !Skipped(i) ==> Usable(i.board)
  }

  /** The listing is complete and current: it shows the stored dashboards of one kind, each once. */
  ghost predicate Lists(items: seq<Item>, store: Store, kind: Backend) {
    && (forall n :: 0 <= n < |items| ==> items[n].key in store && items[n].board == store[items[n].key] && items[n].key.kind == kind)
    && (forall i, j :: 0 <= i < j < |items| ==> items[i].key != items[j].key)
    && (forall k :: k in store && k.kind == kind ==> Item(k, store[k]) in items)
  }

  /** The copy of i is stored and is what a copy step would ask for. */
  predicate InPlace(hash: Board -> string, store: Store, org: string, i: Item) {
    var t := Target(org, i.key);
    Usable(i.board) && t in store && Wanted(hash, org, i, Some(store[t])) == store[t]
  }

  lemma InPlaceIffSilent(hash: Board -> string, store: Store, org: string, i: Item)
    requires Usable(i.board)
    ensures InPlace(hash, store, org, i) <==> Copy(hash, store, org, i) == store
  {
    var t := Target(org, i.key);
    var s1 := Copy(hash, store, org, i);
    assert t in s1;
    if InPlace(hash, store, org, i) {
      assert s1 == store;
    }
  }

  lemma SuffixedTarget(org: string, k: Key)
    ensures Suffixed(Target(org, k))
  {
  }

  lemma WantedTwice(hash: Board -> string, org: string, i: Item, cur: Option<Board>)
    requires Usable(i.board)
    ensures Wanted(hash, org, i, Some(Wanted(hash, org, i, cur))) == Wanted(hash, org, i, cur)
  {
    var b := Wanted(hash, org, i, cur);
    assert b.annotations[Source := Ref(i.key)][Hash := hash(i.board)] == b.annotations;
  }

  lemma CopyPlaces(hash: Board -> string, store: Store, org: string, i: Item, j: Item)
    requires Usable(j.board)
    ensures InPlace(hash, Copy(hash, store, org, j), org, j)
    ensures InPlace(hash, store, org, i) && Target(org, i.key) != Target(org, j.key) ==> InPlace(hash, Copy(hash, store, org, j), org, i)
  {
    WantedTwice(hash, org, j, Stored(store, Target(org, j.key)));
  }

  /** After a fault-free pass every source has its copy in place, and no source has changed. */
  lemma {:induction false} PassPlaces(hash: Board -> string, store: Store, org: string, items: seq<Item>)
    requires UniqueNames(items) && AllUsable(items)
    ensures var p := Pass(hash, store, org, items, AllOk);
            && !p.aborted && p.errs == 0
            && (forall i :: i in items && !Skipped(i) ==> InPlace(hash, p.store, org, i))
  {
    if items != [] {
      var n := |items| - 1;
      var init, last := items[..n], items[n];
      PassPlaces(hash, store, org, init);
      var s1 := Pass(hash, store, org, init, AllOk).store;
      assert last in items;
      forall m | 0 <= m < |items| && !Skipped(items[m])
        ensures InPlace(hash, Pass(hash, store, org, items, AllOk).store, org, items[m])
      {
        assert m < n ==> items[m] == init[m];
        if !Skipped(last) { CopyPlaces(hash, s1, org, items[m], last); }
      }
    }
  }

  lemma {:induction false} PassKeepsSources(hash: Board -> string, store: Store, org: string, items: seq<Item>, oks: nat -> bool, k: Key)
    requires !Suffixed(k)
    ensures Stored(Pass(hash, store, org, items, oks).store, k) == Stored(store, k)
  {
    if items != [] {
      PassKeepsSources(hash, store, org, items[..|items| - 1], oks, k);
      SuffixedTarget(org, items[|items| - 1].key);
    }
  }

  lemma {:induction false} SilentPass(hash: Board -> string, store: Store, org: string, items: seq<Item>)
    requires forall i :: i in items && !Skipped(i) ==> InPlace(hash, store, org, i)
    ensures Pass(hash, store, org, items, AllOk) == Progress(store, 0, 0, false)
  {
    if items != [] {
      var last := items[|items| - 1];
      SilentPass(hash, store, org, items[..|items| - 1]);
      assert last in items;
      if !Skipped(last) { InPlaceIffSilent(hash, store, org, last); }
    }
  }

  // ---------------------------------------------------------------- passes of others in between

  /** One pass: for which organisation and backend, over which listing, and which writes succeed. */
  datatype Visit = Visit(org: string, kind: Backend, items: seq<Item>, oks: nat -> bool)

  function StoreAfter(hash: Board -> string, store: Store, visits: seq<Visit>): Store {
    if visits == [] then store
    else
      var v := visits[|visits| - 1];
      Pass(hash, StoreAfter(hash, store, visits[..|visits| - 1]), v.org, v.items, v.oks).store
  }

  /** Every pass starts from a complete and current listing. */
  ghost predicate AllCurrent(hash: Board -> string, store: Store, visits: seq<Visit>) {
    visits == [] ||
    (var v, before := visits[|visits| - 1], visits[..|visits| - 1];
     AllCurrent(hash, store, before) && Lists(v.items, StoreAfter(hash, store, before), v.kind))
  }

  /** Every stored source of the kind has its copy for the organisation in place. */
  ghost predicate Settled(hash: Board -> string, store: Store, org: string, kind: Backend) {
    forall k :: k in store && k.kind == kind && !Skipped(Item(k, store[k])) ==> InPlace(hash, store, org, Item(k, store[k]))
  }

  ghost predicate Shows(items: seq<Item>, store: Store, kind: Backend) {
    forall n :: 0 <= n < |items| ==> items[n].key in store && items[n].board == store[items[n].key] && items[n].key.kind == kind
  }

  lemma OtherTarget(org: string, org': string, k: Key, k': Key)
    requires org != org' || k.kind != k'.kind
    ensures Target(org, k) != Target(org', k')
  {
    if MonitoringNamespace(org) == MonitoringNamespace(org') {
      assert |org| == |org'|;
      assert org == MonitoringNamespace(org)[..|org|] && org' == MonitoringNamespace(org')[..|org'|];
    }
  }

  /** One copy, for whatever organisation and kind, unsettles no other pair of them. */
  lemma CopyKeepsSettled(hash: Board -> string, store: Store, org: string, kind: Backend, org': string, i: Item)
    requires Settled(hash, store, org, kind) && Copied(i) && Stored(store, i.key) == Some(i.board)
    ensures Settled(hash, Copy(hash, store, org', i), org, kind)
  {
    var s1 := Copy(hash, store, org', i);
    if org' == org && i.key.kind == kind {
      InPlaceIffSilent(hash, store, org, i);
    } else {
      forall k | k in s1 && k.kind == kind && !Skipped(Item(k, s1[k])) ensures InPlace(hash, s1, org, Item(k, s1[k])) {
        SuffixedTarget(org', i.key);
        assert k in store && s1[k] == store[k];
        OtherTarget(org, org', k, i.key);
      }
    }
  }

  lemma {:induction false} PassKeepsSettled(hash: Board -> string, store: Store, org: string, kind: Backend, v: Visit)
    requires Settled(hash, store, org, kind) && Shows(v.items, store, v.kind)
    ensures Settled(hash, Pass(hash, store, v.org, v.items, v.oks).store, org, kind)
    decreases |v.items|
  {
    if v.items != [] {
      var n := |v.items| - 1;
      var i := v.items[n];
      PassKeepsSettled(hash, store, org, kind, v.(items := v.items[..n]));
      if Copied(i) {
        PassKeepsSources(hash, store, v.org, v.items[..n], v.oks, i.key);
        CopyKeepsSettled(hash, Pass(hash, store, v.org, v.items[..n], v.oks).store, org, kind, v.org, i);
      }
    }
  }

  lemma {:induction false} VisitsKeepSettled(hash: Board -> string, store: Store, org: string, kind: Backend, visits: seq<Visit>)
    requires Settled(hash, store, org, kind) && AllCurrent(hash, store, visits)
    ensures Settled(hash, StoreAfter(hash, store, visits), org, kind)
  {
    if visits != [] {
      var before := visits[..|visits| - 1];
      VisitsKeepSettled(hash, store, org, kind, before);
      PassKeepsSettled(hash, StoreAfter(hash, store, before), org, kind, visits[|visits| - 1]);
    }
  }

  lemma PassSettles(hash: Board -> string, store: Store, org: string, kind: Backend, items: seq<Item>)
    requires Lists(items, store, kind) && UniqueNames(items) && AllUsable(items)
    ensures Settled(hash, Pass(hash, store, org, items, AllOk).store, org, kind)
  {
    var s1 := Pass(hash, store, org, items, AllOk).store;
    PassPlaces(hash, store, org, items);
    forall k | k in s1 && k.kind == kind && !Skipped(Item(k, s1[k])) ensures InPlace(hash, s1, org, Item(k, s1[k])) {
      PassKeepsSources(hash, store, org, items, AllOk, k);
      assert Item(k, store[k]) in items;
    }
  }

  /** With source names unique, a fault-free pass leaves nothing to do: after any passes of other
      organisations and of the other backend, and more of its own, faulty or not, a pass over any
      complete listing of the result, in any order, changes no object. */
  lemma SecondPassChangesNothing(hash: Board -> string, store: Store, org: string, kind: Backend, items: seq<Item>,
                                 between: seq<Visit>, s2: Store, again: seq<Item>)
    requires Lists(items, store, kind) && UniqueNames(items) && AllUsable(items)
    requires AllCurrent(hash, Pass(hash, store, org, items, AllOk).store, between)
    requires s2 == StoreAfter(hash, Pass(hash, store, org, items, AllOk).store, between) && Lists(again, s2, kind)
    ensures Pass(hash, s2, org, again, AllOk) == Progress(s2, 0, 0, false)
  {
    PassSettles(hash, store, org, kind, items);
    VisitsKeepSettled(hash, Pass(hash, store, org, items, AllOk).store, org, kind, between);
    forall i | i in again && !Skipped(i) ensures InPlace(hash, s2, org, i) {
      var n :| 0 <= n < |again| && again[n] == i;
      assert i == Item(i.key, s2[i.key]);
    }
    SilentPass(hash, s2, org, again);
  }

  /** Two sources of one name overwrite each other for ever: where the copy of one is in place,
      the copy of the other is not. */
  lemma SharedNameNeverSettles(hash: Board -> string, store: Store, org: string, i: Item, j: Item)
    requires i.key.name == j.key.name && i.key.kind == j.key.kind && i.key != j.key
    requires InPlace(hash, store, org, j)
    ensures !InPlace(hash, store, org, i)
  {
    var t := Target(org, i.key);
    assert store[t].annotations[Source] == Ref(j.key);
    if InPlace(hash, store, org, i) {
      assert store[t].annotations[Source] == Ref(i.key);
      RefInjective(i.key, j.key);
    }
  }

  lemma RefInjective(a: Key, b: Key)
    requires a.name == b.name && Ref(a) == Ref(b)
    ensures a.ns == b.ns
  {
    var s, t := Ref(a), Ref(b);
    assert |a.ns| == |b.ns|;
    assert a.ns == s[..|a.ns|] && b.ns == t[..|b.ns|];
  }

  /** The copies of all sources are in place after a fault-free pass if and only if no two sources
      of the kind share a name. */
  lemma UniqueIffSettles(hash: Board -> string, store: Store, org: string, kind: Backend, items: seq<Item>)
    requires Lists(items, store, kind) && AllUsable(items)
    ensures UniqueNames(items) <==>
            forall i :: i in items && !Skipped(i) ==> InPlace(hash, Pass(hash, store, org, items, AllOk).store, org, i)
  {
    if UniqueNames(items) {
      PassPlaces(hash, store, org, items);
    } else {
      var i, j :| 0 <= i < j < |items| && !Skipped(items[i]) && !Skipped(items[j])
                  && items[i].key.name == items[j].key.name && items[i].key.kind == items[j].key.kind;
      assert items[i] in items && items[j] in items;
      var s1 := Pass(hash, store, org, items, AllOk).store;
      if InPlace(hash, s1, org, items[j]) {
        SharedNameNeverSettles(hash, s1, org, items[i], items[j]);
      }
    }
  }

  // ---------------------------------------------------------------- re-titling

  lemma {:induction false} TrimLeftMeans(s: string)
    ensures var r := TrimLeft(s);
            && |r| <= |s| && s[|s| - |r|..] == r
            && (forall n :: 0 <= n < |s| - |r| ==> IsSpace(s[n]))
            && (r != "" ==> !IsSpace(r[0]))
  {
    if s != "" && IsSpace(s[0]) { TrimLeftMeans(s[1..]); }
  }

  lemma {:induction false} TrimRightMeans(s: string)
    ensures var r := TrimRight(s);
            && r <= s
            && (forall n :: |r| <= n < |s| ==> IsSpace(s[n]))
            && (r != "" ==> !IsSpace(r[|r| - 1]))
  {
    if s != "" && IsSpace(s[|s| - 1]) { TrimRightMeans(s[..|s| - 1]); }
  }

  predicate Trimmed(t: string) {
    t != "" ==> !IsSpace(t[0]) && !IsSpace(t[|t| - 1])
  }

  lemma TrimSpaceMeans(s: string)
    ensures Trimmed(TrimSpace(s)) && |TrimSpace(s)| <= |s| && (Trimmed(s) ==> TrimSpace(s) == s)
  {
    TrimLeftMeans(s);
    TrimRightMeans(TrimLeft(s));
  }

  /** Re-titling a copy would leave its title alone exactly when the title does not start with
      the prefix once more: copying copies would not be harmless. */
  lemma RetitlingIsStable(title: string)
    ensures ClientTitle(ClientTitle(title)) == ClientTitle(title) <==> !(TITLE_PREFIX <= ClientTitle(title))
  {
    TrimSpaceMeans(TrimPrefix(title, TITLE_PREFIX));
    var t := ClientTitle(title);
    TrimSpaceMeans(TrimPrefix(t, TITLE_PREFIX));
  }

  // ---------------------------------------------------------------- all runs, any number of organisations

  /** Which of the two checks the copy loop makes; the code makes both. */
  datatype Rule = Both | OnlyAnnotation | OnlySuffix

  predicate SkippedBy(rule: Rule, i: Item) {
    (rule != OnlySuffix && Annotated(i.board)) || (rule != OnlyAnnotation && Suffixed(i.key))
  }

  datatype Entry = Entry(org: string, src: Item, dst: Item)

  /** past holds every version an object ever had, derived those that the copier wrote or that
      were made by editing such a version, live the keys whose stored version is derived. */
  datatype State = State(store: Store, past: set<Item>, orgs: set<string>, derived: set<Item>, live: set<Key>, log: seq<Entry>)

  /** One iteration of some copy loop over a listing of past versions, or a user's move. */
  datatype Step =
    | CopyOne(org: string, src: Item)
    | AddOrg(org: string)
    | Edit(key: Key, board: Board)
    | Remove(key: Key)

  function Apply(hash: Board -> string, rule: Rule, s: State, step: Step): State {
    match step
    case CopyOne(org, i) =>
      if org !in s.orgs || i !in s.past || SkippedBy(rule, i) || !Usable(i.board) then s
      else
        var store := Copy(hash, s.store, org, i);
        var t := Target(org, i.key);
        var d := Item(t, store[t]);
        s.(store := store, past := s.past + {d}, derived := s.derived + {d}, live := s.live + {t},
           log := s.log + [Entry(org, i, d)])
    case AddOrg(org) => s.(orgs := s.orgs + {org})
    case Edit(k, b) =>
      var v := {Item(k, b)};
      s.(store := s.store[k := b], past := s.past + v, derived := if k in s.live then s.derived + v else s.derived)
    case Remove(k) => s.(store := s.store - {k}, live := s.live - {k})
  }

  function Run(hash: Board -> string, rule: Rule, s: State, steps: seq<Step>): State {
    if steps == [] then s
    else Apply(hash, rule, Run(hash, rule, s, steps[..|steps| - 1]), steps[|steps| - 1])
  }

  /** The user leaves the source annotation of copies alone. */
  ghost predicate KeepsSource(hash: Board -> string, rule: Rule, s: State, steps: seq<Step>) {
    steps == [] ||
    var init, last := steps[..|steps| - 1], steps[|steps| - 1];
    && KeepsSource(hash, rule, s, init)
    && (last.Edit? && last.key in Run(hash, rule, s, init).live ==> Annotated(last.board))
  }

  /** An operator starts; earlier copies carry the annotation and lie in monitoring namespaces. */
  ghost predicate Start(s: State) {
    && s.log == []
    && (forall d :: d in s.derived ==> Annotated(d.board) && Suffixed(d.key))
    && (forall k :: k in s.live ==> Suffixed(k))
  }

  ghost predicate Sound(hash: Board -> string, rule: Rule, orgs: set<string>, e: Entry) {
    && !SkippedBy(rule, e.src) && Usable(e.src.board)
    && e.org in orgs && e.dst.key == Target(e.org, e.src.key)
    && (exists cur :: e.dst.board == Wanted(hash, e.org, e.src, cur))
  }

  ghost predicate Inv(hash: Board -> string, rule: Rule, s: State, kept: bool) {
    && (forall n :: 0 <= n < |s.log| ==> Sound(hash, rule, s.orgs, s.log[n]))
    && (forall d :: d in s.derived ==> Suffixed(d.key) && (kept ==> Annotated(d.board)))
    && (forall k :: k in s.live ==> Suffixed(k))
  }

  lemma StepKeeps(hash: Board -> string, rule: Rule, s: State, step: Step, kept: bool)
    requires Inv(hash, rule, s, kept)
    requires kept && step.Edit? && step.key in s.live ==> Annotated(step.board)
    ensures Inv(hash, rule, Apply(hash, rule, s, step), kept)
  {
    var s' := Apply(hash, rule, s, step);
    if step.CopyOne? && s' != s {
      SuffixedTarget(step.org, step.src.key);
      assert Sound(hash, rule, s'.orgs, s'.log[|s.log|]);
    }
    forall n | 0 <= n < |s'.log| ensures Sound(hash, rule, s'.orgs, s'.log[n]) {
      if n < |s.log| { assert Sound(hash, rule, s.orgs, s.log[n]); }
    }
  }

  lemma {:induction false} RunKeeps(hash: Board -> string, rule: Rule, s: State, steps: seq<Step>, kept: bool)
    requires Start(s) && (kept ==> KeepsSource(hash, rule, s, steps))
    ensures Inv(hash, rule, Run(hash, rule, s, steps), kept)
  {
    if steps != [] {
      RunKeeps(hash, rule, s, steps[..|steps| - 1], kept);
      StepKeeps(hash, rule, Run(hash, rule, s, steps[..|steps| - 1]), steps[|steps| - 1], kept);
    }
  }

  /** Copying has depth one on every run with any number of organisations: no version that the
      copier wrote, or that came from one, is ever copied. Each of the two checks is enough: the
      suffix whatever users do, the annotation as long as they leave it on the copies. */
  lemma NoCopyIsCopied(hash: Board -> string, rule: Rule, s: State, steps: seq<Step>, e: Entry, d: Item)
    requires Start(s) && (rule == OnlyAnnotation ==> KeepsSource(hash, rule, s, steps))
    requires e in Run(hash, rule, s, steps).log && d in Run(hash, rule, s, steps).derived
    ensures e.src != d
  {
    RunKeeps(hash, rule, s, steps, rule == OnlyAnnotation);
    var log := Run(hash, rule, s, steps).log;
    var n :| 0 <= n < |log| && log[n] == e;
    assert Sound(hash, rule, Run(hash, rule, s, steps).orgs, log[n]);
  }

  /** Every copy carries the title of a source that is no copy, shortened once. */
  lemma TitledOnce(hash: Board -> string, s: State, steps: seq<Step>, e: Entry)
    requires Start(s) && e in Run(hash, Both, s, steps).log
    ensures Usable(e.src.board) && Usable(e.dst.board)
    ensures e.dst.board.spec.model.value.title == ClientTitle(e.src.board.spec.model.value.title)
    ensures Annotated(e.dst.board) && e.dst.board.annotations[Source] == Ref(e.src.key)
    ensures e.src !in Run(hash, Both, s, steps).derived
  {
    RunKeeps(hash, Both, s, steps, false);
    var r := Run(hash, Both, s, steps);
    var n :| 0 <= n < |r.log| && r.log[n] == e;
    assert Sound(hash, Both, r.orgs, r.log[n]);
  }

  // ---------------------------------------------------------------- how many copies there are

  function Sources(log: seq<Entry>): set<Key> {
    set n | 0 <= n < |log| :: log[n].src.key
  }

  function Targets(log: seq<Entry>): set<Key> {
    set n | 0 <= n < |log| :: log[n].dst.key
  }

  function Row(org: string, ks: set<Key>): set<Key> {
    set k | k in ks :: Target(org, k)
  }

  function Grid(orgs: set<string>, ks: set<Key>): set<Key> {
    set org, k | org in orgs && k in ks :: Target(org, k)
  }

  lemma {:induction false} RowSize(org: string, ks: set<Key>)
    ensures |Row(org, ks)| <= |ks|
  {
    if ks != {} {
      var k :| k in ks;
      RowSize(org, ks - {k});
      assert Row(org, ks) == Row(org, ks - {k}) + {Target(org, k)};
    }
  }

  lemma OneMoreRow(rows: nat, width: nat)
    requires rows > 0
    ensures rows * width == (rows - 1) * width + width
  {
  }

  lemma GridSplit(orgs: set<string>, org: string, ks: set<Key>)
    requires org in orgs
    ensures Grid(orgs, ks) == Grid(orgs - {org}, ks) + Row(org, ks)
  {
    forall k | k in Grid(orgs, ks) ensures k in Grid(orgs - {org}, ks) + Row(org, ks) {
      var o, s :| o in orgs && s in ks && k == Target(o, s);
      if o == org { assert k in Row(org, ks); }
    }
  }

  lemma SumOfSizes<T>(a: set<T>, b: set<T>)
    ensures |a + b| <= |a| + |b|
  {
    assert |a + b| + |a * b| == |a| + |b|;
  }

  lemma {:induction false} GridSize(orgs: set<string>, ks: set<Key>)
    ensures |Grid(orgs, ks)| <= |orgs| * |ks|
  {
    if orgs == {} {
      assert Grid(orgs, ks) == {};
    } else {
      var org :| org in orgs;
      GridSize(orgs - {org}, ks);
      RowSize(org, ks);
      GridSplit(orgs, org, ks);
      SumOfSizes(Grid(orgs - {org}, ks), Row(org, ks));
      OneMoreRow(|orgs|, |ks|);
    }
  }

  /** The copier ever writes at most organisations times sources different objects. */
  lemma CopiesAreBounded(hash: Board -> string, s: State, steps: seq<Step>)
    requires Start(s)
    ensures var r := Run(hash, Both, s, steps);
            |Targets(r.log)| <= |r.orgs| * |Sources(r.log)| && Targets(r.log) !! Sources(r.log)
  {
    RunKeeps(hash, Both, s, steps, false);
    var r := Run(hash, Both, s, steps);
    forall k | k in Targets(r.log) ensures k in Grid(r.orgs, Sources(r.log)) && Suffixed(k) {
      var n :| 0 <= n < |r.log| && r.log[n].dst.key == k;
      assert Sound(hash, Both, r.orgs, r.log[n]);
      assert r.log[n].src.key in Sources(r.log);
      SuffixedTarget(r.log[n].org, r.log[n].src.key);
    }
    forall k | k in Sources(r.log) ensures !Suffixed(k) {
      var n :| 0 <= n < |r.log| && r.log[n].src.key == k;
      assert Sound(hash, Both, r.orgs, r.log[n]);
    }
    Subset(Targets(r.log), Grid(r.orgs, Sources(r.log)));
    GridSize(r.orgs, Sources(r.log));
  }

  lemma {:induction false} Subset<T>(a: set<T>, b: set<T>)
    requires a <= b
    ensures |a| <= |b|
  {
    if a != {} {
      var x :| x in a;
      Subset(a - {x}, b - {x});
    }
  }
}
