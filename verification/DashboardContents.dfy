/** What is in a copied dashboard, on every run and after every pass, attribute by attribute. */
module DashboardContents {
  import opened Kube
  import opened DashboardCopies

  /** A dashboard that is to be copied: one that carries no source annotation and lies in no
      monitoring namespace. */
  ghost predicate IsSource(i: Item) {
    Source !in i.board.annotations && forall org :: i.key.ns != org + "-monitoring"
  }

  /** Every variable named "namespace" is the constant of the organisation, all others are as they were. */
  ghost predicate PinnedTo(org: string, vars: seq<Var>, copy: seq<Var>) {
    && |copy| == |vars|
    && forall n :: 0 <= n < |vars| ==>
         copy[n] == if vars[n].name == "namespace" then Var("namespace", "constant", org) else vars[n]
  }

  /** t is what remains of s without the spaces around it. */
  ghost predicate Stripped(s: string, t: string) {
    exists i, j :: 0 <= i <= j <= |s| && t == s[i..j]
      && (forall n :: 0 <= n < i ==> IsSpace(s[n])) && (forall n :: j <= n < |s| ==> IsSpace(s[n]))
      && (i < j ==> !IsSpace(s[i]) && !IsSpace(s[j - 1]))
  }

  /** The title without the product prefix and without spaces around it. */
  ghost predicate Shortened(title: string, copy: string) {
    Stripped(if "KubeDB /" <= title then title[8..] else title, copy)
  }

  /** The copy of a usable source for an organisation. */
  ghost predicate IsCopyOf(hash: Board -> string, org: string, src: Item, dst: Item)
    requires Usable(src.board)
  {
    var name := if src.key.kind == Grafana then "grafana" else "perses";
    && dst.key == Key(org + "-monitoring", src.key.name, src.key.kind)
    && Usable(dst.board)
    && (var m, c := src.board.spec.model.value, dst.board.spec.model.value;
        && Shortened(m.title, c.title)
        && (if src.key.kind == Grafana then PinnedTo(org, m.vars, c.vars) else c.vars == m.vars)
        && c.body == m.body)
    && dst.board.spec.rest == src.board.spec.rest
    && dst.board.spec.backend == Some((org + "-monitoring", name))
    && Source in dst.board.annotations && dst.board.annotations[Source] == src.key.ns + "/" + src.key.name
    && Hash in dst.board.annotations && dst.board.annotations[Hash] == hash(src.board)
  }

  // ---------------------------------------------------------------- strings

  lemma TrimIsStripped(s: string)
    ensures Stripped(s, TrimSpace(s))
  {
    TrimLeftMeans(s);
    var left := TrimLeft(s);
    TrimRightMeans(left);
    var t := TrimRight(left);
    StrippedAt(s, left, t);
  }

  /** left is what is left of s without the spaces in front, and t of left without those behind. */
  lemma StrippedAt(s: string, left: string, t: string)
    requires |t| <= |left| <= |s| && s[|s| - |left|..] == left && left[..|t|] == t
    requires forall n :: 0 <= n < |s| - |left| ==> IsSpace(s[n])
    requires forall n :: |t| <= n < |left| ==> IsSpace(left[n])
    requires (left != "" ==> !IsSpace(left[0])) && (t != "" ==> !IsSpace(t[|t| - 1]))
    ensures Stripped(s, t)
  {
    var i := |s| - |left|;
    var j := i + |t|;
    assert forall n :: 0 <= n < |left| ==> left[n] == s[i + n];
    forall n | j <= n < |s| ensures IsSpace(s[n]) { assert s[n] == left[n - i]; }
    assert t == s[i..j];
  }

  lemma TitleIsShortened(title: string)
    ensures Shortened(title, ClientTitle(title))
  {
    assert TrimPrefix(title, TITLE_PREFIX) == if "KubeDB /" <= title then title[8..] else title;
    TrimIsStripped(TrimPrefix(title, TITLE_PREFIX));
  }

  lemma SuffixMeans(ns: string)
    ensures HasSuffix(ns, SUFFIX) <==> exists org: string :: ns == org + "-monitoring"
  {
    if HasSuffix(ns, SUFFIX) {
      assert ns == ns[..|ns| - |SUFFIX|] + "-monitoring";
    }
    forall org: string | ns == org + "-monitoring" ensures HasSuffix(ns, SUFFIX) {
      assert ns[|ns| - |SUFFIX|..] == "-monitoring";
    }
  }

  lemma SourcesAreCopied(i: Item)
    ensures Skipped(i) <==> !IsSource(i)
  {
    SuffixMeans(i.key.ns);
  }

  // ---------------------------------------------------------------- one copy

  lemma WantedIsCopy(hash: Board -> string, org: string, i: Item, cur: Option<Board>)
    requires Usable(i.board)
    ensures IsCopyOf(hash, org, i, Item(Target(org, i.key), Wanted(hash, org, i, cur)))
  {
    TitleIsShortened(i.board.spec.model.value.title);
    var b := Wanted(hash, org, i, cur);
    var m, c := i.board.spec.model.value, b.spec.model.value;
    assert i.key.kind == Grafana ==> PinnedTo(org, m.vars, c.vars);
  }

  /** One copy changes the target only. There it leaves the labels and the other annotations of what is
      stored, and takes those of the source if nothing is. */
  lemma CopyMeans(hash: Board -> string, store: Store, org: string, i: Item)
    requires Usable(i.board)
    ensures var t, after := Key(org + "-monitoring", i.key.name, i.key.kind), Copy(hash, store, org, i);
            && t in after && after == store[t := after[t]] && IsCopyOf(hash, org, i, Item(t, after[t]))
            && var before := if t in store then store[t] else i.board;
               && after[t].labels == before.labels
               && after[t].annotations.Keys == before.annotations.Keys + {Source, Hash}
               && forall a :: a in before.annotations && a != Source && a != Hash ==> after[t].annotations[a] == before.annotations[a]
  {
    WantedIsCopy(hash, org, i, Stored(store, Target(org, i.key)));
  }

  // ---------------------------------------------------------------- every run, every pass

  /** On every run with any number of organisations, every version the copier writes is the copy of a
      dashboard that is no copy, pinned to the organisation it is for. */
  lemma EveryCopyIsPinned(hash: Board -> string, s: State, steps: seq<Step>, e: Entry)
    requires Start(s) && e in Run(hash, Both, s, steps).log
    ensures IsSource(e.src) && Usable(e.src.board) && IsCopyOf(hash, e.org, e.src, e.dst)
  {
    RunKeeps(hash, Both, s, steps, false);
    var r := Run(hash, Both, s, steps);
    var n :| 0 <= n < |r.log| && r.log[n] == e;
    assert Sound(hash, Both, r.orgs, r.log[n]);
    var cur :| e.dst.board == Wanted(hash, e.org, e.src, cur);
    WantedIsCopy(hash, e.org, e.src, cur);
    SourcesAreCopied(e.src);
  }

  /** After a fault-free pass over sources with unique names, every source has its copy stored. */
  lemma PassCopiesAll(hash: Board -> string, store: Store, org: string, items: seq<Item>, i: Item)
    requires forall a, b :: 0 <= a < b < |items| && IsSource(items[a]) && IsSource(items[b])
                            ==> items[a].key.name != items[b].key.name || items[a].key.kind != items[b].key.kind
    requires forall j :: j in items && IsSource(j) ==> Usable(j.board)
    requires i in items && IsSource(i)
    ensures var p, t := Pass(hash, store, org, items, AllOk), Key(org + "-monitoring", i.key.name, i.key.kind);
            !p.aborted && p.errs == 0 && t in p.store && IsCopyOf(hash, org, i, Item(t, p.store[t]))
  {
    forall j ensures Skipped(j) <==> !IsSource(j) { SourcesAreCopied(j); }
    PassPlaces(hash, store, org, items);
    var p := Pass(hash, store, org, items, AllOk);
    assert InPlace(hash, p.store, org, i);
    WantedIsCopy(hash, org, i, Some(p.store[Target(org, i.key)]));
  }
}
