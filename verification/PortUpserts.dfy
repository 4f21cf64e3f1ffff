/**
 Copying the ports of a Service and of its Endpoints: the upsert by name, what folding it over all
 source ports amounts to, and when copying Endpoints panics.
 */
module PortUpserts {
  import opened Kube

  datatype Target = NoTarget | Number(n: int) | PortName(s: string)

  /** A port of a Service or of an Endpoints subset; other stands for protocol, node port and so
      on, and Endpoints ports have no target. */
  datatype Port = Port(name: string, number: int, target: Target, other: string)

  datatype Kind = ServicePorts | EndpointPorts

  /** What an upsert is asked for. */
  datatype Want = Want(name: string, number: int)

  function Write(kind: Kind, p: Port, number: int): Port {
    if kind == ServicePorts then p.(number := number, target := Number(number)) else p.(number := number)
  }

  function New(kind: Kind, x: Want): Port {
    Write(kind, Port(x.name, 0, NoTarget, ""), x.number)
  }

  function Upsert(kind: Kind, ports: seq<Port>, x: Want): seq<Port> {
    if ports == [] then [New(kind, x)]
    else if ports[0].name == x.name then [Write(kind, ports[0], x.number)] + ports[1..]
    else [ports[0]] + Upsert(kind, ports[1..], x)
  }

  function UpsertAll(kind: Kind, ports: seq<Port>, xs: seq<Want>): seq<Port> {
    if xs == [] then ports else Upsert(kind, UpsertAll(kind, ports, xs[..|xs| - 1]), xs[|xs| - 1])
  }

  lemma {:induction false} UpsertFrom(kind: Kind, ports: seq<Port>, x: Want, n: nat)
    requires n <= |ports| && forall i :: 0 <= i < n ==> ports[i].name != x.name
    ensures Upsert(kind, ports, x) == ports[..n] + Upsert(kind, ports[n..], x)
  {
    if n > 0 {
      UpsertFrom(kind, ports[1..], x, n - 1);
      assert Upsert(kind, ports, x) == [ports[0]] + Upsert(kind, ports[1..], x);
      assert ports[1..][n - 1..] == ports[n..];
      assert ports[..n] == [ports[0]] + ports[1..][..n - 1];
    }
  }

  /** UpsertServicePort and UpsertEndpointPort. */
  method UpsertPort(kind: Kind, ports: seq<Port>, x: Want) returns (r: seq<Port>)
    ensures r == Upsert(kind, ports, x)
  {
    for i := 0 to |ports|
      invariant forall j :: 0 <= j < i ==> ports[j].name != x.name
    {
      if ports[i].name == x.name {
        UpsertFrom(kind, ports, x, i);
        assert ports[i..][1..] == ports[i + 1..];
        return ports[i := Write(kind, ports[i], x.number)];
      }
    }
    UpsertFrom(kind, ports, x, |ports|);
    return ports + [New(kind, x)];
  }

  method UpsertPorts(kind: Kind, ports: seq<Port>, xs: seq<Want>) returns (r: seq<Port>)
    ensures r == UpsertAll(kind, ports, xs)
  {
    r := ports;
    for k := 0 to |xs|
      invariant r == UpsertAll(kind, ports, xs[..k])
    {
      assert xs[..k + 1][..k] == xs[..k];
      r := UpsertPort(kind, r, xs[k]);
    }
    assert xs[..|xs|] == xs;
  }

  // ---------------------------------------------------------------- the fold as an override by name

  /** The last entry of xs under the name. */
  function Last(xs: seq<Want>, name: string): Option<int> {
    if xs == [] then None
    else if xs[|xs| - 1].name == name then Some(xs[|xs| - 1].number)
    else Last(xs[..|xs| - 1], name)
  }

  ghost predicate UniqueNames(ports: seq<Port>) {
    forall i, j :: 0 <= i < j < |ports| ==> ports[i].name != ports[j].name
  }

  predicate HasName(ports: seq<Port>, name: string) {
    exists i :: 0 <= i < |ports| && ports[i].name == name
  }

  /** ports[i] is the first port of its name. */
  ghost predicate IsFirst(ports: seq<Port>, i: nat)
    requires i < |ports|
  {
    forall j :: 0 <= j < i ==> ports[j].name != ports[i].name
  }

  /** Either some port has the name, and then one of them is the first, or none has. */
  lemma {:induction false} FindFirst(ports: seq<Port>, name: string) returns (n: nat)
    ensures n <= |ports| && forall j :: 0 <= j < n ==> ports[j].name != name
    ensures if HasName(ports, name) then n < |ports| && ports[n].name == name else n == |ports|
  {
    n := 0;
    while n < |ports| && ports[n].name != name
      invariant n <= |ports| && forall j :: 0 <= j < n ==> ports[j].name != name
    {
      n := n + 1;
    }
  }

  /** One upsert, index by index. */
  lemma UpsertAt(kind: Kind, ports: seq<Port>, x: Want)
    ensures var r := Upsert(kind, ports, x);
            && |r| == (if HasName(ports, x.name) then |ports| else |ports| + 1)
            && (forall i :: 0 <= i < |ports| ==>
                  r[i] == if ports[i].name == x.name && IsFirst(ports, i) then Write(kind, ports[i], x.number) else ports[i])
            && (!HasName(ports, x.name) ==> r[|ports|] == New(kind, x))
  {
    var n := FindFirst(ports, x.name);
    UpsertFrom(kind, ports, x, n);
    if n < |ports| {
      assert ports[n..][0] == ports[n] && ports[n..][1..] == ports[n + 1..];
      assert Upsert(kind, ports, x) == ports[..n] + [Write(kind, ports[n], x.number)] + ports[n + 1..];
      assert IsFirst(ports, n);
      assert forall i :: n < i < |ports| && ports[i].name == x.name ==> !IsFirst(ports, i);
    } else {
      assert Upsert(kind, ports, x) == ports + [New(kind, x)];
    }
  }

  /** An existing port keeps its place and everything but its number, which becomes that of the
      last source port of its name; ports that no source port names are untouched. */
  ghost predicate KeptAt(kind: Kind, ports: seq<Port>, xs: seq<Want>, r: seq<Port>, i: nat)
    requires i < |ports| <= |r|
  {
    r[i] == if IsFirst(ports, i) && Last(xs, ports[i].name).Some?
            then Write(kind, ports[i], Last(xs, ports[i].name).value) else ports[i]
  }

  /** A port past the old ones is new: named once, by a source port. */
  ghost predicate AddedAt(kind: Kind, ports: seq<Port>, xs: seq<Want>, r: seq<Port>, i: nat)
    requires |ports| <= i < |r|
  {
    && !HasName(ports, r[i].name) && Last(xs, r[i].name).Some?
    && r[i] == New(kind, Want(r[i].name, Last(xs, r[i].name).value))
    && IsFirst(r, i)
  }

  ghost predicate Overridden(kind: Kind, ports: seq<Port>, xs: seq<Want>, r: seq<Port>) {
    && |ports| <= |r|
    && (forall i :: 0 <= i < |ports| ==> KeptAt(kind, ports, xs, r, i))
    && (forall i :: |ports| <= i < |r| ==> AddedAt(kind, ports, xs, r, i))
    && (forall x :: x in xs ==> HasName(r, x.name))
  }

  /** Folding the upsert is override by name: what is stored in r is determined by the target
      ports and by the last source port of each name. */
  lemma {:induction false} FoldOverrides(kind: Kind, ports: seq<Port>, xs: seq<Want>)
    ensures Overridden(kind, ports, xs, UpsertAll(kind, ports, xs))
  {
    if xs != [] {
      FoldOverrides(kind, ports, xs[..|xs| - 1]);
      OverrideOneMore(kind, ports, xs, UpsertAll(kind, ports, xs[..|xs| - 1]));
    }
  }

  lemma OverrideOneMore(kind: Kind, ports: seq<Port>, xs: seq<Want>, r: seq<Port>)
    requires xs != [] && Overridden(kind, ports, xs[..|xs| - 1], r)
    ensures Overridden(kind, ports, xs, Upsert(kind, r, xs[|xs| - 1]))
  {
    var x, init := xs[|xs| - 1], xs[..|xs| - 1];
    var r' := Upsert(kind, r, x);
    SameNames(kind, r, x);
    forall i | 0 <= i < |ports| ensures KeptAt(kind, ports, xs, r', i) { KeptOneMore(kind, ports, xs, r, i); }
    forall i | |ports| <= i < |r'| ensures AddedAt(kind, ports, xs, r', i) { AddedOneMore(kind, ports, xs, r, i); }
    forall y | y in xs ensures HasName(r', y.name) {
      if y in init {
        var j :| 0 <= j < |r| && r[j].name == y.name;
        assert r'[j].name == y.name;
      }
    }
  }

  lemma KeepsNames(kind: Kind, ports: seq<Port>, xs: seq<Want>, r: seq<Port>, i: nat)
    requires Overridden(kind, ports, xs, r) && i < |ports|
    ensures r[i].name == ports[i].name && (IsFirst(r, i) <==> IsFirst(ports, i))
  {
    forall j | 0 <= j < |ports| ensures r[j].name == ports[j].name {
      assert KeptAt(kind, ports, xs, r, j);
    }
  }

  lemma KeptOneMore(kind: Kind, ports: seq<Port>, xs: seq<Want>, r: seq<Port>, i: nat)
    requires xs != [] && Overridden(kind, ports, xs[..|xs| - 1], r) && i < |ports|
    requires |ports| <= |Upsert(kind, r, xs[|xs| - 1])|
    ensures KeptAt(kind, ports, xs, Upsert(kind, r, xs[|xs| - 1]), i)
  {
    UpsertAt(kind, r, xs[|xs| - 1]);
    KeepsNames(kind, ports, xs[..|xs| - 1], r, i);
    assert KeptAt(kind, ports, xs[..|xs| - 1], r, i);
  }

  lemma AddedOneMore(kind: Kind, ports: seq<Port>, xs: seq<Want>, r: seq<Port>, i: nat)
    requires xs != [] && Overridden(kind, ports, xs[..|xs| - 1], r)
    requires |ports| <= i < |Upsert(kind, r, xs[|xs| - 1])|
    ensures AddedAt(kind, ports, xs, Upsert(kind, r, xs[|xs| - 1]), i)
  {
    var x := xs[|xs| - 1];
    var r' := Upsert(kind, r, x);
    UpsertAt(kind, r, x);
    SameNames(kind, r, x);
    if i == |r| {
      if HasName(ports, x.name) {
        var j :| 0 <= j < |ports| && ports[j].name == x.name;
        KeepsNames(kind, ports, xs[..|xs| - 1], r, j);
      }
      assert IsFirst(r', i);
    } else {
      assert AddedAt(kind, ports, xs[..|xs| - 1], r, i);
      assert IsFirst(r', i);
    }
  }

  lemma SameNames(kind: Kind, r: seq<Port>, x: Want)
    ensures var r' := Upsert(kind, r, x);
            && |r| <= |r'| && (forall i :: 0 <= i < |r| ==> r'[i].name == r[i].name)
            && (|r'| > |r| ==> !HasName(r, x.name) && r'[|r|].name == x.name) && HasName(r', x.name)
  {
    UpsertAt(kind, r, x);
    var r' := Upsert(kind, r, x);
    if HasName(r, x.name) {
      var j :| 0 <= j < |r| && r[j].name == x.name;
      assert r'[j].name == x.name;
    } else {
      assert r'[|r|].name == x.name;
    }
  }

  /** Names stay unique. */
  lemma NamesStayUnique(kind: Kind, ports: seq<Port>, xs: seq<Want>)
    requires UniqueNames(ports)
    ensures UniqueNames(UpsertAll(kind, ports, xs))
  {
    FoldOverrides(kind, ports, xs);
    var r := UpsertAll(kind, ports, xs);
    forall i, j | 0 <= i < j < |r| ensures r[i].name != r[j].name {
      if j < |ports| {
        KeepsNames(kind, ports, xs, r, i);
        KeepsNames(kind, ports, xs, r, j);
      } else {
        assert AddedAt(kind, ports, xs, r, j);
      }
    }
  }

  /** Folding the same source ports a second time changes nothing. */
  lemma FoldTwice(kind: Kind, ports: seq<Port>, xs: seq<Want>)
    ensures UpsertAll(kind, UpsertAll(kind, ports, xs), xs) == UpsertAll(kind, ports, xs)
  {
    var r := UpsertAll(kind, ports, xs);
    FoldOverrides(kind, ports, xs);
    FoldOverrides(kind, r, xs);
    var r2 := UpsertAll(kind, r, xs);
    if |r2| > |r| {
      assert AddedAt(kind, r, xs, r2, |r|);
      LastIsMember(xs, r2[|r|].name);
      assert false;
    }
    forall i | 0 <= i < |r| ensures r2[i] == r[i] {
      assert KeptAt(kind, r, xs, r2, i);
      if i < |ports| {
        assert KeptAt(kind, ports, xs, r, i);
        KeepsNames(kind, ports, xs, r, i);
      } else {
        assert AddedAt(kind, ports, xs, r, i);
      }
    }
  }

  lemma {:induction false} LastIsMember(xs: seq<Want>, name: string)
    ensures Last(xs, name).Some? <==> exists x :: x in xs && x.name == name
  {
    if xs != [] {
      LastIsMember(xs[..|xs| - 1], name);
      assert forall x :: x in xs <==> x in xs[..|xs| - 1] || x == xs[|xs| - 1];
    }
  }

  // ---------------------------------------------------------------- Endpoints

  datatype Subset = Subset(addresses: seq<string>, ports: seq<Port>, other: string)

  /** The first Service port of a name; None is the panic of ServicePortForName. */
  function PortForName(ports: seq<Port>, name: string): Option<int> {
    if ports == [] then None else if ports[0].name == name then Some(ports[0].number) else PortForName(ports[1..], name)
  }

  lemma {:induction false} PortForNameFrom(ports: seq<Port>, name: string, n: nat)
    requires n <= |ports| && forall i :: 0 <= i < n ==> ports[i].name != name
    ensures PortForName(ports, name) == PortForName(ports[n..], name)
  {
    if n > 0 {
      PortForNameFrom(ports[1..], name, n - 1);
      assert ports[1..][n - 1..] == ports[n..];
    }
  }

  method ServicePortForName(ports: seq<Port>, name: string) returns (r: Option<int>)
    ensures r == PortForName(ports, name)
    ensures r.Some? <==> HasName(ports, name)
  {
    for i := 0 to |ports|
      invariant forall j :: 0 <= j < i ==> ports[j].name != name
    {
      if ports[i].name == name {
        PortForNameFrom(ports, name, i);
        return Some(ports[i].number);
      }
    }
    PortForNameFrom(ports, name, |ports|);
    return None;
  }

  lemma {:induction false} NamedIffFound(ports: seq<Port>, name: string)
    ensures PortForName(ports, name).Some? <==> HasName(ports, name)
  {
    if ports != [] {
      NamedIffFound(ports[1..], name);
      if HasName(ports[1..], name) {
        var i :| 0 <= i < |ports[1..]| && ports[1..][i].name == name;
        assert ports[i + 1].name == name;
      }
      if HasName(ports, name) && ports[0].name != name {
        var i :| 0 <= i < |ports| && ports[i].name == name;
        assert ports[1..][i - 1].name == name;
      }
    }
  }

  /** Every named port of a source subset exists on the Service. */
  predicate Served(names: seq<string>, service: seq<Port>) {
    forall n :: n in names ==> PortForName(service, n).Some?
  }

  function Wants(names: seq<string>, service: seq<Port>): (r: seq<Want>)
    requires Served(names, service)
    ensures |r| == |names|
    ensures forall i :: 0 <= i < |r| ==> r[i] == Want(names[i], PortForName(service, names[i]).value)
  {
    seq(|names|, i requires 0 <= i < |names| => Want(names[i], PortForName(service, names[i]).value))
  }

  function CopiedSubset(cur: Subset, names: seq<string>, ip: string, service: seq<Port>): Subset
    requires Served(names, service)
  {
    Subset([ip], UpsertAll(EndpointPorts, cur.ports, Wants(names, service)), cur.other)
  }

  function OldSubset(cur: seq<Subset>, i: nat): Subset {
    if i < |cur| then cur[i] else Subset([], [], "")
  }

  predicate AllServed(src: seq<seq<string>>, service: seq<Port>) {
    forall s :: s in src ==> Served(s, service)
  }

  /** The subsets of the copy: those of the source lead to the ClusterIP of the Service with the
      port numbers of the Service; further subsets of an earlier copy stay. */
  function CopiedSubsets(cur: seq<Subset>, src: seq<seq<string>>, ip: string, service: seq<Port>): (r: seq<Subset>)
    requires AllServed(src, service)
    ensures |r| == if |src| > |cur| then |src| else |cur|
    ensures forall i :: 0 <= i < |src| ==> r[i] == CopiedSubset(OldSubset(cur, i), src[i], ip, service)
    ensures forall i :: |src| <= i < |r| ==> r[i] == cur[i]
  {
    seq(if |src| > |cur| then |src| else |cur|, i requires 0 <= i =>
      if i < |src| then CopiedSubset(OldSubset(cur, i), src[i], ip, service) else OldSubset(cur, i))
  }

  /** The port loop of copyEndpoints; None is a panic. */
  method CopyPorts(ports: seq<Port>, names: seq<string>, service: seq<Port>) returns (r: Option<seq<Port>>)
    ensures r.Some? <==> Served(names, service)
    ensures r.Some? ==> r.value == UpsertAll(EndpointPorts, ports, Wants(names, service))
  {
    var out := ports;
    for k := 0 to |names|
      invariant Served(names[..k], service) && out == UpsertAll(EndpointPorts, ports, Wants(names[..k], service))
    {
      var number := ServicePortForName(service, names[k]);
      if number.None? { return None; }
      assert names[..k + 1] == names[..k] + [names[k]];
      var wants := Wants(names[..k + 1], service);
      assert wants[..k] == Wants(names[..k], service);
      out := UpsertPort(EndpointPorts, out, Want(names[k], number.value));
    }
    assert names[..|names|] == names;
    return Some(out);
  }

  /** The subset loop of copyEndpoints: it panics if and only if some source port has a name the
      Service lacks. */
  method CopySubsets(cur: seq<Subset>, src: seq<seq<string>>, ip: string, service: seq<Port>) returns (r: Option<seq<Subset>>)
    ensures r.Some? <==> AllServed(src, service)
    ensures r.Some? ==> r.value == CopiedSubsets(cur, src, ip, service)
  {
    var subsets := cur;
    for i := 0 to |src|
      invariant AllServed(src[..i], service) && subsets == CopiedSubsets(cur, src[..i], ip, service)
    {
      if i >= |subsets| {
        subsets := subsets + [Subset([], [], "")];
      }
      var ports := CopyPorts(subsets[i].ports, src[i], service);
      if ports.None? {
        assert src[i] in src;
        return None;
      }
      subsets := subsets[i := Subset([ip], ports.value, subsets[i].other)];
      assert src[..i + 1] == src[..i] + [src[i]];
      assert subsets == CopiedSubsets(cur, src[..i + 1], ip, service);
    }
    assert src[..|src|] == src;
    return Some(subsets);
  }

  // ---------------------------------------------------------------- the copies of Service and Endpoints agree

  function ServiceWants(service: seq<Port>): (r: seq<Want>)
    ensures |r| == |service| && forall i :: 0 <= i < |r| ==> r[i] == Want(service[i].name, service[i].number)
  {
    seq(|service|, i requires 0 <= i < |service| => Want(service[i].name, service[i].number))
  }

  /** The port number stored under a name, in a list with unique names. */
  ghost predicate Listens(ports: seq<Port>, name: string, number: int) {
    exists i :: 0 <= i < |ports| && ports[i].name == name && ports[i].number == number
  }

  lemma {:induction false} LastOfWants(names: seq<string>, service: seq<Port>, name: string)
    requires Served(names, service) && name in names
    ensures Last(Wants(names, service), name) == PortForName(service, name)
  {
    var n := |names| - 1;
    var ws := Wants(names, service);
    if names[n] != name {
      assert name in names[..n] by {
        var i :| 0 <= i < |names| && names[i] == name;
        assert names[..n][i] == name;
      }
      assert ws[..n] == Wants(names[..n], service);
      LastOfWants(names[..n], service, name);
    }
  }

  lemma {:induction false} LastOfService(service: seq<Port>, name: string)
    requires UniqueNames(service)
    ensures Last(ServiceWants(service), name) == PortForName(service, name)
  {
    if service != [] {
      var n := |service| - 1;
      assert ServiceWants(service)[..n] == ServiceWants(service[..n]);
      LastOfService(service[..n], name);
      if service[n].name == name {
        PortForNameFrom(service, name, n);
        assert service[n..][0] == service[n];
      } else {
        PortForNameInit(service, name);
      }
    }
  }

  lemma {:induction false} PortForNameInit(ports: seq<Port>, name: string)
    requires ports != [] && ports[|ports| - 1].name != name
    ensures PortForName(ports, name) == PortForName(ports[..|ports| - 1], name)
  {
    if |ports| > 1 && ports[0].name != name {
      PortForNameInit(ports[1..], name);
      assert ports[1..][..|ports| - 2] == ports[..|ports| - 1][1..];
    }
  }

  lemma {:induction false} FirstOf(ports: seq<Port>, i: nat) returns (j: nat)
    requires i < |ports|
    ensures j <= i && ports[j].name == ports[i].name && IsFirst(ports, j)
  {
    if IsFirst(ports, i) {
      j := i;
    } else {
      var k :| 0 <= k < i && ports[k].name == ports[i].name;
      j := FirstOf(ports, k);
    }
  }

  lemma ListensTo(kind: Kind, ports: seq<Port>, xs: seq<Want>, name: string)
    requires Last(xs, name).Some?
    ensures Listens(UpsertAll(kind, ports, xs), name, Last(xs, name).value)
  {
    FoldOverrides(kind, ports, xs);
    var r := UpsertAll(kind, ports, xs);
    LastIsMember(xs, name);
    assert HasName(r, name);
    var i :| 0 <= i < |r| && r[i].name == name;
    i := FirstOf(r, i);
    if i < |ports| {
      KeepsNames(kind, ports, xs, r, i);
      assert KeptAt(kind, ports, xs, r, i);
    } else {
      assert AddedAt(kind, ports, xs, r, i);
    }
    assert r[i].number == Last(xs, name).value;
  }

  /** Whatever earlier copies held: under every port name of the source Endpoints, the copied
      Endpoints and the copied Service carry the port number of the source Service. */
  lemma CopiesAgree(service: seq<Port>, oldService: seq<Port>, oldSubset: Subset, names: seq<string>, ip: string, name: string)
    requires UniqueNames(service) && Served(names, service) && name in names
    ensures Listens(CopiedSubset(oldSubset, names, ip, service).ports, name, PortForName(service, name).value)
    ensures Listens(UpsertAll(ServicePorts, oldService, ServiceWants(service)), name, PortForName(service, name).value)
  {
    LastOfWants(names, service, name);
    LastOfService(service, name);
    ListensTo(EndpointPorts, oldSubset.ports, Wants(names, service), name);
    ListensTo(ServicePorts, oldService, ServiceWants(service), name);
  }
}
