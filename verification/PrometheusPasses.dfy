/**
 Whole reconciles of a live Prometheus in which no call fails: when they register, what they stamp,
 and why the second Prometheus of a namespace never registers.
 */
module PrometheusPasses {
  import opened Kube
  import opened ClientOrgMachine

  /** At most this many calls are left. */
  function Left(pc: PromPc): nat {
    match pc
    case PIdle => 0
    case PUnregister(b) => if b == Grafana then 2 else 1
    case PReadState => 8
    case PReadToken(_) => 7
    case PEnsureRole(_, _) => 6
    case PLegacy(_, _) => 1
    case PRegister(b, _, _) => if b == Grafana then 5 else 3
    case PBind(b, _, _) => if b == Grafana then 4 else 2
    case PStamp(_, _) => 1
  }

  /** The RoleBinding after the rest of a reconcile, and what the hub saw of it. */
  function PassFrom(hub: bool, states: Versioned<string>, role: Versioned<Mark>, run: nat, pc: PromPc, c: Choice)
    : (r: (Versioned<Mark>, seq<Event>))
    requires states.Valid() && role.Valid()
    ensures r.0.Valid()
    decreases Left(pc)
  {
    if pc == PIdle then (role, [])
    else
      var (pc', role', seen) := PromStep(hub, states, role, run, pc, c);
      var (role'', rest) := PassFrom(hub, states, role', run, pc', c);
      (role'', seen + rest)
  }

  /** A whole reconcile under the outcomes c. */
  function Pass(hub: bool, states: Versioned<string>, role: Versioned<Mark>, run: nat, c: Choice)
    : (r: (Versioned<Mark>, seq<Event>))
    requires states.Valid() && role.Valid()
    ensures r.0.Valid()
  {
    var (pc, role', seen) := PromStep(hub, states, role, run, PIdle, c);
    var (role'', rest) := PassFrom(hub, states, role', run, pc, c);
    (role'', seen + rest)
  }

  /** What the hub sees of a registration, and the stamp that ends it. */
  function Registration(run: nat, state: string, tok: Option<string>): seq<Event> {
    [PromReg(run, Grafana, state, tok), PromReg(run, Perses, state, tok), PromStamped(run, state, tok)]
  }

  /** The RoleBinding does not carry the pair yet; without a token any token id will do. */
  predicate Differs(m: Mark, state: string, tok: Option<string>) {
    m.state != state || (tok.Some? && m.token != tok)
  }

  lemma FromStamp(hub: bool, states: Versioned<string>, role: Versioned<Mark>, run: nat, c: Choice, s: string, tok: Option<string>)
    requires states.Valid() && role.Valid() && c.ok
    ensures PassFrom(hub, states, role, run, PStamp(s, tok), c) == (role.Write(Mark(s, tok)), [PromStamped(run, s, tok)])
    ensures PassFrom(hub, states, role, run, PLegacy(s, tok), c) == (role.Write(Mark(s, tok)), [PromStamped(run, s, tok)])
  {
    var e := [PromStamped(run, s, tok)];
    assert e + [] == e;
  }

  lemma FromPerses(hub: bool, states: Versioned<string>, role: Versioned<Mark>, run: nat, c: Choice, s: string, tok: Option<string>)
    requires states.Valid() && role.Valid() && c.ok
    ensures PassFrom(hub, states, role, run, PRegister(Perses, s, tok), c)
         == (role.Write(Mark(s, tok)), [PromReg(run, Perses, s, tok), PromStamped(run, s, tok)])
  {
    FromStamp(hub, states, role, run, c, s, tok);
    var e := [PromStamped(run, s, tok)];
    assert [] + e == e;
    assert PassFrom(hub, states, role, run, PBind(Perses, s, tok), c) == (role.Write(Mark(s, tok)), e);
    assert [PromReg(run, Perses, s, tok)] + e == [PromReg(run, Perses, s, tok), PromStamped(run, s, tok)];
  }

  lemma FromGrafana(hub: bool, states: Versioned<string>, role: Versioned<Mark>, run: nat, c: Choice, s: string, tok: Option<string>)
    requires states.Valid() && role.Valid() && c.ok
    ensures PassFrom(hub, states, role, run, PRegister(Grafana, s, tok), c) == (role.Write(Mark(s, tok)), Registration(run, s, tok))
  {
    FromPerses(hub, states, role, run, c, s, tok);
    var e := [PromReg(run, Perses, s, tok), PromStamped(run, s, tok)];
    assert [] + e == e;
    assert PassFrom(hub, states, role, run, PBind(Grafana, s, tok), c) == (role.Write(Mark(s, tok)), e);
    assert [PromReg(run, Grafana, s, tok)] + e == Registration(run, s, tok);
  }

  /** A reconcile of a live Prometheus without a failing call registers with both backends and then
      stamps if and only if there is a hub, the marker is not the legacy one, and the stamped pair
      differs from the state and token id of now; it stamps without registering exactly over the
      legacy marker; and otherwise it does nothing. */
  lemma RegistersIff(hub: bool, states: Versioned<string>, role: Versioned<Mark>, run: nat, c: Choice)
    requires states.Valid() && role.Valid() && c.ok && !c.deleting
    ensures var s, m := states.Cached(), role.Live();
            var (role', seen) := Pass(hub, states, role, run, c);
            && (seen == Registration(run, s, c.token) <==> hub && m.state != LEGACY && Differs(m, s, c.token))
            && (seen == [PromStamped(run, s, c.token)] <==> m.state == LEGACY)
            && (seen == [] <==> m.state != LEGACY && !(hub && Differs(m, s, c.token)))
            && role' == if seen == [] then role else role.Write(Mark(s, c.token))
  {
    var s := states.Cached();
    FromEnsure(hub, states, role, run, c, s);
    var ensured := PassFrom(hub, states, role, run, PEnsureRole(s, c.token), c);
    assert [] + ensured.1 == ensured.1;
    assert PassFrom(hub, states, role, run, PReadToken(s), c) == ensured;
    assert PassFrom(hub, states, role, run, PReadState, c) == ensured;
    assert Pass(hub, states, role, run, c) == ensured;
  }

  lemma FromEnsure(hub: bool, states: Versioned<string>, role: Versioned<Mark>, run: nat, c: Choice, s: string)
    requires states.Valid() && role.Valid() && c.ok
    ensures var m := role.Live();
            PassFrom(hub, states, role, run, PEnsureRole(s, c.token), c)
            == if m.state == LEGACY then (role.Write(Mark(s, c.token)), [PromStamped(run, s, c.token)])
               else if hub && Differs(m, s, c.token) then (role.Write(Mark(s, c.token)), Registration(run, s, c.token))
               else (role, [])
  {
    FromStamp(hub, states, role, run, c, s, c.token);
    FromGrafana(hub, states, role, run, c, s, c.token);
    var e, f := [PromStamped(run, s, c.token)], Registration(run, s, c.token);
    var none: seq<Event> := [];
    assert none + e == e && none + f == f && none + none == none;
  }

  /** The marker belongs to the Service namespace, not to the Prometheus, and outlives its deletion:
      after one such reconcile, that of any other Prometheus of the namespace under the same state
      and token registers nothing, and without a hub no reconcile ever does. */
  lemma MarkedRoleSkipsRegistration(hub: bool, states: Versioned<string>, role: Versioned<Mark>, run: nat, run': nat, c: Choice, c': Choice)
    requires states.Valid() && role.Valid() && c.ok && !c.deleting && c'.ok && !c'.deleting
    requires StateValue(states.Cached()) && c'.token == c.token
    ensures var role' := Pass(hub, states, role, run, c).0;
            var second := Pass(hub, states, role', run', c');
            second.0 == role' && second.1 == []
  {
    RegistersIff(hub, states, role, run, c);
    RegistersIff(hub, states, Pass(hub, states, role, run, c).0, run', c');
  }

  /** A reconcile of a Prometheus that is being deleted, without a failing call, takes it out of both
      backends and leaves the RoleBinding as it is. */
  lemma DeletionUnregisters(hub: bool, states: Versioned<string>, role: Versioned<Mark>, run: nat, c: Choice)
    requires states.Valid() && role.Valid() && c.ok && c.deleting
    ensures var (role', seen) := Pass(hub, states, role, run, c);
            role' == role && seen == if hub then [PromDrop(Grafana), PromDrop(Perses)] else []
  {
    var none: seq<Event> := [];
    var e, f := [PromDrop(Grafana)], [PromDrop(Perses)];
    assert none + none == none && e + f == [PromDrop(Grafana), PromDrop(Perses)] && f + none == f && none + (e + f) == e + f;
    assert PassFrom(hub, states, role, run, PUnregister(Perses), c) == (role, if hub then f else none);
    assert PassFrom(hub, states, role, run, PUnregister(Grafana), c) == (role, if hub then e + f else none);
  }
}
