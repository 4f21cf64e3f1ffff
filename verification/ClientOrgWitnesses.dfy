/**
 Concrete runs on which the stronger readings of the lifecycle and registration results fail.
 */
module ClientOrgWitnesses {
  import opened Kube
  import opened ClientOrgMachine
  import opened ClientOrgPaths
  import opened ClientOrgSafety
  import opened AuthSecrets

  // ---------------------------------------------------------------- reactivation during a teardown

  /** The label is flipped back while a teardown is on its way to the finalizer, and the
      teardown stops right after removing it. */
  lemma Reopened(g: Setting, x: string, o: Org, ns: Ns, l: string) returns (os: seq<Org>, ms: seq<Move>)
    requires Ready(g, o) && o.pc.Idle? && o.ns == Initial(ns) && o.copies == {} && !g.hub
    requires ns.Ns? && ns.clientOrg == TERMINATING && ns.orgId != "" && ns.fin && !ns.deleting && !ns.cleaned
    ensures Path(g, x, os, ms) && os[0] == o
    ensures var r := os[|ms|];
            && r.ns == Versioned([ns, ns.(clientOrg := l)], 0)
            && r.pc == DropFinalizer(ns, true) && r.copies == {} && r.dying == o.dying && r.mon == o.mon
  {
    var o1 := Next(g, x, o, GO);
    var o2 := Next(g, x, o1, GO);
    var o3 := Next(g, x, o2, GO);
    var e := Env(EditNamespace(x, l, ns.orgId));
    var o4 := Next(g, x, o3, e);
    os, ms := [o, o1, o2, o3, o4], [GO, GO, GO, e];
  }

  lemma Interrupted(g: Setting, x: string, o: Org, ns: Ns) returns (os: seq<Org>, ms: seq<Move>)
    requires Ready(g, o) && ns.Ns? && ns.fin && o.pc == DropFinalizer(ns, true)
    requires |o.ns.hist| == 2 && o.ns.pos == 0 && o.ns.hist[1].Ns?
    ensures Path(g, x, os, ms) && os[0] == o
    ensures os[|ms|] == o.(ns := Versioned(o.ns.hist + [o.ns.hist[1].(fin := false)], 0), torn := true, pc := Idle)
  {
    var o1 := Next(g, x, o, GO);
    var o2 := Next(g, x, o1, STOP);
    os, ms := [o, o1, o2], [GO, STOP];
  }

  /** The cache has seen the label flip but not the removal: a reconcile goes on from a copy that
      still shows the finalizer. */
  lemma StaleCopy(g: Setting, x: string, o: Org, a: Ns) returns (os: seq<Org>, ms: seq<Move>)
    requires Ready(g, o) && o.pc.Idle? && |o.ns.hist| == 3 && o.ns.pos == 0
    requires Active(a) && a.orgId != "" && o.ns.hist[1] == a && Active(o.ns.hist[2])
    ensures Path(g, x, os, ms) && os[0] == o
    ensures os[|ms|] == o.(ns := o.ns.(pos := 1), runs := o.runs + 1, pc := AddFinalizer(a))
  {
    var e := Env(SyncOrg(x, 1, o.mon.pos, o.bindings.pos));
    var o1 := Next(g, x, o, e);
    var o2 := Next(g, x, o1, GO);
    var o3 := Next(g, x, o2, GO);
    Three(g, x, o, e, o1, GO, o2, GO, o3);
    os, ms := [o, o1, o2, o3], [e, GO, GO];
  }

  lemma EmptyPatch(g: Setting, x: string, o: Org, a: Ns) returns (os: seq<Org>, ms: seq<Move>)
    requires Ready(g, o) && a.Ns? && a.fin && o.pc == AddFinalizer(a) && o.ns.Live() == a.(fin := false)
    ensures Path(g, x, os, ms) && os[0] == o
    ensures os[|ms|] == o.(ns := o.ns.Write(o.ns.Live()), pc := GetMonitoring)
  {
    var o1 := Next(g, x, o, GO);
    os, ms := [o, o1], [GO];
  }

  lemma CopyOne(g: Setting, x: string, o: Org, name: string) returns (os: seq<Org>, ms: seq<Move>)
    requires Ready(g, o) && o.pc == ListDashboards(Grafana)
    requires Accepting(o.mon.Live()) && Dashboard(Grafana, name) !in o.dying
    ensures Path(g, x, os, ms) && os[0] == o
    ensures os[|ms|].ns == o.ns && Dashboard(Grafana, name) in os[|ms|].copies
  {
    var l := Call(OK.(sources := [Source(name, true)]));
    var o1 := Next(g, x, o, l);
    var o2 := Next(g, x, o1, GO);
    os, ms := [o, o1, o2], [l, GO];
  }

  lemma NextBinds(g: Setting, x: string, o: Org)
    requires Ready(g, o) && o.pc == GetMonitoring && Accepting(o.mon.Cached())
    ensures Next(g, x, o, GO) == o.(pc := BindRole(o.mon.Cached()))
  {
  }

  lemma NextGates(g: Setting, x: string, o: Org, mon: HeldMon)
    requires Ready(g, o)
    ensures o.pc == BindRole(mon) ==> Next(g, x, o, GO) == o.(pc := FindPrometheus(mon))
    ensures o.pc == FindPrometheus(mon) ==> Next(g, x, o, GO) == o.(pc := GateRole(mon))
  {
  }

  /** A fault-free pass goes from the monitoring namespace to the gate. */
  lemma ToGate(g: Setting, x: string, o: Org) returns (os: seq<Org>, ms: seq<Move>)
    requires Ready(g, o) && o.pc == GetMonitoring && Accepting(o.mon.Cached())
    ensures Path(g, x, os, ms) && os[0] == o
    ensures os[|ms|] == o.(pc := GateRole(o.mon.Cached()))
  {
    var mon: HeldMon := o.mon.Cached();
    var o1, o2 := o.(pc := BindRole(mon)), o.(pc := FindPrometheus(mon));
    NextBinds(g, x, o);
    NextGates(g, x, o1, mon);
    NextGates(g, x, o2, mon);
    var o3 := o.(pc := GateRole(mon));
    Three(g, x, o, GO, o1, GO, o2, GO, o3);
    os, ms := [o, o1, o2, o3], [GO, GO, GO];
  }

  lemma ThroughGate(g: Setting, x: string, o: Org, mon: HeldMon) returns (os: seq<Org>, ms: seq<Move>)
    requires Ready(g, o) && o.pc == GateRole(mon) && g.role.state != ""
    ensures Path(g, x, os, ms) && os[0] == o
    ensures os[|ms|] == o.(pc := if g.hub then ReadState(mon) else ListDashboards(Grafana))
  {
    os, ms := [o, Next(g, x, o, GO)], [GO];
  }

  /** A run whose teardown is interrupted by a reactivation. */
  lemma Abandoned(x: string, ns: Ns, l: string) returns (w: World, steps: seq<Step>, g: Setting, o: Org)
    requires l != "" && l != TERMINATING && ns == Ns(TERMINATING, "1", true, false, false)
    ensures Init(w) && Ready(g, o) && At(Run(w, steps), g, x, o)
    ensures o.pc == Idle && !g.hub && g.role.state != "" && o.mon == Initial(Mon("", false)) && o.dying == {}
    ensures o.ns == Versioned([ns, ns.(clientOrg := l), ns.(clientOrg := l, fin := false)], 0)
  {
    o := Org(Initial(ns), Initial(Mon("", false)), Initial({}), {}, {}, {}, map[], false, 0, Idle);
    w := Lone(false, "s", "s", x, o);
    g := Setting(false, Initial("s"), Mark("s", None));
    var os, ms := Reopened(g, x, o, ns, l);
    steps := Chain(w, [], g, x, os, ms);
    os, ms := Interrupted(g, x, os[|ms|], ns);
    steps := Chain(w, steps, g, x, os, ms);
    o := os[|ms|];
  }

  /** A run with a reactivation that reaches the copies without the finalizer. */
  lemma Reactivated(x: string, l: string) returns (w: World, steps: seq<Step>, g: Setting, o: Org)
    requires l != "" && l != TERMINATING
    ensures Init(w) && Ready(g, o) && At(Run(w, steps), g, x, o)
    ensures o.pc == GetMonitoring && !g.hub && g.role.state != "" && o.mon == Initial(Mon("", false))
    ensures o.dying == {} && !Held(o.ns.Live())
  {
    var ns := Ns(TERMINATING, "1", true, false, false);
    w, steps, g, o := Abandoned(x, ns, l);
    var os, ms := StaleCopy(g, x, o, ns.(clientOrg := l));
    steps := Chain(w, steps, g, x, os, ms);
    os, ms := EmptyPatch(g, x, os[|ms|], ns.(clientOrg := l));
    steps := Chain(w, steps, g, x, os, ms);
    o := os[|ms|];
  }

  /** With reactivation a run reaches a live copy whose namespace has lost the finalizer. */
  lemma ReactivationUncovers(x: string, l: string) returns (w: World, steps: seq<Step>)
    requires l != "" && l != TERMINATING
    ensures Init(w) && x in Run(w, steps).orgs
    ensures Run(w, steps).orgs[x].copies != {} && !Held(Run(w, steps).orgs[x].ns.Live())
  {
    var g: Setting;
    var o: Org;
    w, steps, g, o := Reactivated(x, l);
    var os, ms := ToGate(g, x, o);
    steps := Chain(w, steps, g, x, os, ms);
    os, ms := ThroughGate(g, x, os[|ms|], o.mon.Cached());
    steps := Chain(w, steps, g, x, os, ms);
    os, ms := CopyOne(g, x, os[|ms|], "board");
    steps := Chain(w, steps, g, x, os, ms);
    assert Dashboard(Grafana, "board") in Run(w, steps).orgs[x].copies;
  }

  // ---------------------------------------------------------------- a marker is about the past

  lemma BoundIsSkipped(g: Setting, x: string, o: Org, b: Backend, k: Ctx)
    requires Ready(g, o) && o.pc == CheckBinding(b, k) && b in o.bindings.Cached()
    ensures Next(g, x, o, GO) == o.(pc := AfterBackend(b, k))
  {
  }

  lemma StampIsSilent(g: Setting, x: string, o: Org, k: Ctx)
    requires Ready(g, o) && o.pc == StampMarker(k) && k.mon.marker == k.state && o.mon.Live().Mon?
    ensures var r := Next(g, x, o, GO);
            r.pc == ListDashboards(Grafana) && r.hub == o.hub && r.secrets == o.secrets && r.mon.Live() == o.mon.Live()
  {
  }

  /** Once the cached marker shows the cached state and both AppBindings are cached, a fault-free
      registerBackends asks the hub for nothing and repairs nothing, whatever the hub still knows
      and whichever auth Secrets exist. */
  lemma SettledPassIsSilent(g: Setting, x: string, o: Org) returns (os: seq<Org>, ms: seq<Move>)
    requires Ready(g, o) && o.pc.ReadState? && o.pc.mon.marker == g.states.Cached()
    requires o.bindings.Cached() == {Grafana, Perses} && o.mon.Live().Mon?
    ensures Path(g, x, os, ms) && os[0] == o && (forall m :: m in ms ==> m == GO)
    ensures var r := os[|ms|];
            r.pc == ListDashboards(Grafana) && r.hub == o.hub && r.secrets == o.secrets && r.mon.Live() == o.mon.Live()
  {
    var k := Ctx(o.pc.mon, g.states.Cached(), g.states.pos, {});
    var o1 := o.(pc := CheckBinding(Grafana, k));
    var o2 := o.(pc := CheckBinding(Perses, k));
    var o3 := o.(pc := StampMarker(k));
    BoundIsSkipped(g, x, o1, Grafana, k);
    BoundIsSkipped(g, x, o2, Perses, k);
    StampIsSilent(g, x, o3, k);
    var o4 := Next(g, x, o3, GO);
    Four(g, x, o, GO, o1, GO, o2, GO, o3, GO, o4);
    os, ms := [o, o1, o2, o3, o4], [GO, GO, GO, GO];
  }

  const BOTH := map[Grafana := 0, Perses := 0]

  /** An organisation settled under the state s. */
  function SettledOrg(l: string, s: string): Org {
    Org(Initial(Ns(l, "1", true, false, false)), Initial(Mon(s, false)), Initial({Grafana, Perses}), {Grafana, Perses},
        {}, {}, BOTH, false, 0, Idle)
  }

  /** Teardown unregisters both backends and leaves the marker: the hub knows neither backend of
      an organisation whose marker is the current state. */
  lemma TeardownLeavesMarker(x: string, s: string) returns (w: World, steps: seq<Step>)
    requires StateValue(s)
    ensures Init(w) && x in Run(w, steps).orgs
    ensures var r := Run(w, steps);
            r.orgs[x].mon.Live() == Mon(s, false) && s == r.states.Live() && r.orgs[x].hub == map[]
  {
    var o := SettledOrg(TERMINATING, s);
    w := Lone(true, s, s, x, o);
    var g := Setting(true, Initial(s), Mark(s, None));
    var o1 := Next(g, x, o, GO);
    var o2 := Next(g, x, o1, GO);
    var o3 := Next(g, x, o2, GO);
    assert o3.hub == map[];
    steps := Chain(w, [], g, x, [o, o1, o2, o3], [GO, GO, GO]);
  }

  lemma LivePass(g: Setting, x: string, o: Org, ns: Ns) returns (os: seq<Org>, ms: seq<Move>)
    requires Ready(g, o) && o.pc.Idle? && o.ns == Initial(ns) && Active(ns) && ns.fin && ns.orgId != ""
    ensures Path(g, x, os, ms) && os[0] == o
    ensures os[|ms|] == o.(ns := Versioned([ns, ns], 0), runs := o.runs + 1, pc := GetMonitoring)
  {
    var o1 := Next(g, x, o, GO);
    var o2 := Next(g, x, o1, GO);
    var o3 := Next(g, x, o2, GO);
    os, ms := [o, o1, o2, o3], [GO, GO, GO];
  }

  lemma ToBackends(g: Setting, x: string, o: Org) returns (os: seq<Org>, ms: seq<Move>)
    requires Ready(g, o) && o.pc.ReadState?
    ensures Path(g, x, os, ms) && os[0] == o
    ensures os[|ms|] == o.(pc := EnterBackend(Grafana, Ctx(o.pc.mon, g.states.Cached(), g.states.pos, {})))
  {
    os, ms := [o, Next(g, x, o, GO)], [GO];
  }

  /** A registration of b; the Secret is written or not. */
  lemma Registered(g: Setting, x: string, o: Org, b: Backend, k: Ctx, written: bool) returns (os: seq<Org>, ms: seq<Move>)
    requires Ready(g, o) && o.pc == HubRegister(b, k) && Accepting(o.mon.Live())
    ensures Path(g, x, os, ms) && os[0] == o
    ensures os[|ms|] == o.(hub := o.hub[b := k.st], bindings := o.bindings.Write(o.bindings.Live() + {b}),
                           secrets := if written then o.secrets + {b} else o.secrets, pc := AfterBackend(b, k))
  {
    var o1 := Next(g, x, o, GO);
    var o2 := Next(g, x, o1, GO);
    var last := if written then GO else STOP;
    var o3 := Next(g, x, o2, last);
    Three(g, x, o, GO, o1, GO, o2, last, o3);
    os, ms := [o, o1, o2, o3], [GO, GO, last];
  }

  lemma PersesFailed(g: Setting, x: string, o: Org, k: Ctx) returns (os: seq<Org>, ms: seq<Move>)
    requires Ready(g, o) && o.pc == HubRegister(Perses, k)
    ensures Path(g, x, os, ms) && os[0] == o
    ensures os[|ms|] == o.(pc := Idle)
  {
    var o1 := Next(g, x, o, STOP);
    os, ms := [o, o1], [STOP];
  }

  lemma Shift(w: World, steps: seq<Step>, g: Setting, x: string, o: Org, v: string) returns (steps': seq<Step>, g': Setting)
    requires Valid(w) && At(Run(w, steps), g, x, o) && StateValue(v)
    ensures g' == g.(states := Versioned(g.states.hist + [v], |g.states.hist|))
    ensures At(Run(w, steps'), g', x, o)
  {
    var r := Run(w, steps);
    var two := [ChangeState(v), SyncShared(|g.states.hist|, r.role.pos)];
    steps' := steps + two;
    RunAppend(w, steps, two);
    assert two[..|two| - 1] == [ChangeState(v)] && [ChangeState(v)][..0] == [];
    ApplyValid(r, two[0]);
    assert Run(r, [ChangeState(v)]) == Apply(r, ChangeState(v));
    assert Run(r, two) == Apply(Apply(r, two[0]), two[1]);
    g' := g.(states := Versioned(g.states.hist + [v], |g.states.hist|));
    ApplyValid(Apply(r, two[0]), two[1]);
  }

  /** An organisation settled under s finds the state t. */
  lemma Started(x: string, s: string, t: string) returns (w: World, steps: seq<Step>, g: Setting, o: Org)
    requires StateValue(s) && StateValue(t) && s != t
    ensures Init(w) && At(Run(w, steps), g, x, o) && Ready(g, o)
    ensures g == Setting(true, Versioned([s, t], 1), Mark(s, None))
    ensures o.pc == GetMonitoring && o.mon == Initial(Mon(s, false)) && o.hub == BOTH
  {
    o := SettledOrg("client", s);
    w := Lone(true, s, s, x, o);
    steps, g := Shift(w, [], Setting(true, Initial(s), Mark(s, None)), x, o, t);
    var os, ms := LivePass(g, x, o, o.ns.Live());
    steps := Chain(w, steps, g, x, os, ms);
    o := os[|ms|];
  }

  /** It comes to registerBackends. */
  lemma Drifted(x: string, s: string, t: string) returns (w: World, steps: seq<Step>, g: Setting, o: Org)
    requires StateValue(s) && StateValue(t) && s != t
    ensures Init(w) && At(Run(w, steps), g, x, o) && Ready(g, o)
    ensures g == Setting(true, Versioned([s, t], 1), Mark(s, None))
    ensures o.pc == HubRegister(Grafana, Ctx(Mon(s, false), t, 1, {}))
    ensures o.mon == Initial(Mon(s, false)) && o.hub == BOTH
  {
    w, steps, g, o := Started(x, s, t);
    var os, ms := ToGate(g, x, o);
    steps := Chain(w, steps, g, x, os, ms);
    os, ms := ThroughGate(g, x, os[|ms|], Mon(s, false));
    steps := Chain(w, steps, g, x, os, ms);
    os, ms := ToBackends(g, x, os[|ms|]);
    steps := Chain(w, steps, g, x, os, ms);
    o := os[|ms|];
  }

  /** States that repeat: after s, t, s again, with Perses failing under t, the marker shows the
      current state while Grafana is registered under the other one. */
  lemma RevertedStateMatchesOldMarker(x: string, s: string, t: string) returns (w: World, steps: seq<Step>)
    requires StateValue(s) && StateValue(t) && s != t
    ensures Init(w) && x in Run(w, steps).orgs
    ensures var r := Run(w, steps);
            var o := r.orgs[x];
            && o.mon.Live() == Mon(s, false) && r.states.Cached() == r.states.Live() == s
            && Grafana in o.hub && o.hub[Grafana] == 1 && r.states.hist == [s, t, s]
  {
    var g: Setting;
    var o: Org;
    w, steps, g, o := Drifted(x, s, t);
    var os, ms := Registered(g, x, o, Grafana, o.pc.c, true);
    steps := Chain(w, steps, g, x, os, ms);
    os, ms := PersesFailed(g, x, os[|ms|], o.pc.c);
    steps := Chain(w, steps, g, x, os, ms);
    steps, g := Shift(w, steps, g, x, os[|ms|], s);
  }

  // ---------------------------------------------------------------- a Secret that is never written

  /** An organisation nobody has registered yet. */
  function Unregistered(l: string): Org {
    Org(Initial(Ns(l, "1", true, false, false)), Initial(Mon("", false)), Initial({}), {}, {}, {}, map[], false, 0, Idle)
  }

  lemma ToFirstRegistration(x: string, s: string) returns (w: World, steps: seq<Step>, g: Setting, o: Org)
    requires StateValue(s)
    ensures Init(w) && At(Run(w, steps), g, x, o) && Ready(g, o) && g == Setting(true, Initial(s), Mark(s, None))
    ensures o.pc == HubRegister(Grafana, Ctx(Mon("", false), s, 0, {})) && o.mon == Initial(Mon("", false))
    ensures o.bindings == Initial({}) && o.secrets == {}
  {
    o := Unregistered("client");
    w := Lone(true, s, s, x, o);
    g := Setting(true, Initial(s), Mark(s, None));
    var os, ms := LivePass(g, x, o, o.ns.Live());
    steps := Chain(w, [], g, x, os, ms);
    os, ms := ToGate(g, x, os[|ms|]);
    steps := Chain(w, steps, g, x, os, ms);
    steps, o := IntoBackends(w, steps, g, x, os[|ms|]);
  }

  lemma IntoBackends(w: World, steps: seq<Step>, g: Setting, x: string, o: Org) returns (steps': seq<Step>, o': Org)
    requires Valid(w) && At(Run(w, steps), g, x, o) && Ready(g, o) && g.hub && g.role.state != "" && o.pc.GateRole?
    ensures At(Run(w, steps'), g, x, o') && Ready(g, o')
    ensures o' == o.(pc := EnterBackend(Grafana, Ctx(o.pc.mon, g.states.Cached(), g.states.pos, {})))
  {
    var os, ms := ThroughGate(g, x, o, o.pc.mon);
    steps' := Chain(w, steps, g, x, os, ms);
    os, ms := ToBackends(g, x, os[|ms|]);
    steps' := Chain(w, steps', g, x, os, ms);
    o' := os[|ms|];
  }

  /** The marker is stamped, the cache catches up, and the organisation is settled without the Secret. */
  lemma Stamped(g: Setting, x: string, o: Org, k: Ctx) returns (os: seq<Org>, ms: seq<Move>)
    requires Ready(g, o) && g.states == Initial(k.state) && o.pc == StampMarker(k) && o.mon.Live().Mon? && k.mon.marker != k.state
    requires Lacks(o, Grafana)
    ensures Path(g, x, os, ms) && os[0] == o
    ensures Settled(g.states, os[|ms|], Grafana, k.state) && Lacks(os[|ms|], Grafana)
    ensures os[|ms|].mon.Live() == o.mon.Live().(marker := k.state) && os[|ms|].secrets == o.secrets
  {
    var o1 := Next(g, x, o, GO);
    var e := Env(SyncOrg(x, o.ns.pos, |o.mon.hist|, |o.bindings.hist| - 1));
    var o2 := Next(g, x, o1, e);
    os, ms := [o, o1, o2], [GO, e];
  }

  /** A run from a new organisation: the write of the Grafana Secret fails, nothing is reported, the
      marker is stamped, and the organisation is settled without the Secret; by
      MissingSecretStaysMissing no later pass repairs it while the cluster state and the AppBinding
      last. */
  lemma SecretErrorIsDropped(x: string, s: string) returns (w: World, steps: seq<Step>)
    requires StateValue(s)
    ensures Init(w) && x in Run(w, steps).orgs
    ensures var r := Run(w, steps);
            && Settled(r.states, r.orgs[x], Grafana, s) && r.orgs[x].mon.Live() == Mon(s, false)
            && Lacks(r.orgs[x], Grafana) && Perses in r.orgs[x].secrets
  {
    var g: Setting;
    var o: Org;
    w, steps, g, o := ToFirstRegistration(x, s);
    var k := o.pc.c;
    var os, ms := Registered(g, x, o, Grafana, k, false);
    steps := Chain(w, steps, g, x, os, ms);
    steps, o := FinishRegistration(w, steps, g, x, os[|ms|], k);
  }

  lemma FinishRegistration(w: World, steps: seq<Step>, g: Setting, x: string, o: Org, k: Ctx) returns (steps': seq<Step>, o': Org)
    requires Valid(w) && At(Run(w, steps), g, x, o) && Ready(g, o) && g.states == Initial(k.state)
    requires o.pc == HubRegister(Perses, k) && k.failed == {} && k.mon.marker != k.state && Accepting(o.mon.Live())
    requires Lacks(o, Grafana)
    ensures At(Run(w, steps'), g, x, o') && Settled(g.states, o', Grafana, k.state)
    ensures o'.mon.Live() == o.mon.Live().(marker := k.state) && Lacks(o', Grafana) && Perses in o'.secrets
  {
    var os, ms := Registered(g, x, o, Perses, k, true);
    steps', o' := ByPath(w, steps, g, x, os, ms);
    os, ms := Stamped(g, x, o', k);
    steps', o' := ByPath(w, steps', g, x, os, ms);
  }

  lemma ByPath(w: World, steps: seq<Step>, g: Setting, x: string, os: seq<Org>, ms: seq<Move>) returns (steps': seq<Step>, o: Org)
    requires Valid(w) && Path(g, x, os, ms) && At(Run(w, steps), g, x, os[0])
    ensures At(Run(w, steps'), g, x, o) && o == os[|ms|]
  {
    steps' := Chain(w, steps, g, x, os, ms);
    o := os[|ms|];
  }
}
