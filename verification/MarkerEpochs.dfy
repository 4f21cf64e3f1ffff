/**
 What the registered marker says about the hub: as long as cluster states do not repeat and no
 teardown has reached the hub, each backend was last registered under the marker's state or under
 a later one.
 */
module MarkerEpochs {
  import opened Kube
  import opened ClientOrgMachine

  ghost predicate Distinct(s: seq<string>) {
    forall i, j :: 0 <= i < j < |s| ==> s[i] != s[j]
  }

  ghost predicate NeverDropped(log: seq<Event>, x: string) {
    forall e :: e in log && e.HubDrop? ==> e.org != x
  }

  /** The hub holds a registration of backend b under the e-th cluster state or a later one. */
  predicate AtLeast(hub: map<Backend, nat>, b: Backend, e: nat) {
    b in hub && hub[b] >= e
  }

  /** stale is a marker from before the run that no state of it repeats. */
  ghost predicate Covered(stale: string, states: seq<string>, hub: map<Backend, nat>, marker: string) {
    marker == "" || marker == stale ||
    (marker in states &&
     forall e, b :: 0 <= e < |states| && states[e] == marker ==> AtLeast(hub, b, e))
  }

  /** In the reconcile that read the k.st-th state: b failed, was skipped, or is registered under it. */
  predicate Current(hub: map<Backend, nat>, b: Backend, k: Ctx) {
    b in k.failed || k.mon.marker == k.state || (b in hub && hub[b] == k.st)
  }

  ghost predicate CtxInv(states: Versioned<string>, hub: map<Backend, nat>, k: Ctx)
    requires states.Valid()
  {
    k.st <= states.pos && k.state == states.hist[k.st] && forall b :: b in hub ==> hub[b] <= k.st
  }

  ghost predicate PcInv(states: Versioned<string>, hub: map<Backend, nat>, pc: Pc)
    requires states.Valid()
  {
    match pc
    case CheckBinding(b, k) =>
      CtxInv(states, hub, k) && (b == Perses ==> Current(hub, Grafana, k)) && k.mon.marker == k.state
    case HubRegister(b, k) => CtxInv(states, hub, k) && (b == Perses ==> Current(hub, Grafana, k))
    case WriteBinding(b, k) =>
      CtxInv(states, hub, k) && (b == Perses ==> Current(hub, Grafana, k)) && b in hub && hub[b] == k.st
    case WriteSecret(b, k) =>
      CtxInv(states, hub, k) && (b == Perses ==> Current(hub, Grafana, k)) && b in hub && hub[b] == k.st
    case StampMarker(k) =>
      CtxInv(states, hub, k) && k.failed == {} && Current(hub, Grafana, k) && Current(hub, Perses, k)
    case _ => true
  }

  ghost predicate MarkersCovered(stale: string, states: seq<string>, hub: map<Backend, nat>, mons: seq<Mon>) {
    forall m :: m in mons && m.Mon? ==> Covered(stale, states, hub, m.marker)
  }

  ghost predicate OrgInv(stale: string, states: Versioned<string>, o: Org) {
    && states.Valid() && ValidOrg(o)
    && (forall b :: b in o.hub ==> o.hub[b] <= states.pos)
    && MarkersCovered(stale, states.hist, o.hub, o.mon.hist)
    && PcInv(states, o.hub, o.pc)
  }

  // ---------------------------------------------------------------- steps

  /** Registrations only move forward, so markers stay covered. */
  lemma CoveredGrows(stale: string, states: seq<string>, hub: map<Backend, nat>, hub': map<Backend, nat>, marker: string)
    requires Covered(stale, states, hub, marker)
    requires forall b :: b in hub ==> b in hub' && hub'[b] >= hub[b]
    ensures Covered(stale, states, hub', marker)
  {
    if marker != "" && marker != stale {
      forall e, b | 0 <= e < |states| && states[e] == marker ensures AtLeast(hub', b, e) {
        assert AtLeast(hub, b, e);
      }
    }
  }

  lemma RegisterKeeps(stale: string, states: Versioned<string>, x: string, o: Org, c: Choice)
    requires OrgInv(stale, states, o)
    requires o.pc.CheckBinding? || o.pc.HubRegister? || o.pc.WriteBinding? || o.pc.WriteSecret?
    ensures OrgInv(stale, states, RegisterStep(x, o, c).0)
  {
    var o' := RegisterStep(x, o, c).0;
    forall m | m in o'.mon.hist && m.Mon? ensures Covered(stale, states.hist, o'.hub, m.marker) {
      CoveredGrows(stale, states.hist, o.hub, o'.hub, m.marker);
    }
  }

  lemma StampKeeps(stale: string, states: Versioned<string>, x: string, o: Org, c: Choice)
    requires OrgInv(stale, states, o) && Distinct(states.hist) && o.pc.StampMarker?
    ensures OrgInv(stale, states, RegisterStep(x, o, c).0)
  {
    var k := o.pc.c;
    var o' := RegisterStep(x, o, c).0;
    forall m | m in o'.mon.hist && m.Mon? ensures Covered(stale, states.hist, o'.hub, m.marker) {
      if m !in o.mon.hist { StampCovers(stale, states, o.hub, k); }
    }
  }

  lemma StampCovers(stale: string, states: Versioned<string>, hub: map<Backend, nat>, k: Ctx)
    requires states.Valid() && Distinct(states.hist) && PcInv(states, hub, StampMarker(k)) && k.mon.marker != k.state
    ensures Covered(stale, states.hist, hub, k.state)
  {
    forall e, b | 0 <= e < |states.hist| && states.hist[e] == k.state ensures AtLeast(hub, b, e) {
      assert e == k.st;
      match b case Grafana => case Perses =>
    }
  }

  /** Outside registerBackends the hub record stays, a monitoring namespace is at most created
      without a marker, and registerBackends starts with the cluster state the cache holds. */
  predicate QuietChange(states: Versioned<string>, o: Org, o': Org)
    requires states.Valid()
  {
    && ValidOrg(o')
    && o'.hub == o.hub
    && (o'.mon == o.mon || o'.mon.hist == o.mon.hist + [Mon("", false)])
    && match o'.pc
       case CheckBinding(b, k) =>
         b == Grafana && k.st == states.pos && k.state == states.Cached() && k.mon.marker == k.state
       case HubRegister(b, k) => b == Grafana && k.st == states.pos && k.state == states.Cached()
       case WriteBinding(_, _) => false
       case WriteSecret(_, _) => false
       case StampMarker(_) => false
       case _ => true
  }

  lemma QuietKeeps(stale: string, states: Versioned<string>, o: Org, o': Org)
    requires OrgInv(stale, states, o) && QuietChange(states, o, o')
    ensures OrgInv(stale, states, o')
  {
    assert forall m :: m in o'.mon.hist ==> m in o.mon.hist || m == Mon("", false);
  }

  lemma TeardownShape(x: string, o: Org, c: Choice, states: Versioned<string>)
    requires ValidOrg(o) && states.Valid()
    requires o.pc.Unregister? || o.pc.DeleteAll? || o.pc.DropFinalizer? || o.pc.MarkCleaned?
    requires NeverDropped(TeardownStep(x, o, c).1, x)
    ensures QuietChange(states, o, TeardownStep(x, o, c).0)
  {
    var es := TeardownStep(x, o, c).1;
    if es != [] { assert es[0] in es; }
  }

  lemma CopyShape(x: string, o: Org, c: Choice, states: Versioned<string>)
    requires ValidOrg(o) && states.Valid() && (o.pc.ListDashboards? || o.pc.CopyNext?)
    ensures QuietChange(states, o, CopyStep(x, o, c).0)
  {
  }

  lemma QuietShape(w: World, x: string, c: Choice)
    requires Valid(w) && x in w.orgs && NeverDropped(OrgStep(w, x, c).1, x)
    requires var pc := w.orgs[x].pc; !pc.CheckBinding? && !pc.HubRegister? && !pc.WriteBinding? && !pc.WriteSecret? && !pc.StampMarker?
    ensures QuietChange(w.states, w.orgs[x], OrgStep(w, x, c).0)
  {
    var o := w.orgs[x];
    if o.pc.Unregister? || o.pc.DeleteAll? || o.pc.DropFinalizer? || o.pc.MarkCleaned? {
      TeardownShape(x, o, c, w.states);
    } else if o.pc.ListDashboards? || o.pc.CopyNext? {
      CopyShape(x, o, c, w.states);
    }
  }

  lemma OrgStepKeeps(stale: string, w: World, x: string, c: Choice)
    requires Valid(w) && x in w.orgs && OrgInv(stale, w.states, w.orgs[x]) && Distinct(w.states.hist)
    requires NeverDropped(OrgStep(w, x, c).1, x)
    ensures OrgInv(stale, w.states, OrgStep(w, x, c).0)
  {
    var o := w.orgs[x];
    if o.pc.CheckBinding? || o.pc.HubRegister? || o.pc.WriteBinding? || o.pc.WriteSecret? {
      RegisterKeeps(stale, w.states, x, o, c);
    } else if o.pc.StampMarker? {
      StampKeeps(stale, w.states, x, o, c);
    } else {
      QuietShape(w, x, c);
      QuietKeeps(stale, w.states, o, OrgStep(w, x, c).0);
    }
  }

  lemma EnvOrgKeeps(stale: string, states: Versioned<string>, o: Org, s: Step)
    requires OrgInv(stale, states, o)
    ensures OrgInv(stale, states, EnvOrg(o, s))
  {
    EnvOrgValid(o, s);
    var o' := EnvOrg(o, s);
    forall m | m in o'.mon.hist && m.Mon? ensures Covered(stale, states.hist, o'.hub, m.marker) {
      if m !in o.mon.hist {
        assert o.mon.Live() in o.mon.hist;
      }
    }
  }

  lemma StatesGrow(stale: string, states: Versioned<string>, states': Versioned<string>, more: seq<string>, o: Org)
    requires OrgInv(stale, states, o)
    requires states'.Valid() && states'.pos >= states.pos && states'.hist == states.hist + more
    requires Distinct(states'.hist)
    ensures OrgInv(stale, states', o)
  {
    forall m | m in o.mon.hist && m.Mon? ensures Covered(stale, states'.hist, o.hub, m.marker) {
      if m.marker != "" && m.marker != stale {
        var i :| 0 <= i < |states.hist| && states.hist[i] == m.marker;
        assert states'.hist[i] == m.marker;
        forall e, b | 0 <= e < |states'.hist| && states'.hist[e] == m.marker ensures AtLeast(o.hub, b, e) {
          assert e == i;
          assert AtLeast(o.hub, b, i);
        }
      }
    }
  }

  lemma StepKeeps(stale: string, w: World, s: Step, x: string)
    requires Valid(w) && x in w.orgs && OrgInv(stale, w.states, w.orgs[x])
    requires Distinct(Apply(w, s).states.hist) && NeverDropped(Apply(w, s).log, x)
    ensures x in Apply(w, s).orgs && OrgInv(stale, Apply(w, s).states, Apply(w, s).orgs[x])
  {
    var w' := Apply(w, s);
    match s
    case Reconcile(y, c) =>
      if y == x {
        assert forall e :: e in OrgStep(w, x, c).1 ==> e in w'.log;
        OrgStepKeeps(stale, w, x, c);
      }
    case PromReconcile(_) =>
    case ChangeState(v) =>
      if StateValue(v) { StatesGrow(stale, w.states, w'.states, [v], w.orgs[x]); }
    case DropRole =>
    case SyncShared(_, _) =>
      assert w.states.hist + [] == w.states.hist;
      StatesGrow(stale, w.states, w'.states, [], w.orgs[x]);
    case _ =>
      if s.org == x { EnvOrgKeeps(stale, w.states, w.orgs[x], s); }
  }

  lemma StepGrows(w: World, s: Step)
    requires Valid(w)
    ensures w.states.hist <= Apply(w, s).states.hist && w.log <= Apply(w, s).log
    ensures Apply(w, s).orgs.Keys == w.orgs.Keys
  {
  }

  /** At the start the marker is missing, or it is none of the states of the run, or it is the
      current state and both backends are registered. */
  ghost predicate StartsCovered(w: World, states: seq<string>, x: string)
    requires Valid(w) && x in w.orgs
  {
    var m := w.orgs[x].mon.Live();
    m.Mon? && m.marker != "" && m.marker in states ==>
      m.marker == w.states.Live() && forall b :: AtLeast(w.orgs[x].hub, b, 0)
  }

  /** The starting marker, if the run never reaches it as a cluster state. */
  function Stale(w: World, states: seq<string>, x: string): string
    requires Valid(w) && x in w.orgs
  {
    var m := w.orgs[x].mon.Live();
    if m.Mon? && m.marker !in states then m.marker else ""
  }

  lemma {:induction false} RunKeeps(stale: string, w: World, steps: seq<Step>, x: string)
    requires Init(w) && x in w.orgs && OrgInv(stale, w.states, w.orgs[x])
    requires Distinct(Run(w, steps).states.hist) && NeverDropped(Run(w, steps).log, x)
    ensures x in Run(w, steps).orgs && OrgInv(stale, Run(w, steps).states, Run(w, steps).orgs[x])
  {
    if steps != [] {
      var w' := Run(w, steps[..|steps| - 1]);
      StepGrows(w', steps[|steps| - 1]);
      RunKeeps(stale, w, steps[..|steps| - 1], x);
      StepKeeps(stale, w', steps[|steps| - 1], x);
    }
  }

  // ---------------------------------------------------------------- main result

  /** The start keeps the invariant. */
  lemma StartKeeps(w: World, states: seq<string>, x: string)
    requires Init(w) && x in w.orgs && StartsCovered(w, states, x)
    ensures OrgInv(Stale(w, states, x), w.states, w.orgs[x])
  {
  }

  /** With states that do not repeat and no unregistration of x, a monitoring namespace whose
      marker is the e-th cluster state has both backends registered under that state or a later
      one, whatever failed, lagged or was removed in between. */
  lemma MarkerNeverRunsAhead(w: World, steps: seq<Step>, x: string, e: nat, b: Backend)
    requires Init(w) && x in w.orgs && StartsCovered(w, Run(w, steps).states.hist, x)
    requires Distinct(Run(w, steps).states.hist) && NeverDropped(Run(w, steps).log, x)
    requires e < |Run(w, steps).states.hist|
    requires x in Run(w, steps).orgs && Run(w, steps).orgs[x].mon.Live().Mon?
    requires Run(w, steps).orgs[x].mon.Live().marker == Run(w, steps).states.hist[e]
    ensures AtLeast(Run(w, steps).orgs[x].hub, b, e)
  {
    var w' := Run(w, steps);
    var stale := Stale(w, w'.states.hist, x);
    StatesAreValues(w, steps);
    StartKeeps(w, w'.states.hist, x);
    RunKeeps(stale, w, steps, x);
    var m := w'.orgs[x].mon.Live();
    assert m in w'.orgs[x].mon.hist;
    assert w'.states.hist[e] in w'.states.hist;
    assert Covered(stale, w'.states.hist, w'.orgs[x].hub, m.marker);
  }

  lemma {:induction false} StatesAreValues(w: World, steps: seq<Step>)
    requires Init(w)
    ensures forall v :: v in Run(w, steps).states.hist ==> StateValue(v)
  {
    if steps != [] {
      StatesAreValues(w, steps[..|steps| - 1]);
    }
  }
}
