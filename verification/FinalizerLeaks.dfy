/** Every empty finalizer patch can end in a copy whose namespace has no finalizer. */
module FinalizerLeaks {
  import opened Kube
  import opened ClientOrgMachine
  import opened ClientOrgPaths
  import opened ClientOrgSafety
  import W = ClientOrgWitnesses

  /** The cache of the monitoring namespace catches up. */
  lemma CatchUp(g: Setting, x: string, o: Org) returns (ms: seq<Move>, o': Org)
    requires Ready(g, o)
    ensures Leads(g, x, o, ms, o') && Ready(g, o')
    ensures o'.mon.Cached() == o.mon.Live() && o' == o.(mon := o'.mon) && o'.mon.hist == o.mon.hist
  {
    var e := Env(SyncOrg(x, o.ns.pos, |o.mon.hist| - 1, o.bindings.pos));
    ms := [e];
    o' := Follow(g, x, [o, Next(g, x, o, e)], ms);
  }

  /** Then the pass goes to the gate and through. */
  lemma IntoPass(g: Setting, x: string, o: Org) returns (ms: seq<Move>, o': Org)
    requires Ready(g, o) && o.pc == GetMonitoring && Accepting(o.mon.Live()) && g.role.state != ""
    ensures Leads(g, x, o, ms, o') && Ready(g, o')
    ensures o'.ns == o.ns && o'.dying == o.dying && o'.mon.Live() == o.mon.Live()
    ensures o'.pc == if g.hub then ReadState(o.mon.Live()) else ListDashboards(Grafana)
  {
    var o1: Org;
    ms, o1 := CatchUp(g, x, o);
    var os, ns := W.ToGate(g, x, o1);
    var o2 := Follow(g, x, os, ns);
    ms := Join(g, x, o, ms, o1, ns, o2);
    os, ns := W.ThroughGate(g, x, o2, o.mon.Live());
    o' := Follow(g, x, os, ns);
    ms := Join(g, x, o, ms, o2, ns, o');
  }

  lemma Checked(g: Setting, x: string, o: Org, b: Backend, k: Ctx) returns (ms: seq<Move>, o': Org)
    requires Ready(g, o) && o.pc == EnterBackend(b, k)
    ensures Leads(g, x, o, ms, o') && Ready(g, o') && o' == o.(pc := HubRegister(b, k))
  {
    if o.pc.CheckBinding? {
      ms := [STOP];
      o' := Follow(g, x, [o, Next(g, x, o, STOP)], ms);
    } else {
      ms := [];
      o' := Follow(g, x, [o], ms);
    }
  }

  /** A backend can always be registered, needed or not: a failing lookup of its AppBinding counts
      as a missing one. */
  lemma BackendDone(g: Setting, x: string, o: Org, b: Backend, k: Ctx) returns (ms: seq<Move>, o': Org)
    requires Ready(g, o) && o.pc == EnterBackend(b, k) && Accepting(o.mon.Live())
    ensures Leads(g, x, o, ms, o') && Ready(g, o')
    ensures o'.ns == o.ns && o'.dying == o.dying && o'.mon == o.mon && o'.pc == AfterBackend(b, k)
  {
    var o1: Org;
    ms, o1 := Checked(g, x, o, b, k);
    var os, ns := W.Registered(g, x, o1, b, k, true);
    o' := Follow(g, x, os, ns);
    ms := Join(g, x, o, ms, o1, ns, o');
  }

  lemma BothDone(g: Setting, x: string, o: Org, k: Ctx) returns (ms: seq<Move>, o': Org)
    requires Ready(g, o) && o.pc == EnterBackend(Grafana, k) && k.failed == {} && Accepting(o.mon.Live())
    ensures Leads(g, x, o, ms, o') && Ready(g, o')
    ensures o'.ns == o.ns && o'.dying == o.dying && o'.mon == o.mon && o'.pc == StampMarker(k)
  {
    var o1: Org;
    ms, o1 := BackendDone(g, x, o, Grafana, k);
    var ns: seq<Move>;
    ns, o' := BackendDone(g, x, o1, Perses, k);
    ms := Join(g, x, o, ms, o1, ns, o');
  }

  lemma Stamping(g: Setting, x: string, o: Org) returns (ms: seq<Move>, o': Org)
    requires Ready(g, o) && o.pc.StampMarker? && Accepting(o.mon.Live())
    ensures Leads(g, x, o, ms, o') && Ready(g, o')
    ensures o'.ns == o.ns && o'.dying == o.dying && Accepting(o'.mon.Live()) && o'.pc == ListDashboards(Grafana)
  {
    ms := [GO];
    o' := Follow(g, x, [o, Next(g, x, o, GO)], ms);
  }

  /** From the cluster state to the listing of dashboards. */
  lemma ThroughBackends(g: Setting, x: string, o: Org) returns (ms: seq<Move>, o': Org)
    requires Ready(g, o) && o.pc.ReadState? && Accepting(o.mon.Live())
    ensures Leads(g, x, o, ms, o') && Ready(g, o')
    ensures o'.ns == o.ns && o'.dying == o.dying && Accepting(o'.mon.Live()) && o'.pc == ListDashboards(Grafana)
  {
    var os, ns := W.ToBackends(g, x, o);
    var o1 := Follow(g, x, os, ns);
    ms := ns;
    var o2: Org;
    ns, o2 := BothDone(g, x, o1, Ctx(o.pc.mon, g.states.Cached(), g.states.pos, {}));
    ms := Join(g, x, o, ms, o1, ns, o2);
    ns, o' := Stamping(g, x, o2);
    ms := Join(g, x, o, ms, o2, ns, o');
  }

  lemma ToListing(g: Setting, x: string, o: Org) returns (ms: seq<Move>, o': Org)
    requires Ready(g, o) && o.pc == GetMonitoring && Accepting(o.mon.Live()) && g.role.state != ""
    ensures Leads(g, x, o, ms, o') && Ready(g, o')
    ensures o'.ns == o.ns && o'.dying == o.dying && Accepting(o'.mon.Live()) && o'.pc == ListDashboards(Grafana)
  {
    ms, o' := IntoPass(g, x, o);
    if g.hub {
      var o1, ns := o', ms;
      ns, o' := ThroughBackends(g, x, o1);
      ms := Join(g, x, o, ms, o1, ns, o');
    }
  }

  lemma ToCopy(g: Setting, x: string, o: Org, name: string) returns (ms: seq<Move>, o': Org)
    requires Ready(g, o) && o.pc == GetMonitoring && Accepting(o.mon.Live()) && g.role.state != ""
    requires Dashboard(Grafana, name) !in o.dying
    ensures Leads(g, x, o, ms, o') && o'.ns == o.ns && Dashboard(Grafana, name) in o'.copies
  {
    var o1: Org;
    ms, o1 := ToListing(g, x, o);
    var os, ns := W.CopyOne(g, x, o1, name);
    o' := Follow(g, x, os, ns);
    ms := Join(g, x, o, ms, o1, ns, o');
  }

  /** Every empty finalizer patch extends to an uncovered copy, of any name that no dying copy
      still has, as soon as the marker of the RoleBinding is seen and the monitoring namespace
      accepts objects. */
  lemma StaleFinalizerLeaks(w: World, s: Step, name: string) returns (steps: seq<Step>)
    requires Valid(w) && StaleFinalizer(w, s) && w.role.Cached().state != ""
    requires Accepting(w.orgs[s.org].mon.Live()) && Dashboard(Grafana, name) !in w.orgs[s.org].dying
    ensures s.org in Run(Apply(w, s), steps).orgs
    ensures var o := Run(Apply(w, s), steps).orgs[s.org];
            Dashboard(Grafana, name) in o.copies && !Held(o.ns.Live())
  {
    ApplyValid(w, s);
    StaleFinalizerUncovers(w, s);
    steps := Leak(Apply(w, s), s.org, name);
  }

  lemma Leak(w: World, x: string, name: string) returns (steps: seq<Step>)
    requires Valid(w) && x in w.orgs && w.role.Cached().state != "" && w.orgs[x].pc == GetMonitoring && !Held(w.orgs[x].ns.Live())
    requires Accepting(w.orgs[x].mon.Live()) && Dashboard(Grafana, name) !in w.orgs[x].dying
    ensures x in Run(w, steps).orgs
    ensures Dashboard(Grafana, name) in Run(w, steps).orgs[x].copies && !Held(Run(w, steps).orgs[x].ns.Live())
  {
    var o, g := w.orgs[x], Setting(w.hub, w.states, w.role.Cached());
    var ms, o' := ToCopy(g, x, o, name);
    var os :| Path(g, x, os, ms) && os[0] == o && os[|ms|] == o';
    Lift(w, g, x, os, ms);
    steps := Steps(x, ms);
  }
}
