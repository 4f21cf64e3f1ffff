/**
 The auth Secret of an AppBinding, whose write error is dropped and which users may delete: when a stored AppBinding has its
 Secret, and that one left without it stays so as long as its marker and the AppBinding last.
 */
module AuthSecrets {
  import opened Kube
  import opened ClientOrgMachine

  /** The stored AppBinding of backend b has no auth Secret. */
  predicate Lacks(o: Org, b: Backend)
    requires ValidOrg(o)
  {
    b in o.bindings.Live() && b !in o.secrets
  }

  /** The reconcile is about to write the Secret. */
  predicate Pending(o: Org, b: Backend) {
    o.pc.WriteSecret? && o.pc.b == b
  }

  /** A failing write or a user leaves the AppBinding of x without its Secret. */
  predicate Drops(w: World, s: Step, x: string, b: Backend)
    requires Valid(w) && x in w.orgs
  {
    || (s.Reconcile? && s.org == x && Pending(w.orgs[x], b) && !s.c.ok && Lacks(w.orgs[x], b))
    || (s == DropSecret(x, b) && b in w.orgs[x].bindings.Live())
  }

  /** The Secret is written, or the AppBinding is lost. */
  predicate Restores(w: World, s: Step, x: string, b: Backend)
    requires Valid(w) && x in w.orgs
  {
    || (s.Reconcile? && s.org == x && Pending(w.orgs[x], b) && s.c.ok)
    || s == DropBinding(x, b)
    || (s == FinishMonitoring(x) && EnvOrg(w.orgs[x], s) != w.orgs[x])
  }

  lemma {:induction false} OrgStays(w: World, steps: seq<Step>, x: string)
    requires Valid(w) && x in w.orgs
    ensures x in Run(w, steps).orgs
  {
    if steps != [] { OrgStays(w, steps[..|steps| - 1], x); }
  }

  /** What a run says about the Secret of b: it was missing at first, after a failing write or after
      its deletion, and nothing has restored it since. */
  ghost predicate Unrepaired(w: World, steps: seq<Step>, x: string, b: Backend)
    requires Valid(w) && x in w.orgs
  {
    if steps == [] then Lacks(w.orgs[x], b) && !Pending(w.orgs[x], b)
    else
      var init, s := steps[..|steps| - 1], steps[|steps| - 1];
      OrgStays(w, init, x);
      var u := Run(w, init);
      Drops(u, s, x, b) || (Unrepaired(w, init, x, b) && !Restores(u, s, x, b))
  }

  // ---------------------------------------------------------------- one step

  /** How one step of x moves the AppBinding and the Secret of b. lacked: the Secret was missing before
      the reconcile came to write it. */
  ghost predicate Tracks(o: Org, b: Backend, lacked: bool)
    requires ValidOrg(o)
  {
    && (lacked ==> Lacks(o, b))
    && (Lacks(o, b) ==> lacked || Pending(o, b))
  }

  lemma TeardownTracks(x: string, o: Org, c: Choice, b: Backend, lacked: bool)
    requires ValidOrg(o) && Tracks(o, b, lacked)
    requires o.pc.Unregister? || o.pc.DeleteAll? || o.pc.DropFinalizer? || o.pc.MarkCleaned?
    ensures Tracks(TeardownStep(x, o, c).0, b, lacked)
  {
  }

  lemma RegisterTracks(x: string, o: Org, c: Choice, b: Backend, lacked: bool)
    requires ValidOrg(o) && Tracks(o, b, lacked)
    requires o.pc.CheckBinding? || o.pc.HubRegister? || o.pc.WriteBinding? || o.pc.WriteSecret? || o.pc.StampMarker?
    ensures var pending := Pending(o, b);
            Tracks(RegisterStep(x, o, c).0, b, (pending && !c.ok && Lacks(o, b)) || (lacked && !(pending && c.ok)))
  {
  }

  lemma CallTracks(hub: bool, states: Versioned<string>, role: Mark, x: string, o: Org, c: Choice, b: Backend, lacked: bool)
    requires ValidOrg(o) && states.Valid() && Tracks(o, b, lacked)
    ensures var pending := Pending(o, b);
            Tracks(OrgCall(hub, states, role, x, o, c).0, b,
                   (pending && !c.ok && Lacks(o, b)) || (lacked && !(pending && c.ok)))
  {
    if o.pc.Unregister? || o.pc.DeleteAll? || o.pc.DropFinalizer? || o.pc.MarkCleaned? {
      TeardownTracks(x, o, c, b, lacked);
    } else if o.pc.CheckBinding? || o.pc.HubRegister? || o.pc.WriteBinding? || o.pc.WriteSecret? || o.pc.StampMarker? {
      RegisterTracks(x, o, c, b, lacked);
    } else {
      Elsewhere(hub, states, role, x, o, c);
    }
  }

  /** Other calls touch neither, and do not lead to the write. */
  lemma Elsewhere(hub: bool, states: Versioned<string>, role: Mark, x: string, o: Org, c: Choice)
    requires ValidOrg(o) && states.Valid()
    requires !o.pc.Unregister? && !o.pc.DeleteAll? && !o.pc.DropFinalizer? && !o.pc.MarkCleaned?
    requires !o.pc.CheckBinding? && !o.pc.HubRegister? && !o.pc.WriteBinding? && !o.pc.WriteSecret? && !o.pc.StampMarker?
    ensures var r := OrgCall(hub, states, role, x, o, c).0;
            r.bindings == o.bindings && r.secrets == o.secrets && !r.pc.WriteSecret?
  {
  }

  lemma EnvTracks(o: Org, s: Step, x: string, b: Backend, lacked: bool)
    requires ValidOrg(o) && Tracks(o, b, lacked)
    requires OnOrg(s) && s.org == x
    ensures ValidOrg(EnvOrg(o, s))
    ensures Tracks(EnvOrg(o, s), b,
                   (s == DropSecret(x, b) && b in o.bindings.Live())
                   || (lacked && s != DropBinding(x, b) && !(s == FinishMonitoring(x) && EnvOrg(o, s) != o)))
  {
    EnvOrgValid(o, s);
  }

  lemma ApplyLocal(w: World, s: Step, x: string)
    requires Valid(w) && x in w.orgs && OnOrg(s) && s.org == x
    ensures x in Apply(w, s).orgs && Apply(w, s).orgs[x] == EnvOrg(w.orgs[x], s) && Apply(w, s).states == w.states
  {
  }

  lemma ApplyCall(w: World, x: string, c: Choice)
    requires Valid(w) && x in w.orgs
    ensures var w' := Apply(w, Reconcile(x, c));
            x in w'.orgs && w'.orgs[x] == OrgCall(w.hub, w.states, w.role.Cached(), x, w.orgs[x], c).0 && w'.states == w.states
  {
  }

  lemma ApplyElsewhere(w: World, s: Step, x: string)
    requires Valid(w) && x in w.orgs && !(OnOrg(s) && s.org == x) && !(s.Reconcile? && s.org == x)
    ensures x in Apply(w, s).orgs && Apply(w, s).orgs[x] == w.orgs[x]
  {
  }

  lemma StepTracks(w: World, s: Step, x: string, b: Backend, lacked: bool)
    requires Valid(w) && x in w.orgs && Tracks(w.orgs[x], b, lacked)
    requires Valid(Apply(w, s)) && x in Apply(w, s).orgs
    ensures Tracks(Apply(w, s).orgs[x], b, Drops(w, s, x, b) || (lacked && !Restores(w, s, x, b)))
  {
    if s.Reconcile? && s.org == x {
      ApplyCall(w, x, s.c);
      CallTracks(w.hub, w.states, w.role.Cached(), x, w.orgs[x], s.c, b, lacked);
    } else if OnOrg(s) && s.org == x {
      ApplyLocal(w, s, x);
      EnvTracks(w.orgs[x], s, x, b, lacked);
    } else {
      ApplyElsewhere(w, s, x);
    }
  }

  // ---------------------------------------------------------------- when the Secret is there

  /** On every run, whatever fails in between: unless the reconcile is just about to write it, a
      stored AppBinding is without its Secret if and only if it was so at first, after a failing write
      or after a deletion of the Secret, and since then no write has succeeded and the AppBinding was not lost. */
  lemma LacksIff(w: World, steps: seq<Step>, r: World, x: string, b: Backend)
    requires Init(w) && x in w.orgs && r == Run(w, steps)
    ensures x in r.orgs && (Unrepaired(w, steps, x, b) ==> Lacks(r.orgs[x], b))
    ensures !Pending(r.orgs[x], b) ==> (Lacks(r.orgs[x], b) <==> Unrepaired(w, steps, x, b))
  {
    TracksRun(w, steps, x, b);
  }

  lemma {:induction false} TracksRun(w: World, steps: seq<Step>, x: string, b: Backend)
    requires Init(w) && x in w.orgs
    ensures x in Run(w, steps).orgs && Tracks(Run(w, steps).orgs[x], b, Unrepaired(w, steps, x, b))
  {
    if steps != [] {
      TracksRun(w, steps[..|steps| - 1], x, b);
      OrgStays(w, steps, x);
      StepTracks(Run(w, steps[..|steps| - 1]), steps[|steps| - 1], x, b, Unrepaired(w, steps[..|steps| - 1], x, b));
    }
  }

  /** No write of the Secret fails where it matters, and nobody deletes it under its AppBinding. */
  ghost predicate NeverDrops(w: World, steps: seq<Step>, x: string, b: Backend)
    requires Valid(w) && x in w.orgs
  {
    steps == [] ||
    var init := steps[..|steps| - 1];
    OrgStays(w, init, x);
    NeverDrops(w, init, x, b) && !Drops(Run(w, init), steps[|steps| - 1], x, b)
  }

  lemma {:induction false} NeverUnrepaired(w: World, steps: seq<Step>, x: string, b: Backend)
    requires Init(w) && x in w.orgs && !Lacks(w.orgs[x], b) && NeverDrops(w, steps, x, b)
    ensures !Unrepaired(w, steps, x, b)
  {
    if steps != [] { NeverUnrepaired(w, steps[..|steps| - 1], x, b); }
  }

  /** So without such failures and deletions, every stored AppBinding has its Secret or is about to get it. */
  lemma SecretFollowsBinding(w: World, steps: seq<Step>, r: World, x: string, b: Backend)
    requires Init(w) && x in w.orgs && !Lacks(w.orgs[x], b) && NeverDrops(w, steps, x, b) && r == Run(w, steps)
    ensures x in r.orgs && (b in r.orgs[x].bindings.Live() ==> b in r.orgs[x].secrets || Pending(r.orgs[x], b))
  {
    LacksIff(w, steps, r, x, b);
    NeverUnrepaired(w, steps, x, b);
  }

  // ---------------------------------------------------------------- when it stays away

  /** The reconcile holds a monitoring namespace with the marker m, and if it is at backend b, it only
      looks the AppBinding up. */
  predicate Skipping(pc: Pc, b: Backend, m: string) {
    match pc
    case CreateMonitoring => false
    case BindRole(mon) => mon.marker == m
    case FindPrometheus(mon) => mon.marker == m
    case GateRole(mon) => mon.marker == m
    case ReadState(mon) => mon.marker == m
    case CheckBinding(_, k) => k.mon.marker == m && k.state == m
    case HubRegister(b', k) => b' != b && k.mon.marker == m && k.state == m
    case WriteBinding(b', k) => b' != b && k.mon.marker == m && k.state == m
    case WriteSecret(b', k) => b' != b && k.mon.marker == m && k.state == m
    case StampMarker(k) => k.mon.marker == m && k.state == m
    case _ => true
  }

  /** Marker, cluster state and AppBinding are settled from the cached versions on. */
  ghost predicate Settled(states: Versioned<string>, o: Org, b: Backend, m: string) {
    && states.Valid() && ValidOrg(o)
    && (forall i :: states.pos <= i < |states.hist| ==> states.hist[i] == m)
    && (forall i :: o.mon.pos <= i < |o.mon.hist| ==> o.mon.hist[i].Mon? && o.mon.hist[i].marker == m)
    && (forall i :: o.bindings.pos <= i < |o.bindings.hist| ==> b in o.bindings.hist[i])
    && b !in o.secrets && Skipping(o.pc, b, m)
  }

  /** The step neither changes the cluster state nor loses the AppBinding, and a lookup of the
      AppBinding does not fail. */
  predicate Undisturbed(w: World, s: Step, x: string, b: Backend, m: string)
    requires Valid(w) && x in w.orgs
  {
    && (s.ChangeState? && StateValue(s.state) ==> s.state == m)
    && !Restores(w, s, x, b)
    && (s.Reconcile? && s.org == x && w.orgs[x].pc.CheckBinding? && w.orgs[x].pc.b == b ==> s.c.ok)
  }

  lemma RegisterStaysSettled(states: Versioned<string>, x: string, o: Org, c: Choice, b: Backend, m: string)
    requires Settled(states, o, b, m) && (o.pc.CheckBinding? && o.pc.b == b ==> c.ok)
    requires o.pc.CheckBinding? || o.pc.HubRegister? || o.pc.WriteBinding? || o.pc.WriteSecret? || o.pc.StampMarker?
    ensures Settled(states, RegisterStep(x, o, c).0, b, m)
  {
  }

  lemma TeardownStaysSettled(states: Versioned<string>, x: string, o: Org, c: Choice, b: Backend, m: string)
    requires Settled(states, o, b, m)
    requires o.pc.Unregister? || o.pc.DeleteAll? || o.pc.DropFinalizer? || o.pc.MarkCleaned?
    ensures Settled(states, TeardownStep(x, o, c).0, b, m)
  {
  }

  lemma LiveStaysSettled(states: Versioned<string>, o: Org, c: Choice, b: Backend, m: string)
    requires Settled(states, o, b, m) && (o.pc.FreshRead? || o.pc.AddFinalizer? || o.pc.GetMonitoring?)
    ensures Settled(states, LiveStep(o, c), b, m)
  {
  }

  lemma GateStaysSettled(hub: bool, states: Versioned<string>, role: Mark, o: Org, c: Choice, b: Backend, m: string)
    requires Settled(states, o, b, m) && (o.pc.BindRole? || o.pc.FindPrometheus? || o.pc.GateRole? || o.pc.ReadState?)
    ensures Settled(states, o.(pc := GateStep(hub, states, role, o.pc, c)), b, m)
  {
  }

  lemma CallStaysSettled(hub: bool, states: Versioned<string>, role: Mark, x: string, o: Org, c: Choice, b: Backend, m: string)
    requires Settled(states, o, b, m) && (o.pc.CheckBinding? && o.pc.b == b ==> c.ok)
    ensures Settled(states, OrgCall(hub, states, role, x, o, c).0, b, m)
  {
    if o.pc.Unregister? || o.pc.DeleteAll? || o.pc.DropFinalizer? || o.pc.MarkCleaned? {
      TeardownStaysSettled(states, x, o, c, b, m);
    } else if o.pc.CheckBinding? || o.pc.HubRegister? || o.pc.WriteBinding? || o.pc.WriteSecret? || o.pc.StampMarker? {
      RegisterStaysSettled(states, x, o, c, b, m);
    } else if o.pc.FreshRead? || o.pc.AddFinalizer? || o.pc.GetMonitoring? {
      LiveStaysSettled(states, o, c, b, m);
    } else if o.pc.BindRole? || o.pc.FindPrometheus? || o.pc.GateRole? || o.pc.ReadState? {
      GateStaysSettled(hub, states, role, o, c, b, m);
    }
  }

  lemma LocalStaysSettled(states: Versioned<string>, o: Org, s: Step, x: string, b: Backend, m: string)
    requires Settled(states, o, b, m) && OnOrg(s) && s.org == x
    requires s != DropBinding(x, b) && !(s == FinishMonitoring(x) && EnvOrg(o, s) != o)
    ensures Settled(states, EnvOrg(o, s), b, m)
  {
    EnvOrgValid(o, s);
  }

  lemma SharedStaysSettled(w: World, s: Step, x: string, b: Backend, m: string)
    requires Valid(w) && x in w.orgs && Settled(w.states, w.orgs[x], b, m) && Undisturbed(w, s, x, b, m)
    requires !(OnOrg(s) && s.org == x) && !(s.Reconcile? && s.org == x)
    ensures x in Apply(w, s).orgs && Settled(Apply(w, s).states, Apply(w, s).orgs[x], b, m)
  {
    ApplyElsewhere(w, s, x);
  }

  /** While it is settled and undisturbed, the Secret stays away: no pass repairs it, whatever else
      happens to the organisation. */
  lemma StepStaysSettled(w: World, s: Step, x: string, b: Backend, m: string)
    requires Valid(w) && x in w.orgs && Settled(w.states, w.orgs[x], b, m) && Undisturbed(w, s, x, b, m)
    ensures x in Apply(w, s).orgs && Settled(Apply(w, s).states, Apply(w, s).orgs[x], b, m)
  {
    if s.Reconcile? && s.org == x {
      ApplyCall(w, x, s.c);
      CallStaysSettled(w.hub, w.states, w.role.Cached(), x, w.orgs[x], s.c, b, m);
    } else if OnOrg(s) && s.org == x {
      ApplyLocal(w, s, x);
      LocalStaysSettled(w.states, w.orgs[x], s, x, b, m);
    } else {
      SharedStaysSettled(w, s, x, b, m);
    }
  }

  ghost predicate NeverDisturbed(w: World, steps: seq<Step>, x: string, b: Backend, m: string)
    requires Valid(w) && x in w.orgs
  {
    steps == [] ||
    var init := steps[..|steps| - 1];
    OrgStays(w, init, x);
    NeverDisturbed(w, init, x, b, m) && Undisturbed(Run(w, init), steps[|steps| - 1], x, b, m)
  }

  /** A missing Secret is not repaired before the cluster state changes, the AppBinding is lost or a
      lookup of it fails: on every run from a settled organisation without these it stays missing. */
  lemma {:induction false} MissingSecretStaysMissing(w: World, steps: seq<Step>, x: string, b: Backend, m: string)
    requires Valid(w) && x in w.orgs && Settled(w.states, w.orgs[x], b, m) && NeverDisturbed(w, steps, x, b, m)
    ensures x in Run(w, steps).orgs && Settled(Run(w, steps).states, Run(w, steps).orgs[x], b, m)
    ensures Lacks(Run(w, steps).orgs[x], b)
  {
    if steps != [] {
      MissingSecretStaysMissing(w, steps[..|steps| - 1], x, b, m);
      StepStaysSettled(Run(w, steps[..|steps| - 1]), steps[|steps| - 1], x, b, m);
    }
  }
}
