/** Runs of one organisation, built move by move. */
module ClientOrgPaths {
  import opened Kube
  import opened ClientOrgMachine

  // ---------------------------------------------------------------- runs of one organisation

  const OK := Choice(true, false, true, [], None, false)
  const FAIL := Choice(false, false, true, [], None, false)

  /** What the reconcile of an organisation sees of the rest of the world. */
  datatype Setting = Setting(hub: bool, states: Versioned<string>, role: Mark)

  predicate Ready(g: Setting, o: Org) {
    ValidOrg(o) && g.states.Valid()
  }

  /** A call of the reconcile, or a move of the environment on the same organisation. */
  datatype Move = Call(c: Choice) | Env(s: Step)

  predicate Local(x: string, m: Move) {
    m.Env? ==> OnOrg(m.s) && m.s.org == x
  }

  function ToStep(x: string, m: Move): Step {
    match m case Call(c) => Reconcile(x, c) case Env(s) => s
  }

  function Next(g: Setting, x: string, o: Org, m: Move): (r: Org)
    requires Ready(g, o)
    ensures Ready(g, r)
  {
    match m
    case Call(c) => OrgCall(g.hub, g.states, g.role, x, o, c).0
    case Env(s) =>
      EnvOrgValid(o, s);
      EnvOrg(o, s)
  }

  /** A path visits the orgs os, one move of ms after the other. */
  ghost predicate Path(g: Setting, x: string, os: seq<Org>, ms: seq<Move>) {
    && |os| == |ms| + 1
    && (forall i :: 0 <= i < |os| ==> Ready(g, os[i]))
    && forall i :: 0 <= i < |ms| ==> Local(x, ms[i]) && os[i + 1] == Next(g, x, os[i], ms[i])
  }

  /** w is a world in the setting g whose organisation x is o. */
  ghost predicate At(w: World, g: Setting, x: string, o: Org) {
    Valid(w) && x in w.orgs && w.orgs[x] == o && g == Setting(w.hub, w.states, w.role.Cached())
  }

  function Steps(x: string, ms: seq<Move>): (r: seq<Step>)
    ensures |r| == |ms|
  {
    if ms == [] then [] else Steps(x, ms[..|ms| - 1]) + [ToStep(x, ms[|ms| - 1])]
  }

  lemma ApplyLocal(w: World, g: Setting, x: string, o: Org, m: Move)
    requires At(w, g, x, o) && Local(x, m)
    ensures At(Apply(w, ToStep(x, m)), g, x, Next(g, x, o, m))
  {
    ApplyValid(w, ToStep(x, m));
  }

  lemma {:induction false} Lift(w: World, g: Setting, x: string, os: seq<Org>, ms: seq<Move>)
    requires Path(g, x, os, ms) && At(w, g, x, os[0])
    ensures At(Run(w, Steps(x, ms)), g, x, os[|ms|])
  {
    if ms != [] {
      var n := |ms| - 1;
      Lift(w, g, x, os[..n + 1], ms[..n]);
      var r := Steps(x, ms);
      assert r[..|r| - 1] == Steps(x, ms[..n]);
      ApplyLocal(Run(w, Steps(x, ms[..n])), g, x, os[n], ms[n]);
    }
  }

  lemma Chain(w: World, steps: seq<Step>, g: Setting, x: string, os: seq<Org>, ms: seq<Move>) returns (steps': seq<Step>)
    requires Valid(w) && Path(g, x, os, ms) && At(Run(w, steps), g, x, os[0])
    ensures At(Run(w, steps'), g, x, os[|ms|])
  {
    steps' := steps + Steps(x, ms);
    RunAppend(w, steps, Steps(x, ms));
    Lift(Run(w, steps), g, x, os, ms);
  }

  /** The moves ms lead from the organisation o to o'. */
  ghost predicate Leads(g: Setting, x: string, o: Org, ms: seq<Move>, o': Org) {
    exists os :: Path(g, x, os, ms) && os[0] == o && os[|ms|] == o'
  }

  lemma Follow(g: Setting, x: string, os: seq<Org>, ms: seq<Move>) returns (o: Org)
    requires Path(g, x, os, ms)
    ensures o == os[|ms|] && Ready(g, o) && Leads(g, x, os[0], ms, o)
  {
    o := os[|ms|];
  }

  /** The i-th move of a path. */
  ghost predicate Moves(g: Setting, x: string, o: Org, m: Move, o': Org) {
    Ready(g, o) && Ready(g, o') && Local(x, m) && o' == Next(g, x, o, m)
  }

  lemma PathMoves(g: Setting, x: string, os: seq<Org>, ms: seq<Move>)
    requires Path(g, x, os, ms)
    ensures forall i :: 0 <= i < |ms| ==> Moves(g, x, os[i], ms[i], os[i + 1])
  {
  }

  lemma MovesPath(g: Setting, x: string, os: seq<Org>, ms: seq<Move>)
    requires |os| == |ms| + 1 && Ready(g, os[0]) && forall i :: 0 <= i < |ms| ==> Moves(g, x, os[i], ms[i], os[i + 1])
    ensures Path(g, x, os, ms)
  {
    forall i | 0 <= i < |os| ensures Ready(g, os[i]) {
      if i > 0 { assert Moves(g, x, os[i - 1], ms[i - 1], os[i - 1 + 1]); }
    }
    forall i | 0 <= i < |ms| ensures Local(x, ms[i]) && os[i + 1] == Next(g, x, os[i], ms[i]) {
      assert Moves(g, x, os[i], ms[i], os[i + 1]);
    }
  }

  lemma Three(g: Setting, x: string, o: Org, m: Move, o1: Org, m1: Move, o2: Org, m2: Move, o3: Org)
    requires Moves(g, x, o, m, o1) && Moves(g, x, o1, m1, o2) && Moves(g, x, o2, m2, o3)
    ensures Path(g, x, [o, o1, o2, o3], [m, m1, m2])
  {
    MovesPath(g, x, [o, o1, o2, o3], [m, m1, m2]);
  }

  lemma Four(g: Setting, x: string, o: Org, m: Move, o1: Org, m1: Move, o2: Org, m2: Move, o3: Org, m3: Move, o4: Org)
    requires Moves(g, x, o, m, o1) && Moves(g, x, o1, m1, o2) && Moves(g, x, o2, m2, o3) && Moves(g, x, o3, m3, o4)
    ensures Path(g, x, [o, o1, o2, o3, o4], [m, m1, m2, m3])
  {
    MovesPath(g, x, [o, o1, o2, o3, o4], [m, m1, m2, m3]);
  }

  lemma Joined(g: Setting, x: string, os: seq<Org>, ms: seq<Move>, os': seq<Org>, ms': seq<Move>)
    requires Path(g, x, os, ms) && Path(g, x, os', ms') && os[|ms|] == os'[0]
    ensures Path(g, x, os + os'[1..], ms + ms')
  {
    PathMoves(g, x, os, ms);
    PathMoves(g, x, os', ms');
    var both, all := os + os'[1..], ms + ms';
    forall i | 0 <= i < |all| ensures Moves(g, x, both[i], all[i], both[i + 1]) {
      if i < |ms| {
        assert Moves(g, x, os[i], ms[i], os[i + 1]);
      } else {
        assert both[i] == os'[i - |ms|] && both[i + 1] == os'[i - |ms| + 1];
        assert Moves(g, x, os'[i - |ms|], ms'[i - |ms|], os'[i - |ms| + 1]);
      }
    }
    MovesPath(g, x, both, all);
  }

  lemma Join(g: Setting, x: string, o: Org, ms: seq<Move>, o': Org, ms': seq<Move>, o'': Org) returns (all: seq<Move>)
    requires Leads(g, x, o, ms, o') && Leads(g, x, o', ms', o'')
    ensures Leads(g, x, o, all, o'')
  {
    var os :| Path(g, x, os, ms) && os[0] == o && os[|ms|] == o';
    var os' :| Path(g, x, os', ms') && os'[0] == o' && os'[|ms'|] == o'';
    all := ms + ms';
    Joined(g, x, os, ms, os', ms');
    assert (os + os'[1..])[|all|] == o'';
  }

  const GO := Call(OK)
  const STOP := Call(FAIL)

  function Lone(hub: bool, state: string, role: string, x: string, o: Org): World {
    World(hub, Initial(state), Initial(Mark(role, None)), map[x := o], PIdle, 0, [])
  }
}
