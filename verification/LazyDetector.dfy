/**
 The detector that finds out on first use what kind of Prometheus set-up the cluster has, and the
 delegate it keeps from then on.
 */
module LazyDetector {
  import opened Kube
  import P = PortUpserts

  /** A Prometheus: rancher-monitoring-prometheus in cattle-monitoring-system, user-workload in
      openshift-user-workload-monitoring, or any other. */
  datatype Key = RancherMonitoring | OpenShiftUserWorkload | Named(ns: string, name: string)

  /** What detect reads; list is None when the listing fails. */
  datatype Cluster = Cluster(list: Option<seq<Key>>, rancher: bool, openshift: bool)

  datatype Delegate = OpenShift | Rancher | Standalone(rancher: bool, singleton: bool)

  datatype Found = Detected(d: Delegate) | NotReady | Failed

  function Detection(c: Cluster): Found {
    if c.list.None? || c.list.value == [] then Failed
    else if c.rancher then
      if RancherMonitoring in c.list.value then Detected(Rancher)
      else Detected(Standalone(true, |c.list.value| == 1))
    else if c.openshift then
      if OpenShiftUserWorkload in c.list.value then Detected(OpenShift) else NotReady
    else Detected(Standalone(false, |c.list.value| == 1))
  }

  function OpenShiftManaged(d: Delegate): bool {
    d.OpenShift?
  }

  function RancherManaged(d: Delegate): bool {
    match d case OpenShift => false case Rancher => true case Standalone(rancher, _) => rancher
  }

  function Federated(d: Delegate): bool {
    d.Rancher?
  }

  function IsDefault(d: Delegate, k: Key): bool {
    match d
    case OpenShift => k == OpenShiftUserWorkload
    case Rancher => k == RancherMonitoring
    case Standalone(_, singleton) => singleton
  }

  /** The Service that answers for a Prometheus: its own, or the Thanos querier of OpenShift. */
  datatype Target = ThanosQuerier | Own(k: Key)

  /** port is None when the Service has no port of the wanted name. */
  datatype Spec = Spec(target: Target, scheme: string, port: Option<int>)

  function ServiceKey(d: Delegate, k: Key): Target {
    if d.OpenShift? then ThanosQuerier else Own(k)
  }

  function Service(d: Delegate, k: Key, ports: seq<P.Port>): Spec {
    if d.OpenShift? then Spec(ThanosQuerier, "https", P.PortForName(ports, "web"))
    else Spec(Own(k), "http", P.PortForName(ports, "http-web"))
  }

  datatype Question =
    | AskReady | AskOpenShift | AskRancher | AskFederated | AskDefault(k: Key)
    | AskServiceKey(k: Key) | AskService(k: Key, ports: seq<P.Port>)

  /** Panic is the answer of a getter that is asked before the set-up is known. */
  datatype Answer = Yes | No | Error | Panic | KeyOf(target: Target) | SpecOf(spec: Spec)

  function Say(b: bool): Answer {
    if b then Yes else No
  }

  /** One call: the state of the cluster at that moment and the question. */
  datatype Call = Call(cluster: Cluster, q: Question)

  class Detector {
    var delegated: Option<Delegate>

    constructor ()
      ensures delegated == None
    {
      delegated := None;
    }

    /** detect */
    method Detect(c: Cluster) returns (r: Found)
      modifies this
      ensures r == Detection(c)
      ensures delegated == if r.Detected? then Some(r.d) else old(delegated)
    {
      if c.list.None? { return Failed; }
      var list := c.list.value;
      if |list| == 0 { return Failed; }
      if c.rancher {
        for i := 0 to |list|
          invariant forall j :: 0 <= j < i ==> list[j] != RancherMonitoring
        {
          if list[i] == RancherMonitoring {
            delegated := Some(Rancher);
            return Detected(Rancher);
          }
        }
        delegated := Some(Standalone(true, |list| == 1));
        return Detected(Standalone(true, |list| == 1));
      }
      if c.openshift {
        for i := 0 to |list|
          invariant forall j :: 0 <= j < i ==> list[j] != OpenShiftUserWorkload
        {
          if list[i] == OpenShiftUserWorkload {
            delegated := Some(OpenShift);
            return Detected(OpenShift);
          }
        }
        return NotReady;
      }
      delegated := Some(Standalone(false, |list| == 1));
      return Detected(Standalone(false, |list| == 1));
    }

    /** Ready and the guarded getters, each under the mutex. */
    method Ask(call: Call) returns (a: Answer)
      modifies this
      ensures (a, delegated) == Reply(old(delegated), call)
    {
      if call.q.AskReady? {
        if delegated.None? {
          var r := Detect(call.cluster);
          return match r case Detected(_) => Yes case NotReady => No case Failed => Error;
        }
        return Yes;
      }
      if delegated.None? { return Panic; }
      match call.q {
        case AskOpenShift => return Say(OpenShiftManaged(delegated.value));
        case AskRancher => return Say(RancherManaged(delegated.value));
        case AskFederated => return Say(Federated(delegated.value));
        case AskDefault(k) => return Say(IsDefault(delegated.value, k));
        case AskServiceKey(k) => return KeyOf(ServiceKey(delegated.value, k));
        case AskService(k, ports) =>
          var name := if delegated.value.OpenShift? then "web" else "http-web";
          var port := P.ServicePortForName(ports, name);
          var scheme := if delegated.value.OpenShift? then "https" else "http";
          return SpecOf(Spec(ServiceKey(delegated.value, k), scheme, port));
      }
    }
  }

  function Get(d: Delegate, q: Question): Answer {
    match q
    case AskReady => Yes
    case AskOpenShift => Say(OpenShiftManaged(d))
    case AskRancher => Say(RancherManaged(d))
    case AskFederated => Say(Federated(d))
    case AskDefault(k) => Say(IsDefault(d, k))
    case AskServiceKey(k) => KeyOf(ServiceKey(d, k))
    case AskService(k, ports) => SpecOf(Service(d, k, ports))
  }

  function Reply(delegated: Option<Delegate>, call: Call): (Answer, Option<Delegate>) {
    if delegated.Some? then (Get(delegated.value, call.q), delegated)
    else if call.q.AskReady? then
      match Detection(call.cluster)
      case Detected(d) => (Yes, Some(d))
      case NotReady => (No, None)
      case Failed => (Error, None)
    else (Panic, None)
  }

  function After(calls: seq<Call>): Option<Delegate> {
    if calls == [] then None else Reply(After(calls[..|calls| - 1]), calls[|calls| - 1]).1
  }

  function AnswerTo(calls: seq<Call>, n: nat): Answer
    requires n < |calls|
  {
    Reply(After(calls[..n]), calls[n]).0
  }

  /** The call finds out what the set-up is, if nothing has before. */
  predicate Detects(c: Call) {
    c.q.AskReady? && Detection(c.cluster).Detected?
  }

  /** m is the first call of the first n that detects. */
  ghost predicate FirstDetection(calls: seq<Call>, n: nat, m: int)
    requires n <= |calls|
  {
    0 <= m < n && Detects(calls[m]) && forall i :: 0 <= i < m ==> !Detects(calls[i])
  }

  lemma {:induction false} DelegateIsFirst(calls: seq<Call>, n: nat)
    requires n <= |calls|
    ensures After(calls[..n]).None? <==> forall i :: 0 <= i < n ==> !Detects(calls[i])
    ensures After(calls[..n]).Some? ==>
              exists m :: FirstDetection(calls, n, m) && Detection(calls[m].cluster) == Detected(After(calls[..n]).value)
  {
    if n > 0 {
      DelegateIsFirst(calls, n - 1);
      assert calls[..n][..n - 1] == calls[..n - 1];
      if After(calls[..n - 1]).Some? {
        var m :| FirstDetection(calls, n - 1, m) && Detection(calls[m].cluster) == Detected(After(calls[..n - 1]).value);
        assert FirstDetection(calls, n, m);
      } else if Detects(calls[n - 1]) {
        assert FirstDetection(calls, n, n - 1);
      }
    }
  }

  /** Over any interleaving of calls and any changes of the cluster: a getter panics exactly until
      some call of Ready has detected the set-up, and from then on every answer is the one for the
      cluster as it was at that first detection. */
  lemma AnswersAreFrozen(calls: seq<Call>, n: nat)
    requires n < |calls|
    ensures AnswerTo(calls, n) == Panic <==> !calls[n].q.AskReady? && forall i :: 0 <= i < n ==> !Detects(calls[i])
    ensures forall m :: FirstDetection(calls, n, m) ==> AnswerTo(calls, n) == Get(Detection(calls[m].cluster).d, calls[n].q)
  {
    DelegateIsFirst(calls, n);
    forall m | FirstDetection(calls, n, m) ensures AnswerTo(calls, n) == Get(Detection(calls[m].cluster).d, calls[n].q) {
      var k :| FirstDetection(calls, n, k) && Detection(calls[k].cluster) == Detected(After(calls[..n]).value);
      assert k == m;
    }
  }

  /** So a set-up detected with a single Prometheus, without Rancher or OpenShift, calls every
      Prometheus the default one for ever, however many are added. */
  lemma SingletonIsFrozen(calls: seq<Call>, n: nat, m: int, k: Key)
    requires n < |calls| && FirstDetection(calls, n, m) && calls[n].q == AskDefault(k)
    requires var c := calls[m].cluster; !c.rancher && !c.openshift && c.list.Some? && |c.list.value| == 1
    ensures AnswerTo(calls, n) == Yes
  {
    AnswersAreFrozen(calls, n);
  }

  // ---------------------------------------------------------------- what the set-ups mean

  /** A call of Ready finds the set-up out when Prometheuses are listed and, on OpenShift without
      Rancher, the user workload one is among them. */
  lemma DetectsIff(c: Call)
    ensures Detects(c) <==>
              && c.q.AskReady? && c.cluster.list.Some? && c.cluster.list.value != []
              && (c.cluster.openshift && !c.cluster.rancher ==> OpenShiftUserWorkload in c.cluster.list.value)
  {
  }

  /** What every getter says for ever after the first detection: by the cluster as it was then. */
  lemma FrozenMeans(calls: seq<Call>, n: nat, m: int)
    requires n < |calls| && FirstDetection(calls, n, m)
    ensures var c, q, a := calls[m].cluster, calls[n].q, AnswerTo(calls, n);
            var list := c.list.value;
            var federated := c.rancher && RancherMonitoring in list;
            var openshift := !c.rancher && c.openshift;
            match q
            case AskReady => a == Yes
            case AskOpenShift => a == if openshift then Yes else No
            case AskRancher => a == if c.rancher then Yes else No
            case AskFederated => a == if federated then Yes else No
            case AskDefault(k) =>
              a == if (if federated then k == RancherMonitoring else if openshift then k == OpenShiftUserWorkload else |list| == 1)
                   then Yes else No
            case AskServiceKey(k) => a == KeyOf(if openshift then ThanosQuerier else Own(k))
            case AskService(k, ports) =>
              a == SpecOf(if openshift then Spec(ThanosQuerier, "https", P.PortForName(ports, "web"))
                          else Spec(Own(k), "http", P.PortForName(ports, "http-web")))
  {
    AnswersAreFrozen(calls, n);
    DetectsIff(calls[m]);
  }
}
