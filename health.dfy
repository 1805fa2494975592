/** Per-kind health classification: status counters or phases to a state and the
    description printed after the title (kubetree.go:174-190, 214-224, 249-257,
    275-291, 312-320, 341-352, 373-384, 430-456). */
module Health {
  import opened Base
  import opened Kinds
  import opened Records

  datatype Health = Health(state: State, desc: string)

  /** "a/m", as `%d/%d` prints it. */
  function Ratio(a: int, m: int): string {
    DecimalString(a) + "/" + DecimalString(m)
  }

  /** Deployment rule (kubetree.go:373-384). The source assigns Warning when both
      counters are non-zero and then unconditionally Critical, so Warning never survives. */
  function DeploymentHealth(available: int, updated: int, replicas: int): (h: Health)
    ensures h.state == Critical <==> available < replicas || updated < replicas
    ensures h.state == OK <==> available >= replicas && updated >= replicas
    ensures h.desc == Ratio(available, replicas) + " av, " + Ratio(updated, replicas) + " up to date"
  {
    var short := available < replicas || updated < replicas;
    var afterWarning := if short && available != 0 && updated != 0 then Warning else OK;
    var state := if short then Critical else afterWarning;
    Health(state, Ratio(available, replicas) + " av, " + Ratio(updated, replicas) + " up to date")
  }

  /** ReplicaSet rule (kubetree.go:341-352): the same dead Warning branch. */
  function ReplicaSetHealth(available: int, ready: int, replicas: int): (h: Health)
    ensures h.state == Critical <==> available < replicas || ready < replicas
    ensures h.state == OK <==> available >= replicas && ready >= replicas
    ensures h.desc == Ratio(available, replicas) + " up, " + Ratio(ready, replicas) + " rdy"
  {
    var short := available < replicas || ready < replicas;
    var afterWarning := if short && available != 0 && ready != 0 then Warning else OK;
    var state := if short then Critical else afterWarning;
    Health(state, Ratio(available, replicas) + " up, " + Ratio(ready, replicas) + " rdy")
  }

  /** StatefulSet rule (kubetree.go:312-320). */
  function StatefulSetHealth(current: int, ready: int, replicas: int): (h: Health)
    ensures h.state == Critical <==> current < replicas || ready < replicas
    ensures h.state == OK <==> current >= replicas && ready >= replicas
    ensures h.desc == Ratio(current, replicas) + " repl, " + Ratio(ready, replicas) + " rdy"
  {
    Health(if current < replicas || ready < replicas then Critical else OK,
           Ratio(current, replicas) + " repl, " + Ratio(ready, replicas) + " rdy")
  }

  /** The misscheduled suffix: present exactly when the count is non-zero (negative too). */
  function MisscheduledSuffix(misscheduled: int): (s: string)
    ensures s == "" <==> misscheduled == 0
  {
    if misscheduled == 0 then "" else " (" + DecimalString(misscheduled) + " misscheduled)"
  }

  /** DaemonSet rule (kubetree.go:275-291). */
  function DaemonSetHealth(current: int, ready: int, misscheduled: int, desired: int): (h: Health)
    ensures h.state == Critical <==> misscheduled > 0 || current < desired || ready < desired
    ensures h.state == OK <==> misscheduled <= 0 && current >= desired && ready >= desired
    ensures h.desc == Ratio(current, desired) + " up, " + Ratio(ready, desired) + " pods up"
                      + MisscheduledSuffix(misscheduled)
  {
    Health(if misscheduled > 0 || current < desired || ready < desired then Critical else OK,
           Ratio(current, desired) + " up, " + Ratio(ready, desired) + " pods up" + MisscheduledSuffix(misscheduled))
  }

  /** Number of ready containers. */
  function CountReady(cs: seq<ContainerStatus>): (n: nat)
    ensures n <= |cs|
    ensures n == |cs| <==> forall i :: 0 <= i < |cs| ==> cs[i].ready
    decreases |cs|
  {
    if cs == [] then 0
    else CountReady(cs[..|cs| - 1]) + (if cs[|cs| - 1].ready then 1 else 0)
  }

  /** Number of containers whose state is Running. */
  function CountRunning(cs: seq<ContainerStatus>): (n: nat)
    ensures n <= |cs|
    ensures n == |cs| <==> forall i :: 0 <= i < |cs| ==> cs[i].running
    decreases |cs|
  {
    if cs == [] then 0
    else CountRunning(cs[..|cs| - 1]) + (if cs[|cs| - 1].running then 1 else 0)
  }

  /** The loop of kubetree.go:430-439. */
  method CountContainers(cs: seq<ContainerStatus>) returns (ready: nat, running: nat, total: nat)
    ensures total == |cs| && ready == CountReady(cs) && running == CountRunning(cs)
    ensures ready <= total && running <= total
  {
    ready, running, total := 0, 0, |cs|;
    var i := 0;
    while i < |cs|
      invariant 0 <= i <= |cs|
      invariant ready == CountReady(cs[..i]) && running == CountRunning(cs[..i])
    {
      assert cs[..i + 1][..i] == cs[..i];
      if cs[i].ready {
        ready := ready + 1;
      }
      if cs[i].running {
        running := running + 1;
      }
      i := i + 1;
    }
    assert cs[..i] == cs;
  }

  function PhaseSuffix(phase: PodPhase): string {
    match phase
    case PodPending => " (pending)"
    case PodSucceeded => " (succeeded)"
    case PodFailed => " (failed)"
    case _ => ""
  }

  /** Pod rule (kubetree.go:441-456) over the counted containers. A succeeded pod keeps
      the zero state OK. */
  function PodHealth(phase: PodPhase, ready: nat, running: nat, total: nat): (h: Health)
    ensures phase == PodRunning ==> (h.state == Critical <==> running != total || ready != total)
    ensures phase == PodRunning ==> h.state != Warning && h.state != Unset
    ensures phase == PodPending ==> h.state == Warning
    ensures phase == PodFailed ==> h.state == Critical
    ensures phase == PodSucceeded || phase == PodOtherPhase ==> h.state == OK
    ensures h.desc == Ratio(running, total) + " up, " + Ratio(ready, total) + " rdy" + PhaseSuffix(phase)
  {
    var counts := Ratio(running, total) + " up, " + Ratio(ready, total) + " rdy";
    match phase
    case PodRunning => Health(if running != total || ready != total then Critical else OK, counts)
    case PodPending => Health(Warning, counts + " (pending)")
    case PodSucceeded => Health(OK, counts + " (succeeded)")
    case PodFailed => Health(Critical, counts + " (failed)")
    case PodOtherPhase => Health(OK, counts)
  }

  /** The pod rule applied to a pod record's container statuses. */
  function PodStatus(p: PodRecord): Health {
    PodHealth(p.phase, CountReady(p.containers), CountRunning(p.containers), |p.containers|)
  }

  /** A running pod is Critical exactly when some container is not ready or not running. */
  lemma RunningPodCritical(cs: seq<ContainerStatus>)
    ensures PodHealth(PodRunning, CountReady(cs), CountRunning(cs), |cs|).state == Critical
            <==> exists i :: 0 <= i < |cs| && (!cs[i].ready || !cs[i].running)
  {
  }

  /** Claim rule (kubetree.go:249-257). */
  function ClaimHealth(phase: ClaimPhase): (h: Health)
    ensures phase == ClaimPending <==> h == Health(Warning, "pending")
    ensures phase == ClaimLost <==> h == Health(Critical, "lost")
    ensures phase == ClaimBound || phase == ClaimOtherPhase <==> h == Health(OK, "")
  {
    match phase
    case ClaimPending => Health(Warning, "pending")
    case ClaimLost => Health(Critical, "lost")
    case _ => Health(OK, "")
  }

  /** Volume rule (kubetree.go:214-224). */
  function VolumeHealth(phase: VolumePhase): (h: Health)
    ensures h.state == Warning <==> phase == VolumePending || phase == VolumeReleased
    ensures h.state == Critical <==> phase == VolumeFailed
    ensures h.state == OK <==> h.desc == ""
    ensures phase == VolumePending ==> h.desc == "pending"
    ensures phase == VolumeReleased ==> h.desc == "released"
    ensures phase == VolumeFailed ==> h.desc == "failed"
    ensures phase != VolumePending && phase != VolumeReleased && phase != VolumeFailed ==> h == Health(OK, "")
  {
    match phase
    case VolumePending => Health(Warning, "pending")
    case VolumeReleased => Health(Warning, "released")
    case VolumeFailed => Health(Critical, "failed")
    case _ => Health(OK, "")
  }

  /** Entry i supplies address a (its hostname, or its IP when it has no hostname) and
      every later entry is empty. */
  predicate IsLastAddressAt(ing: seq<Ingress>, i: nat, a: string)
    requires i < |ing|
  {
    && (a == ing[i].hostname || (a == ing[i].ip && ing[i].hostname == ""))
    && forall j :: i < j < |ing| ==> ing[j].ip == "" && ing[j].hostname == ""
  }

  /** The address the ingress loop leaves in the description: the last non-empty
      value, where within one entry the hostname overrides the IP. */
  function LastAddress(ing: seq<Ingress>): (r: Option<string>)
    ensures r.None? <==> forall i :: 0 <= i < |ing| ==> ing[i].ip == "" && ing[i].hostname == ""
    ensures r.Some? ==> r.value != ""
    decreases |ing|
  {
    if ing == [] then None
    else
      var last := ing[|ing| - 1];
      if |last.hostname| > 0 then Some(last.hostname)
      else if |last.ip| > 0 then Some(last.ip)
      else LastAddress(ing[..|ing| - 1])
  }

  /** The found address comes from the last entry that has one. */
  lemma {:induction false} LastAddressSource(ing: seq<Ingress>)
    requires LastAddress(ing).Some?
    ensures exists i :: 0 <= i < |ing| && IsLastAddressAt(ing, i, LastAddress(ing).value)
    decreases |ing|
  {
    var n := |ing| - 1;
    var last := ing[n];
    if |last.hostname| > 0 || |last.ip| > 0 {
      assert IsLastAddressAt(ing, n, LastAddress(ing).value);
    } else {
      var init := ing[..n];
      LastAddressSource(init);
      var i :| 0 <= i < |init| && IsLastAddressAt(init, i, LastAddress(init).value);
      assert IsLastAddressAt(ing, i, LastAddress(ing).value);
    }
  }

  /** The ingress loop of kubetree.go:176-186: the description it leaves ("" when it
      assigned none) and whether any address was found. */
  method IngressAddress(ing: seq<Ingress>) returns (desc: string, ok: bool)
    ensures ok <==> LastAddress(ing).Some?
    ensures ok ==> desc == LastAddress(ing).value
    ensures !ok ==> desc == ""
  {
    desc, ok := "", false;
    var i := 0;
    while i < |ing|
      invariant 0 <= i <= |ing|
      invariant ok <==> LastAddress(ing[..i]).Some?
      invariant ok ==> desc == LastAddress(ing[..i]).value
      invariant !ok ==> desc == ""
    {
      assert ing[..i + 1][..i] == ing[..i];
      if |ing[i].ip| > 0 {
        desc := ing[i].ip;
        ok := true;
      }
      if |ing[i].hostname| > 0 {
        desc := ing[i].hostname;
        ok := true;
      }
      i := i + 1;
    }
    assert ing[..i] == ing;
  }

  /** Service rule (kubetree.go:174-191). */
  function ServiceHealth(serviceType: ServiceType, ing: seq<Ingress>): (h: Health)
    ensures serviceType != LoadBalancer ==> h == Health(OK, "")
    ensures serviceType == LoadBalancer && LastAddress(ing).None? ==> h == Health(Warning, "pending")
    ensures serviceType == LoadBalancer && LastAddress(ing).Some? ==>
      h.state == OK && h.desc == LastAddress(ing).value
  {
    if serviceType != LoadBalancer then Health(OK, "")
    else match LastAddress(ing)
      case None => Health(Warning, "pending")
      case Some(a) => Health(OK, a)
  }

  /** A fully rolled-out deployment of three replicas. */
  lemma HealthyDeployment()
    ensures DeploymentHealth(3, 3, 3) == Health(OK, "3/3 av, 3/3 up to date")
  {
    assert DecimalString(3) == "3";
    assert Ratio(3, 3) == "3/3";
  }

  /** A deployment of three replicas with none available. */
  lemma DownDeployment()
    ensures DeploymentHealth(0, 0, 3) == Health(Critical, "0/3 av, 0/3 up to date")
  {
    assert DecimalString(3) == "3" && DecimalString(0) == "0";
    assert Ratio(0, 3) == "0/3";
  }

  /** A load balancer with no ingress entries is pending. */
  lemma PendingLoadBalancer()
    ensures ServiceHealth(LoadBalancer, []) == Health(Warning, "pending")
  {
  }
}
