/** The fetched resource records, reduced to the fields the tree builder reads. The
    API client's typed objects become one record type per kind; the element keeps only
    the pod labels of its record, the one part read after creation
    (kubetree.go:565-566). */
module Records {
  import opened Base

  /** An owner reference: the owning object's kind string and name. */
  datatype OwnerRef = OwnerRef(kind: string, name: string)

  /** Object metadata: name, namespace ("" when cluster-scoped), owner references
      in declaration order, and labels. */
  datatype Meta = Meta(name: string, namespace: string, owners: seq<OwnerRef>, labels: map<string, string>)

  datatype NamespaceRecord = NamespaceRecord(name: string)

  datatype DeploymentRecord = DeploymentRecord(meta: Meta, available: int, updated: int, replicas: int)

  datatype ReplicaSetRecord = ReplicaSetRecord(meta: Meta, available: int, ready: int, replicas: int)

  datatype StatefulSetRecord = StatefulSetRecord(meta: Meta, current: int, ready: int, replicas: int)

  datatype DaemonSetRecord =
    DaemonSetRecord(meta: Meta, current: int, ready: int, misscheduled: int, desired: int)

  /** Claim phases; `ClaimOtherPhase` stands for any other phase string. */
  datatype ClaimPhase = ClaimPending | ClaimBound | ClaimLost | ClaimOtherPhase

  datatype ClaimRecord = ClaimRecord(meta: Meta, phase: ClaimPhase)

  /** Volume phases; `VolumeOtherPhase` stands for any other phase string. */
  datatype VolumePhase =
    VolumePending | VolumeAvailable | VolumeBound | VolumeReleased | VolumeFailed | VolumeOtherPhase

  /** A volume's claim reference. */
  datatype ObjectRef = ObjectRef(kind: string, namespace: string, name: string)

  /** A volume is cluster-scoped; its claim reference may be absent (a nil pointer). */
  datatype VolumeRecord = VolumeRecord(name: string, phase: VolumePhase, claimRef: Option<ObjectRef>)

  datatype ServiceType = LoadBalancer | OtherServiceType

  /** One load-balancer ingress entry; an empty string is an absent field. */
  datatype Ingress = Ingress(ip: string, hostname: string)

  datatype ServiceRecord =
    ServiceRecord(meta: Meta, serviceType: ServiceType, ingress: seq<Ingress>, selector: map<string, string>)

  /** Pod phases; `PodOtherPhase` stands for Unknown and any other phase string. */
  datatype PodPhase = PodPending | PodRunning | PodSucceeded | PodFailed | PodOtherPhase

  /** A container status: its ready flag and whether its state is Running. */
  datatype ContainerStatus = ContainerStatus(ready: bool, running: bool)

  /** A pod volume: one backed by a persistent volume claim, or any other source. */
  datatype Volume = ClaimVolume(claimName: string) | OtherVolume

  datatype PodRecord =
    PodRecord(meta: Meta, phase: PodPhase, containers: seq<ContainerStatus>, volumes: seq<Volume>)
}
