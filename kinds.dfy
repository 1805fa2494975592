/** Resource kinds, health states and the order in which siblings are printed
    (kubetree.go:19-26, 103-113, 499-507). */
module Kinds {
  import opened Base

  /** The kinds an element can have: the synthetic root ("cluster") and the nine
      kinds the lookup index tracks. */
  datatype Kind =
    | Cluster
    | Namespace
    | Deployment
    | ReplicaSet
    | StatefulSet
    | DaemonSet
    | Pod
    | Service
    | PersistentVolume
    | PersistentVolumeClaim

  /** The kind string stored in an element. */
  function KindName(k: Kind): string {
    match k
    case Cluster => "cluster"
    case Namespace => "Namespace"
    case Deployment => "Deployment"
    case ReplicaSet => "ReplicaSet"
    case StatefulSet => "StatefulSet"
    case DaemonSet => "DaemonSet"
    case Pod => "Pod"
    case Service => "Service"
    case PersistentVolume => "PersistentVolume"
    case PersistentVolumeClaim => "PersistentVolumeClaim"
  }

  /** Reads a kind string (an owner reference's kind); None for a kind this core never creates. */
  function KindOf(s: string): (r: Option<Kind>)
    ensures r.Some? ==> KindName(r.value) == s
  {
    if s == "cluster" then Some(Cluster)
    else if s == "Namespace" then Some(Namespace)
    else if s == "Deployment" then Some(Deployment)
    else if s == "ReplicaSet" then Some(ReplicaSet)
    else if s == "StatefulSet" then Some(StatefulSet)
    else if s == "DaemonSet" then Some(DaemonSet)
    else if s == "Pod" then Some(Pod)
    else if s == "Service" then Some(Service)
    else if s == "PersistentVolume" then Some(PersistentVolume)
    else if s == "PersistentVolumeClaim" then Some(PersistentVolumeClaim)
    else None
  }

  lemma KindOfName(k: Kind)
    ensures KindOf(KindName(k)) == Some(k)
  {
  }

  /** The kinds that have a table in the lookup index (kubetree.go:103-113). */
  const TrackedKinds: set<Kind> :=
    {Namespace, Deployment, ReplicaSet, StatefulSet, DaemonSet, Pod, Service,
     PersistentVolume, PersistentVolumeClaim}

  /** The kinds controllerOf climbs through (kubetree.go:583). */
  predicate IsController(k: Kind) {
    k == ReplicaSet || k == StatefulSet || k == DaemonSet || k == Deployment
  }

  /** Element health. Go's zero value is StateOK, so an element whose state is never
      assigned is OK; `Unset` is Go's StateNone, used for the root and namespaces. */
  datatype State = OK | Warning | Critical | Unset

  /** `ElementSort.Less` on the kinds of two siblings. */
  predicate Less(x: Kind, y: Kind) {
    if x == Service then true
    else if y == Service then false
    else StrLess(KindName(x), KindName(y))
  }

  /** The order the sorted children are in: services first, then ascending kind name. */
  predicate KindLE(x: Kind, y: Kind) {
    x == Service || (y != Service && (x == y || StrLess(KindName(x), KindName(y))))
  }

  lemma {:induction false} KindNameInjective(x: Kind, y: Kind)
    requires KindName(x) == KindName(y)
    ensures x == y
  {
    KindOfName(x);
    KindOfName(y);
  }

  /** Less is not irreflexive: it answers true for two services both ways, so it is
      not a strict weak order. */
  lemma ServiceLessService()
    ensures Less(Service, Service)
  {
  }

  /** Away from services, Less is a strict order on kind names. */
  lemma {:induction false} LessStrictOffServices(x: Kind, y: Kind, z: Kind)
    requires x != Service && y != Service && z != Service
    ensures !Less(x, x)
    ensures Less(x, y) && Less(y, z) ==> Less(x, z)
    ensures x != y ==> (Less(x, y) <==> !Less(y, x))
  {
    StrLessIrreflexive(KindName(x));
    if Less(x, y) && Less(y, z) {
      StrLessTransitive(KindName(x), KindName(y), KindName(z));
    }
    if x != y {
      StrLessTotal(KindName(x), KindName(y));
      if KindName(x) == KindName(y) {
        KindNameInjective(x, y);
      }
      if StrLess(KindName(x), KindName(y)) && StrLess(KindName(y), KindName(x)) {
        StrLessTransitive(KindName(x), KindName(y), KindName(x));
        StrLessIrreflexive(KindName(x));
      }
    }
  }

  /** A swap done because Less held keeps the pair in KindLE order, and a pair that
      Less leaves alone is already in KindLE order. */
  lemma {:induction false} LessDecidesKindLE(x: Kind, y: Kind)
    ensures Less(x, y) ==> KindLE(x, y)
    ensures !Less(x, y) ==> KindLE(y, x)
  {
    if !Less(x, y) && x != Service && y != Service && x != y {
      StrLessTotal(KindName(x), KindName(y));
      if KindName(x) == KindName(y) {
        KindNameInjective(x, y);
      }
    }
  }

  lemma {:induction false} KindLETransitive(x: Kind, y: Kind, z: Kind)
    requires KindLE(x, y) && KindLE(y, z)
    ensures KindLE(x, z)
  {
    if x != Service && x != y && y != z {
      StrLessTransitive(KindName(x), KindName(y), KindName(z));
    }
  }
}
