/** The outcome of a provider's kubeconfig validation. Each provider checks a
    fixed sequence of conditions and stops at the first that fails, logging
    why; a `Reject` carries that reason, and the boolean the providers expose
    is `Accept?`. */
module Verdicts {

  datatype Rejection =
    | UnsupportedAPIVersion(apiVersion: string)
    | NotClusterSecret
    | ClusterNameLabelMismatch
    | ControlPlaneNotFound
    | NotControlledByControlPlane
    | OwnerReferenceCount(count: nat)
    | NotOwnedByManagedControlPlane
    | NamespaceMismatch
    | NameMismatch

  datatype Verdict = Accept | Reject(reason: Rejection)
}
