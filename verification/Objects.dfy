/** The stored objects of one namespace (api/v1alpha1), as far as the claim
    protocol reads and writes them. */
module Objects {

  datatype Option<+T> = None | Some(value: T)

  type Labels = map<string, string>

  /** status.phase of a Host; Unset is a status that was never written. */
  datatype Phase = Unset | Pending | Available | Claimed | Provisioned | Unreachable

  /** The UID the API server gave a HostMachine.  The server never hands out a UID
      twice; the name and the number of moves so far serve as such a token. */
  datatype Uid = Uid(machine: string, era: nat)

  /** A Host.  claimedBy is the claimed-by label, labels are all the others. */
  datatype Host = Host(
    version: nat,
    labels: Labels,
    claimedBy: Option<string>,
    unhealthy: bool,
    deleting: bool,
    claimRef: Option<Uid>,
    phase: Phase)

  /** One requirement of a label selector. */
  datatype Requirement =
    | In(key: string, values: set<string>)
    | NotIn(key: string, values: set<string>)
    | Exists(key: string)
    | DoesNotExist(key: string)

  predicate Meets(labels: Labels, r: Requirement) {
    match r
    case In(key, values) => key in labels && labels[key] in values
    case NotIn(key, values) => key !in labels || labels[key] !in values
    case Exists(key) => key in labels
    case DoesNotExist(key) => key !in labels
  }

  /** spec.hostSelector; no selector is the empty one, which matches everything. */
  type Selector = seq<Requirement>

  predicate Matches(labels: Labels, selector: Selector) {
    forall i :: 0 <= i < |selector| ==> Meets(labels, selector[i])
  }

  /** What the fresh-claim pass asks of a host before it tries to take it. */
  predicate Eligible(host: Host, selector: Selector) {
    && host.claimRef == None && !host.unhealthy && !host.deleting
    && host.phase == Available
    && Matches(host.labels, selector)
  }

  datatype Machine = Machine(
    selector: Selector,
    deleting: bool,
    finalizer: bool,
    hostRef: Option<string>)
}
