/**
 * The interface of the external scheduler (the `chain` crate) as the node layer sees it:
 * resource keys, per-resource chains of links, one submission's view of the schedule, and
 * the node record the scheduler consumes. How the scheduler computes these is not modelled.
 */
module Chain {
  import opened Hal

  /** Access state of a buffer at one point of the schedule (opaque). */
  type BufferState(==)

  /** Access state (and layout) of an image at one point of the schedule (opaque). */
  type ImageState(==)

  /** Identity of one submission in the schedule (opaque). */
  type SubmissionId

  /** A resource key in the one id space the scheduler shares between buffers and images. */
  datatype Id = Id(index: nat)

  /** One link of a resource's chain: the state the resource has for a given submission. */
  datatype Link<S> = Link(submissionState: SubmissionId -> S)

  /** The ordered links of one resource (`chain::Chain`). */
  datatype ResourceChain<S> = ResourceChain(links: seq<Link<S>>)

  /** The synchronisation plan: one chain per buffer key and one per image key. */
  datatype Chains = Chains(
    buffers: map<Id, ResourceChain<BufferState>>,
    images: map<Id, ResourceChain<ImageState>>)

  /** One node's submission: its id and, per resource key, its position in that resource's chain. */
  datatype Submission = Submission(id: SubmissionId, resourceLinkIndex: Id -> nat)

  /** The record the scheduler consumes for one node (`chain::Node`). */
  datatype ChainNode = ChainNode(
    id: nat,
    family: QueueFamilyId,
    dependencies: seq<nat>,
    buffers: seq<(Id, BufferState)>,
    images: seq<(Id, ImageState)>)
}
