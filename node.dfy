/**
 * The node layer of the frame graph: a node description, the selection of a queue family
 * for it, the builder that accumulates the node's resources and dependencies, the builder's
 * projection into the scheduler's node record, and the resolution of concrete resource
 * bindings from the scheduler's synchronisation plan.
 */
module GraphNode {
  import opened Wrappers
  import opened Hal
  import opened Chain

  /** A buffer owned by the graph's resource pool (opaque). */
  type Buffer(==)

  /** An image owned by the graph's resource pool (opaque). */
  type Image(==)

  /** A built, type-erased node (opaque). */
  type AnyNode

  /** The error a description's build reports (opaque). */
  type BuildError

  /** Graph-wide identifier of a buffer. */
  datatype BufferId = BufferId(index: nat)

  /** Graph-wide identifier of an image. */
  datatype ImageId = ImageId(index: nat)

  /** Identifier of a node in the graph. */
  datatype NodeId = NodeId(index: nat)

  /** A buffer bound to a node, with the state the node sees it in. */
  datatype NodeBuffer = NodeBuffer(buffer: Buffer, state: BufferState)

  /** An image bound to a node, with its state and the value to clear it to, if any. */
  datatype NodeImage = NodeImage(image: Image, state: ImageState, clear: Option<ClearValue>)

  /**
   * A node description: which family capabilities its node type is supported by, the buffer
   * and image states it declares, in order, and the typed build it forwards to.
   */
  datatype NodeDesc = NodeDesc(
    supports: Capability -> bool,
    buffers: seq<BufferState>,
    images: seq<ImageState>,
    build: (QueueFamilyId, seq<NodeBuffer>, seq<NodeImage>) -> Result<AnyNode, BuildError>)
  {
    /** The id of the first family in list order whose capability supports this node. */
    function SelectFamily(families: seq<Family>): (r: Option<QueueFamilyId>)
      ensures r.None? <==> forall j :: 0 <= j < |families| ==> !supports(families[j].capability)
      ensures r.Some? ==>
        var k := FirstSupporting(supports, families).value;
        k < |families| && r.value == families[k].index && supports(families[k].capability) &&
        forall j :: 0 <= j < k ==> !supports(families[j].capability)
    {
      match FirstSupporting(supports, families)
      case None => None
      case Some(k) => Some(families[k].index)
    }
  }

  /** The position of the first family whose capability `supports` accepts (iterator `find`). */
  function FirstSupporting(supports: Capability -> bool, families: seq<Family>): (k: Option<nat>)
    ensures k.None? <==> forall j :: 0 <= j < |families| ==> !supports(families[j].capability)
    ensures k.Some? ==> k.value < |families| && supports(families[k.value].capability)
    ensures k.Some? ==> forall j :: 0 <= j < k.value ==> !supports(families[j].capability)
  {
    if |families| == 0 then None
    else if supports(families[0].capability) then Some(0)
    else
      match FirstSupporting(supports, families[1..])
      case None => None
      case Some(k) => Some(k + 1)
  }

  function Min(a: nat, b: nat): nat { if a <= b then a else b }

  /** Pairs up two sequences position by position, stopping at the end of the shorter one. */
  function Zip<A, B>(xs: seq<A>, ys: seq<B>): (r: seq<(A, B)>)
    ensures |r| == Min(|xs|, |ys|)
    ensures forall i :: 0 <= i < |r| ==> r[i].0 == xs[i] && r[i].1 == ys[i]
  {
    if |xs| == 0 || |ys| == 0 then [] else [(xs[0], ys[0])] + Zip(xs[1..], ys[1..])
  }

  /** The scheduler key of a buffer: its raw id. */
  function BufferKey(id: BufferId): (r: Id)
    ensures r.index == id.index
  {
    Id(id.index)
  }

  /**
   * The scheduler key of an image: its raw id offset by the graph's buffer count, so that it
   * is never below that count and the image id can be read back from it.
   */
  function ImageKey(id: ImageId, bufferCount: nat): (r: Id)
    ensures bufferCount <= r.index && r.index - bufferCount == id.index
  {
    Id(id.index + bufferCount)
  }

  function BufferKeys(ids: seq<BufferId>): seq<Id> { seq(|ids|, i requires 0 <= i < |ids| => BufferKey(ids[i])) }

  function ImageKeys(ids: seq<ImageId>, bufferCount: nat): seq<Id> { seq(|ids|, i requires 0 <= i < |ids| => ImageKey(ids[i], bufferCount)) }

  /** The link of a resource's chain a submission occupies is there. */
  predicate LinkInRange<S>(chains: map<Id, ResourceChain<S>>, key: Id, submission: Submission)
  {
    key in chains && submission.resourceLinkIndex(key) < |chains[key].links|
  }

  /** The state a submission's link in a resource's chain gives that resource. */
  function LinkState<S>(chains: map<Id, ResourceChain<S>>, key: Id, submission: Submission): (r: S)
    requires LinkInRange(chains, key, submission)
    ensures var link := chains[key].links[submission.resourceLinkIndex(key)];
      r == link.submissionState(submission.id)
  {
    chains[key].links[submission.resourceLinkIndex(key)].submissionState(submission.id)
  }

  /** Everything resolving a buffer indexes is in range. */
  predicate BufferResolvable(id: BufferId, buffers: seq<Buffer>, chains: Chains, submission: Submission)
  {
    id.index < |buffers| && LinkInRange(chains.buffers, BufferKey(id), submission)
  }

  /** Everything resolving an image indexes is in range. */
  predicate ImageResolvable(id: ImageId, images: seq<(Image, Option<ClearValue>)>, bufferCount: nat, chains: Chains, submission: Submission)
  {
    id.index < |images| && LinkInRange(chains.images, ImageKey(id, bufferCount), submission)
  }

  /** The binding a node receives for one declared buffer. */
  function BufferBinding(id: BufferId, buffers: seq<Buffer>, chains: Chains, submission: Submission): (r: NodeBuffer)
    requires BufferResolvable(id, buffers, chains, submission)
    ensures r.buffer == buffers[id.index]
    ensures r.state == LinkState(chains.buffers, Id(id.index), submission)
  {
    NodeBuffer(buffers[id.index], LinkState(chains.buffers, BufferKey(id), submission))
  }

  /**
   * The binding a node receives for one declared image. The image's configured clear value
   * is attached only when the node is the first link of the image's chain.
   */
  function ImageBinding(id: ImageId, images: seq<(Image, Option<ClearValue>)>, bufferCount: nat, chains: Chains, submission: Submission): (r: NodeImage)
    requires ImageResolvable(id, images, bufferCount, chains, submission)
    ensures r.image == images[id.index].0
    ensures r.state == LinkState(chains.images, Id(id.index + bufferCount), submission)
    ensures r.clear.Some? <==> submission.resourceLinkIndex(Id(id.index + bufferCount)) == 0 && images[id.index].1.Some?
    ensures submission.resourceLinkIndex(Id(id.index + bufferCount)) == 0 ==> r.clear == images[id.index].1
  {
    var key := ImageKey(id, bufferCount);
    NodeImage(
      images[id.index].0,
      LinkState(chains.images, key, submission),
      if submission.resourceLinkIndex(key) == 0 then images[id.index].1 else None)
  }

  /** The buffer bindings of a node, one per declared buffer id, in declaration order. */
  function BufferBindings(ids: seq<BufferId>, buffers: seq<Buffer>, chains: Chains, submission: Submission): (r: seq<NodeBuffer>)
    requires forall i :: 0 <= i < |ids| ==> ids[i].index < |buffers| && LinkInRange(chains.buffers, BufferKey(ids[i]), submission)
    ensures |r| == |ids|
    ensures forall i :: 0 <= i < |ids| ==>
      r[i].buffer == buffers[ids[i].index] &&
      r[i].state == LinkState(chains.buffers, BufferKey(ids[i]), submission)
  {
    seq(|ids|, i requires 0 <= i < |ids| => BufferBinding(ids[i], buffers, chains, submission))
  }

  /** The image bindings of a node, one per declared image id, in declaration order. */
  function ImageBindings(ids: seq<ImageId>, images: seq<(Image, Option<ClearValue>)>, bufferCount: nat, chains: Chains, submission: Submission): (r: seq<NodeImage>)
    requires forall i :: 0 <= i < |ids| ==> ids[i].index < |images| && LinkInRange(chains.images, ImageKey(ids[i], bufferCount), submission)
    ensures |r| == |ids|
    ensures forall i :: 0 <= i < |ids| ==>
      var key := ImageKey(ids[i], bufferCount);
      r[i].image == images[ids[i].index].0 &&
      r[i].state == LinkState(chains.images, key, submission) &&
      (r[i].clear.Some? <==> submission.resourceLinkIndex(key) == 0 && images[ids[i].index].1.Some?) &&
      (submission.resourceLinkIndex(key) == 0 ==> r[i].clear == images[ids[i].index].1)
  {
    seq(|ids|, i requires 0 <= i < |ids| => ImageBinding(ids[i], images, bufferCount, chains, submission))
  }

  /**
   * Accumulates, for one node, its description, the buffer and image ids it uses (in the
   * order its description declares their states) and the nodes it depends on.
   */
  class NodeBuilder {
    const desc: NodeDesc
    var buffers: seq<BufferId>
    var images: seq<ImageId>
    var dependencies: seq<nat>

    /** A builder for `desc` with nothing declared yet. */
    constructor (desc: NodeDesc)
      ensures this.desc == desc
      ensures buffers == [] && images == [] && dependencies == []
    {
      this.desc := desc;
      buffers, images, dependencies := [], [], [];
    }

    /** Declares the next buffer the node uses. */
    method AddBuffer(buffer: BufferId) returns (self: NodeBuilder)
      modifies this
      ensures self == this
      ensures buffers == old(buffers) + [buffer]
      ensures images == old(images) && dependencies == old(dependencies)
    {
      buffers := buffers + [buffer];
      self := this;
    }

    /** Declares the next image the node uses. */
    method AddImage(image: ImageId) returns (self: NodeBuilder)
      modifies this
      ensures self == this
      ensures images == old(images) + [image]
      ensures buffers == old(buffers) && dependencies == old(dependencies)
    {
      images := images + [image];
      self := this;
    }

    /** Declares a node this one must be placed after; the raw node index is stored. */
    method AddDependency(dependency: NodeId) returns (self: NodeBuilder)
      modifies this
      ensures self == this
      ensures dependencies == old(dependencies) + [dependency.index]
      ensures buffers == old(buffers) && images == old(images)
    {
      dependencies := dependencies + [dependency.index];
      self := this;
    }

    /** The by-value form of AddBuffer: the same builder, in the same new state. */
    method WithBuffer(buffer: BufferId) returns (self: NodeBuilder)
      modifies this
      ensures self == this
      ensures buffers == old(buffers) + [buffer]
      ensures images == old(images) && dependencies == old(dependencies)
    {
      var _ := AddBuffer(buffer);
      self := this;
    }

    /** The by-value form of AddImage: the same builder, in the same new state. */
    method WithImage(image: ImageId) returns (self: NodeBuilder)
      modifies this
      ensures self == this
      ensures images == old(images) + [image]
      ensures buffers == old(buffers) && dependencies == old(dependencies)
    {
      var _ := AddImage(image);
      self := this;
    }

    /** The by-value form of AddDependency: the same builder, in the same new state. */
    method WithDependency(dependency: NodeId) returns (self: NodeBuilder)
      modifies this
      ensures self == this
      ensures dependencies == old(dependencies) + [dependency.index]
      ensures buffers == old(buffers) && images == old(images)
    {
      var _ := AddDependency(dependency);
      self := this;
    }

    /**
     * The record the scheduler consumes for this node. A node no family supports cannot be
     * projected: `chain` unwraps the family selection.
     */
    function Chain(id: nat, families: seq<Family>, bufferCount: nat): (r: ChainNode)
      reads this
      requires desc.SelectFamily(families).Some?
      ensures r.id == id && r.family == desc.SelectFamily(families).value
      ensures r.dependencies == dependencies
      ensures |r.buffers| == Min(|buffers|, |desc.buffers|)
      ensures forall i :: 0 <= i < |r.buffers| ==> r.buffers[i] == (Id(buffers[i].index), desc.buffers[i])
      ensures |r.images| == Min(|images|, |desc.images|)
      ensures forall i :: 0 <= i < |r.images| ==> r.images[i] == (Id(images[i].index + bufferCount), desc.images[i])
    {
      ChainNode(
        id,
        desc.SelectFamily(families).value,
        dependencies,
        Zip(BufferKeys(buffers), desc.buffers),
        Zip(ImageKeys(images, bufferCount), desc.images))
    }

    /** Every buffer and image this node declares can be resolved against the plan. */
    predicate Resolvable(graphBuffers: seq<Buffer>, graphImages: seq<(Image, Option<ClearValue>)>, chains: Chains, submission: Submission)
      reads this
    {
      (forall i :: 0 <= i < |buffers| ==> BufferResolvable(buffers[i], graphBuffers, chains, submission)) &&
      (forall i :: 0 <= i < |images| ==> ImageResolvable(images[i], graphImages, |graphBuffers|, chains, submission))
    }

    /**
     * Builds the node: hands the description's build the family and one binding per declared
     * buffer and image, in declaration order. Image keys are offset by the graph's buffer count.
     */
    function Build(family: QueueFamilyId, graphBuffers: seq<Buffer>, graphImages: seq<(Image, Option<ClearValue>)>, chains: Chains, submission: Submission): (r: Result<AnyNode, BuildError>)
      reads this
      requires Resolvable(graphBuffers, graphImages, chains, submission)
      ensures r == desc.build(
        family,
        BufferBindings(buffers, graphBuffers, chains, submission),
        ImageBindings(images, graphImages, |graphBuffers|, chains, submission))
    {
      desc.build(
        family,
        BufferBindings(buffers, graphBuffers, chains, submission),
        ImageBindings(images, graphImages, |graphBuffers|, chains, submission))
    }
  }
}
