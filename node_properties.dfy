/**
 * Properties of the node layer that relate several of its operations: family selection over
 * concatenated family lists, disjointness of buffer and image keys, agreement between the
 * scheduler record and the resolved bindings, and the clear-on-first-use rule.
 */
module GraphNodeProperties {
  import opened Wrappers
  import opened Hal
  import opened Chain
  import opened GraphNode

  /** A family that supports the node and is preceded by none that does is the one selected. */
  lemma FamilyIsFirstSupporting(desc: NodeDesc, families: seq<Family>, k: nat)
    requires k < |families| && desc.supports(families[k].capability)
    requires forall j :: 0 <= j < k ==> !desc.supports(families[j].capability)
    ensures desc.SelectFamily(families) == Some(families[k].index)
  {
  }

  /**
   * Selection over two lists in a row picks from the first list when it can, and from the
   * second only when no family of the first supports the node.
   */
  lemma FamilyOfConcat(desc: NodeDesc, front: seq<Family>, back: seq<Family>)
    ensures desc.SelectFamily(front + back) == if desc.SelectFamily(front).Some? then desc.SelectFamily(front) else desc.SelectFamily(back)
  {
    var all := front + back;
    match FirstSupporting(desc.supports, front)
    case Some(k) =>
      forall j | 0 <= j < k ensures !desc.supports(all[j].capability) {
        assert all[j] == front[j];
      }
      assert all[k] == front[k];
      FamilyIsFirstSupporting(desc, all, k);
    case None =>
      match FirstSupporting(desc.supports, back)
      case None =>
        forall j | 0 <= j < |all| ensures !desc.supports(all[j].capability) {
          if j < |front| { assert all[j] == front[j]; } else { assert all[j] == back[j - |front|]; }
        }
      case Some(k) =>
        forall j | 0 <= j < |front| + k ensures !desc.supports(all[j].capability) {
          if j < |front| { assert all[j] == front[j]; } else { assert all[j] == back[j - |front|]; }
        }
        assert all[|front| + k] == back[k];
        FamilyIsFirstSupporting(desc, all, |front| + k);
  }

  /**
   * When every buffer id is below the graph's buffer count, every buffer key of the scheduler
   * record is below it and every image key at or above it, so no buffer key is an image key.
   */
  lemma ChainKeysDisjoint(b: NodeBuilder, id: nat, families: seq<Family>, bufferCount: nat)
    requires b.desc.SelectFamily(families).Some?
    requires forall i :: 0 <= i < |b.buffers| ==> b.buffers[i].index < bufferCount
    ensures var c := b.Chain(id, families, bufferCount);
      (forall i :: 0 <= i < |c.buffers| ==> c.buffers[i].0.index < bufferCount) &&
      (forall j :: 0 <= j < |c.images| ==> bufferCount <= c.images[j].0.index) &&
      (forall i, j :: 0 <= i < |c.buffers| && 0 <= j < |c.images| ==> c.buffers[i].0 != c.images[j].0)
  {
  }

  /** Distinct ids give distinct keys: the scheduler record neither merges nor duplicates resources. */
  lemma ChainKeysInjective(b: NodeBuilder, id: nat, families: seq<Family>, bufferCount: nat)
    requires b.desc.SelectFamily(families).Some?
    requires forall i, j :: 0 <= i < j < |b.buffers| ==> b.buffers[i] != b.buffers[j]
    requires forall i, j :: 0 <= i < j < |b.images| ==> b.images[i] != b.images[j]
    ensures var c := b.Chain(id, families, bufferCount);
      (forall i, j :: 0 <= i < j < |c.buffers| ==> c.buffers[i].0 != c.buffers[j].0) &&
      (forall i, j :: 0 <= i < j < |c.images| ==> c.images[i].0 != c.images[j].0)
  {
  }

  /** Declaring one more buffer adds exactly one binding, at the end, and changes no other. */
  lemma BufferBindingsAppend(ids: seq<BufferId>, id: BufferId, buffers: seq<Buffer>, chains: Chains, submission: Submission)
    requires forall i :: 0 <= i < |ids| ==> ids[i].index < |buffers| && LinkInRange(chains.buffers, BufferKey(ids[i]), submission)
    requires BufferResolvable(id, buffers, chains, submission)
    ensures var ids' := ids + [id];
      (forall i :: 0 <= i < |ids'| ==> ids'[i].index < |buffers| && LinkInRange(chains.buffers, BufferKey(ids'[i]), submission)) &&
      BufferBindings(ids', buffers, chains, submission) ==
      BufferBindings(ids, buffers, chains, submission) + [BufferBinding(id, buffers, chains, submission)]
  {
  }

  /** Declaring one more image adds exactly one binding, at the end, and changes no other. */
  lemma ImageBindingsAppend(ids: seq<ImageId>, id: ImageId, images: seq<(Image, Option<ClearValue>)>, bufferCount: nat, chains: Chains, submission: Submission)
    requires forall i :: 0 <= i < |ids| ==> ids[i].index < |images| && LinkInRange(chains.images, ImageKey(ids[i], bufferCount), submission)
    requires ImageResolvable(id, images, bufferCount, chains, submission)
    ensures var ids' := ids + [id];
      (forall i :: 0 <= i < |ids'| ==> ids'[i].index < |images| && LinkInRange(chains.images, ImageKey(ids'[i], bufferCount), submission)) &&
      ImageBindings(ids', images, bufferCount, chains, submission) ==
      ImageBindings(ids, images, bufferCount, chains, submission) + [ImageBinding(id, images, bufferCount, chains, submission)]
  {
  }

  /**
   * When the builder declares exactly as many ids as its description declares states, the
   * scheduler record and the bindings line up: binding i is resolved under the key the record
   * holds at position i, and carries the state the scheduler computed for that key.
   */
  lemma ChainAgreesWithBindings(b: NodeBuilder, id: nat, families: seq<Family>, graphBuffers: seq<Buffer>, graphImages: seq<(Image, Option<ClearValue>)>, chains: Chains, submission: Submission)
    requires b.desc.SelectFamily(families).Some?
    requires |b.buffers| == |b.desc.buffers| && |b.images| == |b.desc.images|
    requires b.Resolvable(graphBuffers, graphImages, chains, submission)
    ensures var c := b.Chain(id, families, |graphBuffers|);
      var bb := BufferBindings(b.buffers, graphBuffers, chains, submission);
      var ib := ImageBindings(b.images, graphImages, |graphBuffers|, chains, submission);
      |c.buffers| == |bb| == |b.buffers| && |c.images| == |ib| == |b.images| &&
      (forall i :: 0 <= i < |bb| ==>
        LinkInRange(chains.buffers, c.buffers[i].0, submission) &&
        bb[i].state == LinkState(chains.buffers, c.buffers[i].0, submission)) &&
      (forall i :: 0 <= i < |ib| ==>
        LinkInRange(chains.images, c.images[i].0, submission) &&
        ib[i].state == LinkState(chains.images, c.images[i].0, submission) &&
        (ib[i].clear.Some? ==> submission.resourceLinkIndex(c.images[i].0) == 0))
  {
  }

  /**
   * When the builder declares more buffers than its description declares states, the surplus
   * ids are dropped from the scheduler record but are still bound when the node is built.
   */
  lemma ChainDropsUndeclaredBuffers(b: NodeBuilder, id: nat, families: seq<Family>, graphBuffers: seq<Buffer>, graphImages: seq<(Image, Option<ClearValue>)>, chains: Chains, submission: Submission)
    requires b.desc.SelectFamily(families).Some?
    requires |b.desc.buffers| < |b.buffers|
    requires b.Resolvable(graphBuffers, graphImages, chains, submission)
    ensures |b.Chain(id, families, |graphBuffers|).buffers| == |b.desc.buffers| < |BufferBindings(b.buffers, graphBuffers, chains, submission)|
  {
  }

  /**
   * When the builder declares more images than its description declares states, the surplus
   * ids are dropped from the scheduler record but are still bound when the node is built.
   */
  lemma ChainDropsUndeclaredImages(b: NodeBuilder, id: nat, families: seq<Family>, graphBuffers: seq<Buffer>, graphImages: seq<(Image, Option<ClearValue>)>, chains: Chains, submission: Submission)
    requires b.desc.SelectFamily(families).Some?
    requires |b.desc.images| < |b.images|
    requires b.Resolvable(graphBuffers, graphImages, chains, submission)
    ensures |b.Chain(id, families, |graphBuffers|).images| == |b.desc.images| < |ImageBindings(b.images, graphImages, |graphBuffers|, chains, submission)|
  {
  }

  /**
   * A buffer id declared twice appears twice in the scheduler record, once per position, each
   * time paired with the state declared at that position.
   */
  lemma ChainKeepsDuplicateBuffers(b: NodeBuilder, id: nat, families: seq<Family>, bufferCount: nat, i: nat, j: nat)
    requires b.desc.SelectFamily(families).Some?
    requires i < j < |b.buffers| && j < |b.desc.buffers| && b.buffers[i] == b.buffers[j]
    ensures var c := b.Chain(id, families, bufferCount);
      c.buffers[i] == (BufferKey(b.buffers[i]), b.desc.buffers[i]) &&
      c.buffers[j] == (BufferKey(b.buffers[i]), b.desc.buffers[j])
  {
  }

  /**
   * Of submissions that occupy different links of an image's chain, at most one is handed the
   * image's clear value: the one at link 0.
   */
  lemma AtMostOneClear(id: ImageId, images: seq<(Image, Option<ClearValue>)>, bufferCount: nat, chains: Chains, subs: seq<Submission>)
    requires forall k :: 0 <= k < |subs| ==> ImageResolvable(id, images, bufferCount, chains, subs[k])
    requires forall k, l :: 0 <= k < l < |subs| ==>
      subs[k].resourceLinkIndex(ImageKey(id, bufferCount)) != subs[l].resourceLinkIndex(ImageKey(id, bufferCount))
    ensures forall k, l :: 0 <= k < l < |subs| ==>
      ImageBinding(id, images, bufferCount, chains, subs[k]).clear.None? ||
      ImageBinding(id, images, bufferCount, chains, subs[l]).clear.None?
  {
  }

  /**
   * The submission at link 0 of an image's chain receives the configured clear value and the
   * one at link 1 receives none, whatever order their nodes were declared in.
   */
  lemma ClearGoesToFirstAccessor(id: ImageId, images: seq<(Image, Option<ClearValue>)>, bufferCount: nat, chains: Chains, first: Submission, second: Submission)
    requires ImageResolvable(id, images, bufferCount, chains, first)
    requires ImageResolvable(id, images, bufferCount, chains, second)
    requires first.resourceLinkIndex(ImageKey(id, bufferCount)) == 0
    requires second.resourceLinkIndex(ImageKey(id, bufferCount)) == 1
    ensures ImageBindings([id], images, bufferCount, chains, first)[0].clear == images[id.index].1
    ensures ImageBindings([id], images, bufferCount, chains, second)[0].clear == None
  {
  }

  /** One declaration made on a builder: a buffer, an image or a dependency. */
  datatype Decl = DeclBuffer(buffer: BufferId) | DeclImage(image: ImageId) | DeclDependency(dependency: NodeId)

  /** The buffer ids among `decls`, in order. */
  function BuffersOf(decls: seq<Decl>): seq<BufferId>
  {
    if |decls| == 0 then []
    else BuffersOf(decls[..|decls| - 1]) + (match decls[|decls| - 1] case DeclBuffer(b) => [b] case _ => [])
  }

  /** The image ids among `decls`, in order. */
  function ImagesOf(decls: seq<Decl>): seq<ImageId>
  {
    if |decls| == 0 then []
    else ImagesOf(decls[..|decls| - 1]) + (match decls[|decls| - 1] case DeclImage(i) => [i] case _ => [])
  }

  /** The raw node indices of the dependencies among `decls`, in order. */
  function DependenciesOf(decls: seq<Decl>): seq<nat>
  {
    if |decls| == 0 then []
    else DependenciesOf(decls[..|decls| - 1]) + (match decls[|decls| - 1] case DeclDependency(d) => [d.index] case _ => [])
  }

  /**
   * A builder made by applying the by-value methods for `decls`, one after another, holds each
   * kind of id in call order, however buffers, images and dependencies are interleaved.
   */
  method DeclareInOrder(desc: NodeDesc, decls: seq<Decl>) returns (builder: NodeBuilder)
    ensures fresh(builder) && builder.desc == desc
    ensures builder.buffers == BuffersOf(decls)
    ensures builder.images == ImagesOf(decls)
    ensures builder.dependencies == DependenciesOf(decls)
  {
    builder := new NodeBuilder(desc);
    var n := 0;
    while n < |decls|
      invariant 0 <= n <= |decls|
      invariant fresh(builder) && builder.desc == desc
      invariant builder.buffers == BuffersOf(decls[..n])
      invariant builder.images == ImagesOf(decls[..n])
      invariant builder.dependencies == DependenciesOf(decls[..n])
    {
      assert decls[..n + 1][..n] == decls[..n];
      match decls[n] {
        case DeclBuffer(b) => builder := builder.WithBuffer(b);
        case DeclImage(i) => builder := builder.WithImage(i);
        case DeclDependency(d) => builder := builder.WithDependency(d);
      }
      n := n + 1;
    }
    assert decls[..n] == decls;
  }
}
