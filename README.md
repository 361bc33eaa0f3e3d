# Frame-graph node layer: builder, scheduler projection and binding resolution

This project models the bookkeeping of the node layer of rendy's frame graph
(`graph/src/node/mod.rs`) and proves properties of it:

- a node description (`NodeDesc`) declares which queue-family capabilities its node type is
  supported by, the ordered buffer and image states it needs, and a typed build;
- `NodeDesc.SelectFamily` selects the first queue family in list order that supports the node;
- the `NodeBuilder` class accumulates, in call order, the buffer ids, image ids and dependency
  indices of one node (`AddBuffer`, `AddImage`, `AddDependency` and their by-value `With*`
  forms);
- `NodeBuilder.Chain` projects the builder into the record the scheduler consumes: the selected
  family, the dependencies, and buffer and image keys zipped with the declared states, image keys
  offset by the graph's buffer count so that the two kinds share one key space;
- `NodeBuilder.Build` resolves, for each declared resource in declaration order, its state from
  the link the submission occupies in that resource's chain, attaches an image's configured clear
  value only when the submission is the image's first link, and hands the bindings to the
  description's build.

Modules: `Wrappers` (Option, Result), `Hal` (queue family ids, capabilities, clear values and the
factory's family list, consumed as given), `Chain` (the scheduler's interface: resource keys,
links, chains, a submission, the scheduler's node record), `GraphNode` (the core) and
`GraphNodeProperties` (lemmas relating several operations).

Opaque inputs: buffer and image states, clear values, capabilities, submission ids, the graph's
buffers and images, the built node and the build error are abstract types. The capability check
`Supports::<C>::supports(..).is_some()` is the description's `supports` function; a link's
`submission_state` and a submission's `resource_link_index` are function-valued fields; the typed
build is the description's `build` function.

Two behaviours of the code worth noting:
- a node declared at link 0 of an image's chain receives the image's configured clear value, and
  that value may itself be absent, so "has a clear" holds exactly when the link index is 0 AND a
  clear value is configured (`ImageBindings`);
- `chain` and `build` do not check that the builder's id counts match the description's state
  counts: `zip` silently truncates in `chain` while `build` binds every declared id
  (`ChainDropsUndeclaredBuffers`).

## Model

| member | source | states |
|---|---|---|
| `GraphNode.FirstSupporting` | graph/src/node/mod.rs:271-275 | the position found is the first family whose capability supports the node; none is found exactly when no family supports it |
| `GraphNode.NodeDesc.SelectFamily` | graph/src/node/mod.rs:270-277 | returns the index of the first supporting family, and None if and only if no family supports the node |
| `GraphNodeProperties.FamilyIsFirstSupporting` | graph/src/node/mod.rs:270-277 | conversely, any supporting family preceded only by non-supporting ones is the one selected |
| `GraphNodeProperties.FamilyOfConcat` | graph/src/node/mod.rs:270-277 | selection over two lists in a row uses the first list when it can and the second only when no family of the first qualifies |
| `GraphNode.Zip` | graph/src/node/mod.rs:369-380 | the zipped list is as long as the shorter input and entry i pairs the two inputs' entries i |
| `GraphNode.NodeBuilder.constructor` | graph/src/node/mod.rs:132-139 | a new builder holds the description and no buffers, images or dependencies |
| `GraphNode.NodeBuilder.AddBuffer` | graph/src/node/mod.rs:324-327 | appends exactly the given buffer id at the end of the buffer list; images and dependencies unchanged; returns the same builder |
| `GraphNode.NodeBuilder.AddImage` | graph/src/node/mod.rs:331-334 | appends exactly the given image id at the end of the image list; buffers and dependencies unchanged |
| `GraphNode.NodeBuilder.AddDependency` | graph/src/node/mod.rs:338-341 | appends the dependency's raw node index at the end of the dependency list; buffers and images unchanged |
| `GraphNode.NodeBuilder.WithBuffer` | graph/src/node/mod.rs:345-348 | leaves the builder in the same state AddBuffer does and returns it |
| `GraphNode.NodeBuilder.WithImage` | graph/src/node/mod.rs:352-355 | leaves the builder in the same state AddImage does and returns it |
| `GraphNode.NodeBuilder.WithDependency` | graph/src/node/mod.rs:359-362 | leaves the builder in the same state AddDependency does and returns it |
| `GraphNodeProperties.DeclareInOrder` | graph/src/node/mod.rs:345-362 | for any sequence of declarations, applying the by-value methods in turn leaves the buffer, image and dependency lists equal to the in-order projections of that sequence onto buffers, images and dependency indices |
| `GraphNode.NodeBuilder.Chain` | graph/src/node/mod.rs:364-382 | requires that a family is selected (the source unwraps); keeps the id, the selected family and the dependencies; buffer entry i is (raw id i, declared buffer state i), image entry i is (id i + buffer count, declared image state i), each list as long as the shorter of ids and states |
| `GraphNodeProperties.ChainKeysDisjoint` | graph/src/node/mod.rs:369-380 | when every buffer id is below the buffer count, buffer keys are below it, image keys at or above it, and no buffer key equals an image key |
| `GraphNodeProperties.ChainKeysInjective` | graph/src/node/mod.rs:369-380 | distinct buffer ids give distinct buffer keys and distinct image ids distinct image keys |
| `GraphNodeProperties.ChainDropsUndeclaredBuffers` | graph/src/node/mod.rs:369-374 | when more buffer ids are declared than buffer states, the scheduler record holds fewer buffers than the build binds |
| `GraphNodeProperties.ChainDropsUndeclaredImages` | graph/src/node/mod.rs:375-380 | when more image ids are declared than image states, the scheduler record holds fewer images than the build binds |
| `GraphNodeProperties.ChainKeepsDuplicateBuffers` | graph/src/node/mod.rs:369-374 | a buffer id declared at two positions gives two record entries with the same key, each paired with the state declared at its position |
| `GraphNode.BufferKey` | graph/src/node/mod.rs:372 | a buffer's key is its raw id |
| `GraphNode.ImageKey` | graph/src/node/mod.rs:378 | an image's key is its raw id offset by the buffer count: never below that count, and the id is recovered by subtracting it |
| `GraphNode.LinkState` | graph/src/node/mod.rs:404 | the state is the one the link at the submission's link index in the resource's chain records for the submission's id |
| `GraphNode.BufferBinding` | graph/src/node/mod.rs:400-405 | the binding references the graph buffer at the id and carries the link state under the raw key |
| `GraphNode.ImageBinding` | graph/src/node/mod.rs:407-417 | the binding references the image at the id and carries the link state under the offset key; it has a clear value exactly when the link index is 0 and one is configured, and at link 0 the clear is the configured one |
| `GraphNode.BufferBindings` | graph/src/node/mod.rs:400-406 | one binding per declared buffer id, in order; binding i references the graph buffer at that id and carries the state of the submission's link in that buffer's chain |
| `GraphNode.ImageBindings` | graph/src/node/mod.rs:407-418 | one binding per declared image id, in order, keyed by id + buffer count; binding i references the image, carries its link's state, and has the configured clear value exactly when the link index is 0 (none otherwise) |
| `GraphNode.NodeBuilder.Build` | graph/src/node/mod.rs:386-420 | requires every index, key and link index in range (the source indexes and panics); hands the description's build the family and the buffer and image binding lists, unchanged in length and order |
| `GraphNodeProperties.BufferBindingsAppend` | graph/src/node/mod.rs:400-406 | one more declared buffer adds exactly one binding, at the end, and leaves the earlier ones as they were |
| `GraphNodeProperties.ImageBindingsAppend` | graph/src/node/mod.rs:407-418 | one more declared image adds exactly one binding, at the end, and leaves the earlier ones as they were |
| `GraphNodeProperties.ChainAgreesWithBindings` | graph/src/node/mod.rs:364-420 | with matching counts, the scheduler record and the bindings have the builder's lengths, and binding i is resolved under the key the record holds at position i; an image clear implies link index 0 |
| `GraphNodeProperties.AtMostOneClear` | graph/src/node/mod.rs:412-416 | of submissions at distinct links of an image's chain, at most one receives a clear value |
| `GraphNodeProperties.ClearGoesToFirstAccessor` | graph/src/node/mod.rs:412-416 | the submission at link 0 receives the configured clear value and the one at link 1 receives none |

## Left out

- `Node::run` and `AnyNode::run` (graph/src/node/mod.rs:109-114, 202-222): GPU command recording and queue submission with waits, signals and a fence through the factory; foreign calls.
- `Node::dispose` and `AnyNode::dispose` (graph/src/node/mod.rs:121, 224-226): backend teardown under an unchecked device-idle precondition.
- The typed `NodeDesc::build` implementations and the forwarding `AnyNodeDesc::build` for `(N,)` (graph/src/node/mod.rs:287-304): the description's build is an opaque function field; the boxing of the result and the error plumbing are not modelled.
- The `Barrier` enum (graph/src/node/mod.rs:25-46): a passive data type over backend access ranges with no behaviour here.
- The default `buffers()`/`images()` of the traits and `Node::desc`/`Node::builder` (graph/src/node/mod.rs:92-105, 141-149, 235-238): a description's declared states are plain fields, empty when it declares none; `Default` construction is Rust typing.
- The `render` and `present` submodules: not part of this model.
- The internals of the scheduler (`chain::Chains`, `chain::Submission`, links) and of `Supports`: abstract inputs. The collection type of `chain::Node`'s buffer and image fields is not part of this model; they are modelled as ordered sequences of (key, state) pairs, so an id declared twice yields two entries (`ChainKeepsDuplicateBuffers`), where a keyed collection would keep one.
- `GraphNode.NodeBuilder.Chain`, `GraphNode.ImageBindings`: keys are unbounded naturals, so the `usize` overflow of `id + buffers` for ids near the top of the range is not modelled.
- `GraphNode.NodeBuilder.Build`: a binding holds the graph's buffer or image as a value; the borrowed reference and its lifetime are not modelled.
- Lifetimes, trait-object boxing and the `Debug` derivation: Rust typing, not behaviour.
