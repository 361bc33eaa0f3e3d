/**
 * The backend and command-layer types the node layer only consumes: queue family ids,
 * family capabilities and clear values. Their internals are not part of this model.
 */
module Hal {

  /** Identifier of a queue family (`gfx_hal::queue::QueueFamilyId`). */
  datatype QueueFamilyId = QueueFamilyId(index: nat)

  /** The capability set a queue family reports (opaque). */
  type Capability

  /** A clear colour or depth/stencil value (`gfx_hal::command::ClearValue`, opaque). */
  type ClearValue(==)

  /** A queue family as the factory lists it: its capability and its id. */
  datatype Family = Family(capability: Capability, index: QueueFamilyId)
}
