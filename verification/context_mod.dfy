/**
 * src/context/mod.rs: the context root, which owns the buffer targets.
 * Its `BufferTargets` is the same struct as the one in
 * src/context/buffer_targets.rs (same fields, `new`, `gen_one` and `gen`),
 * so it is that class.
 */
module ContextRoot {
  import opened Gl
  import ContextBufferTargets

  /** The GL context root. */
  class Context {
    const buffers: ContextBufferTargets.BufferTargets

    /** `Context::new`: fresh buffer targets, both unbound. */
    constructor ()
      ensures fresh(buffers) && fresh(buffers.arrayTarget) && fresh(buffers.elementArrayTarget)
      ensures buffers.arrayTarget != buffers.elementArrayTarget
      ensures buffers.arrayTarget.target == ARRAY_BUFFER && buffers.arrayTarget.buffer.None?
      ensures buffers.elementArrayTarget.target == ELEMENT_ARRAY_BUFFER && buffers.elementArrayTarget.buffer.None?
    {
      buffers := new ContextBufferTargets.BufferTargets();
    }
  }
}
