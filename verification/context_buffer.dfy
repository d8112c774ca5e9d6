/**
 * src/context/buffer.rs: the array and element-array buffer targets. One
 * macro gives both the same `bind`, `unbind` and `Drop`; here that is one
 * class whose `target` fixes the enum the methods pass to `BindBuffer`.
 */
module ContextBuffer {
  import opened Gl
  import opened Wrappers
  import opened Bindings
  import Buffers

  /** `BindBufferError`; `bind` never produces it. */
  datatype BindBufferError = BindBufferError

  /** A buffer target and the buffer this tracker last bound to it. */
  class BufferTarget {
    const target: GLenum
    var buffer: Option<Buffers.Buffer>

    /** `ArrayBufferTarget::new`: the array target, unbound. */
    constructor Array()
      ensures target == ARRAY_BUFFER && buffer == None
    {
      target := ARRAY_BUFFER;
      buffer := None;
    }

    /** `ElementArrayBufferTarget::new`: the element-array target, unbound. */
    constructor ElementArray()
      ensures target == ELEMENT_ARRAY_BUFFER && buffer == None
    {
      target := ELEMENT_ARRAY_BUFFER;
      buffer := None;
    }

    /**
     * `bind`: record `b` and bind it to this target, replacing whatever was
     * bound; always `Ok(self)`. No other slot of the driver changes.
     */
    method Bind(gl: Driver, b: Buffers.Buffer) returns (r: Result<BufferTarget, BindBufferError>)
      modifies this, gl
      ensures r == Ok(this)
      ensures buffer == Some(b)
      ensures gl.log == old(gl.log) + [BindBuffer(target, b.id)]
      ensures Bound(gl.log, BufferSlot(target)) == b.id
      ensures forall s :: s != BufferSlot(target) ==> Bound(gl.log, s) == Bound(old(gl.log), s)
    {
      buffer := Some(b);
      gl.Call(BindBuffer(target, Buffers.GetId(b)));
      assert gl.log[|gl.log| - 1] == BindBuffer(target, b.id);
      forall s | s != BufferSlot(target)
        ensures Bound(gl.log, s) == Bound(old(gl.log), s)
      {
        BoundAppendOther(old(gl.log), BindBuffer(target, b.id), s);
      }
      r := Ok(this);
    }

    /** `unbind`: bind 0 to this target, whether or not a buffer is tracked, and forget it. */
    method Unbind(gl: Driver)
      modifies this, gl
      ensures buffer == None
      ensures gl.log == old(gl.log) + [BindBuffer(target, 0)]
      ensures Bound(gl.log, BufferSlot(target)) == 0
      ensures forall s :: s != BufferSlot(target) ==> Bound(gl.log, s) == Bound(old(gl.log), s)
    {
      gl.Call(BindBuffer(target, 0));
      assert gl.log[|gl.log| - 1] == BindBuffer(target, 0);
      forall s | s != BufferSlot(target)
        ensures Bound(gl.log, s) == Bound(old(gl.log), s)
      {
        BoundAppendOther(old(gl.log), BindBuffer(target, 0), s);
      }
      buffer := None;
    }

    /** `Drop`: exactly `unbind`. */
    method Drop(gl: Driver)
      modifies this, gl
      ensures buffer == None
      ensures gl.log == old(gl.log) + [BindBuffer(target, 0)]
      ensures Bound(gl.log, BufferSlot(target)) == 0
      ensures forall s :: s != BufferSlot(target) ==> Bound(gl.log, s) == Bound(old(gl.log), s)
    {
      Unbind(gl);
    }
  }
}
