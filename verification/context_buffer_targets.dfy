/**
 * src/context/buffer_targets.rs: the buffer targets again (the same
 * tracker macro as src/context/buffer.rs, so the same `BufferTarget`),
 * `buffer_data` on the array target, and the pair of targets that also
 * generates buffers.
 */
module ContextBufferTargets {
  import opened Gl
  import opened Bindings
  import Buffers
  import ContextBuffer

  type BufferTarget = ContextBuffer.BufferTarget

  /** The byte size `buffer_data` passes: `data.len() * size_of::<GLfloat>()`. */
  function ByteSize(data: seq<GLfloat>): (size: nat)
    ensures size == |data| * SIZE_OF_GLFLOAT
    ensures size % SIZE_OF_GLFLOAT == 0 && size / SIZE_OF_GLFLOAT == |data|
  {
    |data| * SIZE_OF_GLFLOAT
  }

  /**
   * `ArrayBufferTarget::buffer_data`: upload `data` to whatever is bound to
   * `ARRAY_BUFFER`. It takes `&data[0]`, so `data` must not be empty; a
   * slice never spans more than `isize::MAX` bytes, so the size cast keeps
   * its value. The tracked buffer and every binding stay as they are.
   */
  method BufferData(gl: Driver, t: BufferTarget, data: seq<GLfloat>, usage: GLenum)
    requires t.target == ARRAY_BUFFER
    requires |data| >= 1
    requires |data| * SIZE_OF_GLFLOAT < 0x8000_0000_0000_0000
    modifies gl
    ensures gl.log == old(gl.log) + [Gl.BufferData(ARRAY_BUFFER, ByteSize(data), data, usage)]
    ensures forall s :: Bound(gl.log, s) == Bound(old(gl.log), s)
  {
    var size := ByteSize(data);
    gl.Call(Gl.BufferData(ARRAY_BUFFER, size, data, usage));
    forall s
      ensures Bound(gl.log, s) == Bound(old(gl.log), s)
    {
      BoundAppendOther(old(gl.log), Gl.BufferData(ARRAY_BUFFER, size, data, usage), s);
    }
  }

  /** The two buffer targets of a context. */
  class BufferTargets {
    const arrayTarget: BufferTarget
    const elementArrayTarget: BufferTarget

    /** `BufferTargets::new`: both targets, unbound. */
    constructor ()
      ensures fresh(arrayTarget) && fresh(elementArrayTarget) && arrayTarget != elementArrayTarget
      ensures arrayTarget.target == ARRAY_BUFFER && arrayTarget.buffer.None?
      ensures elementArrayTarget.target == ELEMENT_ARRAY_BUFFER && elementArrayTarget.buffer.None?
    {
      arrayTarget := new ContextBuffer.BufferTarget.Array();
      elementArrayTarget := new ContextBuffer.BufferTarget.ElementArray();
    }

    /** `gen_one`: one `GenBuffers(1)`; `generated` is the id the driver writes. */
    method GenOne(gl: Driver, generated: GLuint) returns (b: Buffers.Buffer)
      modifies gl
      ensures b.id == generated
      ensures gl.log == old(gl.log) + [GenBuffers(1)]
    {
      gl.Call(GenBuffers(1));
      b := Buffers.FromRaw(generated);
    }

    /**
     * `gen`: one `GenBuffers(size as GLsizei)` into a vector of `size` ids;
     * `filled` is that vector after the driver wrote it. One handle per id,
     * in the vector's order.
     */
    method Gen(gl: Driver, size: usize, filled: seq<GLuint>) returns (r: seq<Buffers.Buffer>)
      requires |filled| == size
      modifies gl
      ensures |r| == size
      ensures forall i :: 0 <= i < size ==> r[i].id == filled[i]
      ensures gl.log == old(gl.log) + [GenBuffers(AsGLsizei(size))]
    {
      gl.Call(GenBuffers(AsGLsizei(size)));
      r := MapIds(filled, Buffers.FromRaw);
    }
  }
}
