/**
 * src/buffer.rs: an owning handle for a buffer object, deleted when dropped
 * only if the driver still knows its id as a buffer.
 */
module Buffers {
  import opened Gl

  /** A buffer object's name. */
  datatype Buffer = Buffer(id: GLuint)

  /** `Buffer::from_raw`: wrap a name the driver generated. */
  function FromRaw(id: GLuint): (b: Buffer)
    ensures b.id == id
  {
    Buffer(id)
  }

  /** `Buffer::get_id`. */
  function GetId(b: Buffer): (id: GLuint)
    ensures FromRaw(id) == b
  {
    b.id
  }

  /** Wrapping a name and reading it back gives the name. */
  lemma GetIdFromRaw(id: GLuint)
    ensures GetId(FromRaw(id)) == id
  {
  }

  /** `Buffer::is_buffer`: `answer` is what `IsBuffer` returns. */
  method IsBufferObject(gl: Driver, b: Buffer, answer: GLboolean) returns (valid: bool)
    modifies gl
    ensures valid <==> answer == TRUE
    ensures gl.log == old(gl.log) + [IsBuffer(b.id)]
  {
    gl.Call(IsBuffer(b.id));
    valid := answer == TRUE;
  }

  /** The driver calls of `Drop for Buffer`: the validity check, then the delete if it passed. */
  function DropCalls(id: GLuint, isBuffer: GLboolean): (r: seq<GlCall>)
    ensures |r| == (if isBuffer == TRUE then 2 else 1) && r[0] == IsBuffer(id)
    ensures DeleteBuffers(1, id) in r <==> isBuffer == TRUE
    ensures forall c :: c in r && c.DeleteBuffers? ==> c == DeleteBuffers(1, id)
    ensures multiset(r)[DeleteBuffers(1, id)] <= 1
  {
    [IsBuffer(id)] + (if isBuffer == TRUE then [DeleteBuffers(1, id)] else [])
  }

  /** `Drop for Buffer`: `isBuffer` is the driver's answer to `IsBuffer`. */
  method Drop(gl: Driver, b: Buffer, isBuffer: GLboolean)
    modifies gl
    ensures gl.log == old(gl.log) + DropCalls(b.id, isBuffer)
  {
    var valid := IsBufferObject(gl, b, isBuffer);
    if valid {
      gl.Call(DeleteBuffers(1, b.id));
    }
  }
}
