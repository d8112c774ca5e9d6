/**
 * src/vertex_array.rs: the vertex array handle of the other draft, which
 * also switches attribute arrays through the direct-state-access calls of
 * OpenGL 4.5, naming the vertex array instead of binding it.
 */
module VertexArrays {
  import opened Gl
  import opened Bindings

  /** A vertex array object's name. */
  datatype VertexArray = VertexArray(id: GLuint)

  /** `VertexArray::from_raw`: wrap a name the driver generated. */
  function FromRaw(id: GLuint): (v: VertexArray)
    ensures v.id == id
  {
    VertexArray(id)
  }

  /** `VertexArray::get_id`. */
  function GetId(v: VertexArray): (id: GLuint)
    ensures FromRaw(id) == v
  {
    v.id
  }

  /** Wrapping a name and reading it back gives the name. */
  lemma GetIdFromRaw(id: GLuint)
    ensures GetId(FromRaw(id)) == id
  {
  }

  /** `VertexArray::enable_attrib`: names this array; the vertex array binding stays. */
  method EnableAttrib(gl: Driver, v: VertexArray, index: GLuint)
    modifies gl
    ensures gl.log == old(gl.log) + [EnableVertexArrayAttrib(v.id, index)]
    ensures Bound(gl.log, VertexArraySlot) == Bound(old(gl.log), VertexArraySlot)
  {
    gl.Call(EnableVertexArrayAttrib(v.id, index));
    BoundAppendOther(old(gl.log), EnableVertexArrayAttrib(v.id, index), VertexArraySlot);
  }

  /** `VertexArray::disable_attrib`: names this array; the vertex array binding stays. */
  method DisableAttrib(gl: Driver, v: VertexArray, index: GLuint)
    modifies gl
    ensures gl.log == old(gl.log) + [DisableVertexArrayAttrib(v.id, index)]
    ensures Bound(gl.log, VertexArraySlot) == Bound(old(gl.log), VertexArraySlot)
  {
    gl.Call(DisableVertexArrayAttrib(v.id, index));
    BoundAppendOther(old(gl.log), DisableVertexArrayAttrib(v.id, index), VertexArraySlot);
  }

  /** `VertexArray::is_vertex_array`: `answer` is what `IsVertexArray` returns. */
  method IsVertexArrayObject(gl: Driver, v: VertexArray, answer: GLboolean) returns (valid: bool)
    modifies gl
    ensures valid <==> answer == TRUE
    ensures gl.log == old(gl.log) + [IsVertexArray(v.id)]
  {
    gl.Call(IsVertexArray(v.id));
    valid := answer == TRUE;
  }

  /** `Drop for VertexArray`: exactly one delete, of its own name, with no validity check. */
  method Drop(gl: Driver, v: VertexArray)
    modifies gl
    ensures gl.log == old(gl.log) + [DeleteVertexArrays(1, v.id)]
  {
    gl.Call(DeleteVertexArrays(1, v.id));
  }
}
