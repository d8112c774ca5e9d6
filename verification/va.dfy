/**
 * src/va.rs: an owning handle for a vertex array object, deleted
 * unconditionally when dropped.
 */
module Va {
  import opened Gl

  /** A vertex array object's name. */
  datatype VertexArray = VertexArray(id: GLuint)

  /** `VertexArray::from_raw`: wrap a name the driver generated. */
  function FromRaw(id: GLuint): (v: VertexArray)
    ensures v.id == id
  {
    VertexArray(id)
  }

  /** `VertexArray::get_id`. */
  function GetId(v: VertexArray): (id: GLuint)
    ensures FromRaw(id) == v
  {
    v.id
  }

  /** Wrapping a name and reading it back gives the name. */
  lemma GetIdFromRaw(id: GLuint)
    ensures GetId(FromRaw(id)) == id
  {
  }

  /** `VertexArray::is_vertex_array`: `answer` is what `IsVertexArray` returns. */
  method IsVertexArrayObject(gl: Driver, v: VertexArray, answer: GLboolean) returns (valid: bool)
    modifies gl
    ensures valid <==> answer == TRUE
    ensures gl.log == old(gl.log) + [IsVertexArray(v.id)]
  {
    gl.Call(IsVertexArray(v.id));
    valid := answer == TRUE;
  }

  /** `Drop for VertexArray`: exactly one delete, of its own name, with no validity check. */
  method Drop(gl: Driver, v: VertexArray)
    modifies gl
    ensures gl.log == old(gl.log) + [DeleteVertexArrays(1, v.id)]
  {
    gl.Call(DeleteVertexArrays(1, v.id));
  }
}
