/**
 * The OpenGL driver as the wrapper sees it: its scalar types, the enum values
 * the wrapper compares against, and the calls it makes. The driver itself is
 * not modelled: each call is recorded in a ghost log, and each answer the
 * driver gives is a parameter of the operation that asks for it.
 */
module Gl {

  type byte = x: int | 0 <= x < 0x100
  type usize = x: int | 0 <= x < 0x1_0000_0000_0000_0000
  type isize = x: int | -0x8000_0000_0000_0000 <= x < 0x8000_0000_0000_0000
  type GLuint = x: int | 0 <= x < 0x1_0000_0000
  type GLint = x: int | -0x8000_0000 <= x < 0x8000_0000
  type GLenum = GLuint
  type GLsizei = GLint
  type GLsizeiptr = isize
  type GLboolean = byte
  /** A float is only passed through, so its bit pattern stands for it. */
  type GLfloat = bv32

  const NO_ERROR: GLenum := 0
  const INVALID_ENUM: GLenum := 0x0500
  const INVALID_VALUE: GLenum := 0x0501
  const INVALID_OPERATION: GLenum := 0x0502

  const FALSE: GLboolean := 0
  const TRUE: GLboolean := 1

  const ARRAY_BUFFER: GLenum := 0x8892
  const ELEMENT_ARRAY_BUFFER: GLenum := 0x8893
  const FRAGMENT_SHADER: GLenum := 0x8B30
  const VERTEX_SHADER: GLenum := 0x8B31
  const COMPILE_STATUS: GLenum := 0x8B81
  const LINK_STATUS: GLenum := 0x8B82
  const INFO_LOG_LENGTH: GLenum := 0x8B84

  /** `mem::size_of::<GLfloat>()`. */
  const SIZE_OF_GLFLOAT: nat := 4

  /** One call into the driver, with the arguments the wrapper passes. */
  datatype GlCall =
    | GetError
    | GenBuffers(n: GLsizei)
    | BindBuffer(target: GLenum, buffer: GLuint)
    | BufferData(target: GLenum, size: GLsizeiptr, data: seq<GLfloat>, usage: GLenum)
    | IsBuffer(buffer: GLuint)
    | DeleteBuffers(n: GLsizei, buffer: GLuint)
    | GenVertexArrays(n: GLsizei)
    | BindVertexArray(array: GLuint)
    | IsVertexArray(array: GLuint)
    | DeleteVertexArrays(n: GLsizei, array: GLuint)
    | EnableVertexAttribArray(index: GLuint)
    | DisableVertexAttribArray(index: GLuint)
    | EnableVertexArrayAttrib(vaobj: GLuint, index: GLuint)
    | DisableVertexArrayAttrib(vaobj: GLuint, index: GLuint)
    | CreateShader(shaderType: GLenum)
    | ShaderSource(shader: GLuint, source: seq<byte>)
    | CompileShader(shader: GLuint)
    | GetShaderiv(shader: GLuint, pname: GLenum)
    | GetShaderInfoLog(shader: GLuint, bufSize: GLsizei)
    | IsShader(shader: GLuint)
    | DeleteShader(shader: GLuint)
    | CreateProgram
    | AttachShader(program: GLuint, shader: GLuint)
    | DetachShader(program: GLuint, shader: GLuint)
    | LinkProgram(program: GLuint)
    | GetProgramiv(program: GLuint, pname: GLenum)
    | GetProgramInfoLog(program: GLuint, bufSize: GLsizei)
    | UseProgram(program: GLuint)
    | IsProgram(program: GLuint)
    | DeleteProgram(program: GLuint)

  /** The driver's answer to an integer query followed by `GetError`. */
  datatype ParamAnswer = ParamAnswer(value: GLint, error: GLenum)

  /** The current driver context: the calls made into it so far, oldest first. */
  class Driver {
    ghost var log: seq<GlCall>

    constructor ()
      ensures log == []
    {
      log := [];
    }

    /** Issue one driver call. */
    method Call(c: GlCall)
      modifies this
      ensures log == old(log) + [c]
    {
      log := log + [c];
    }
  }

  /**
   * `n as GLsizei` for a `usize`: Rust keeps the low 32 bits and reads them
   * as a two's-complement number.
   */
  function AsGLsizei(n: usize): (r: GLsizei)
    ensures (r - n) % 0x1_0000_0000 == 0
    ensures n < 0x8000_0000 ==> r == n
  {
    var low := n % 0x1_0000_0000;
    if low < 0x8000_0000 then low else low - 0x1_0000_0000
  }

  /** `ids.into_iter().map(new_object).collect()`: one object per id, in order. */
  function MapIds<T>(ids: seq<GLuint>, newObject: GLuint -> T): (r: seq<T>)
    ensures |r| == |ids|
    ensures forall i :: 0 <= i < |ids| ==> r[i] == newObject(ids[i])
  {
    if ids == [] then [] else [newObject(ids[0])] + MapIds(ids[1..], newObject)
  }

  /** Regrouping a log built from four pieces. */
  lemma AppendAssoc3(w: seq<GlCall>, x: seq<GlCall>, y: seq<GlCall>, z: seq<GlCall>)
    ensures w + x + y + z == w + (x + y + z)
  {
  }

  /** Regrouping a log built from five pieces. */
  lemma AppendAssoc4(v: seq<GlCall>, w: seq<GlCall>, x: seq<GlCall>, y: seq<GlCall>, z: seq<GlCall>)
    ensures v + w + x + y + z == v + (w + x + y + z)
  {
  }
}
