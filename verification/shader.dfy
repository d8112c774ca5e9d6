/**
 * src/shader.rs: a shader object, compiling it, reading its info log, and
 * deleting it when the handle is dropped.
 */
module Shaders {
  import opened Gl
  import opened Wrappers
  import opened Utf8
  import opened InfoLog

  /** A shader object; `get_id` is the field `id`. */
  datatype Shader = Shader(id: GLuint)

  /** `PartialEq for Shader`: two shaders are equal exactly when their ids are. */
  lemma EqIffSameId(a: Shader, b: Shader)
    ensures a == b <==> a.id == b.id
  {
  }

  /** `ShaderError`: a failed compilation carries the driver's log. */
  datatype ShaderError = CompileFailed(log: string) | Other(message: string)

  /** The `GetError` code of a failed `GetShaderiv`. */
  datatype GLintFromShaderError = GLintFromShaderError(info: GLenum)

  const INVALID_ENUM_MESSAGE: string := "Tried to get unnaceptable parameter of shader object."
  const INVALID_VALUE_MESSAGE: string := "Tried to get parameter of shader which was not generated by OpenGL."
  const INVALID_OPERATION_MESSAGE: string := "Tried to get parameter of shader which is not a shader object."
  const UNRECOGNISED_MESSAGE: string := "Unrecogised error when getting shader parameter."
  const NOT_UTF8_MESSAGE: string := "ShaderInfoLog not valid utf8"
  const COMPILE_FAILED_HEADER: string := "[compile failed]\n"
  const OTHER_ERROR_HEADER: string := "[other error]\n"

  /**
   * `Display for GLintFromShaderError`: each of the three codes `GetShaderiv`
   * can raise has its own message, and every other code the fallback one.
   */
  function ParamErrorMessage(e: GLintFromShaderError): (r: string)
    ensures r == INVALID_ENUM_MESSAGE <==> e.info == INVALID_ENUM
    ensures r == INVALID_VALUE_MESSAGE <==> e.info == INVALID_VALUE
    ensures r == INVALID_OPERATION_MESSAGE <==> e.info == INVALID_OPERATION
    ensures r == UNRECOGNISED_MESSAGE <==> e.info !in {INVALID_ENUM, INVALID_VALUE, INVALID_OPERATION}
  {
    if e.info == INVALID_ENUM then INVALID_ENUM_MESSAGE
    else if e.info == INVALID_VALUE then INVALID_VALUE_MESSAGE
    else if e.info == INVALID_OPERATION then INVALID_OPERATION_MESSAGE
    else UNRECOGNISED_MESSAGE
  }

  /** `Display for ShaderError`: a header naming the variant, then its text verbatim. */
  function Display(e: ShaderError): (r: string)
    ensures e.CompileFailed? ==> |r| >= |COMPILE_FAILED_HEADER| && r[..|COMPILE_FAILED_HEADER|] == COMPILE_FAILED_HEADER && r[|COMPILE_FAILED_HEADER|..] == e.log
    ensures e.Other? ==> |r| >= |OTHER_ERROR_HEADER| && r[..|OTHER_ERROR_HEADER|] == OTHER_ERROR_HEADER && r[|OTHER_ERROR_HEADER|..] == e.message
  {
    match e
    case CompileFailed(log) => COMPILE_FAILED_HEADER + log
    case Other(message) => OTHER_ERROR_HEADER + message
  }

  /** `ShaderError::Other(obj.to_string())` for a failed parameter query. */
  function ParamFailure(e: GLintFromShaderError): ShaderError
  {
    Other(ParamErrorMessage(e))
  }

  /**
   * `param_from_shader` for `GLint`: the queried value when `GetError`
   * reports no error, otherwise an error carrying the code.
   */
  function ParamOutcome(answer: ParamAnswer): (r: Result<GLint, GLintFromShaderError>)
    ensures r.Ok? <==> answer.error == NO_ERROR
    ensures r.Ok? ==> r.value == answer.value
    ensures r.Err? ==> r.error.info == answer.error
  {
    if answer.error == NO_ERROR then Ok(answer.value) else Err(GLintFromShaderError(answer.error))
  }

  /**
   * `get_info_log` with the log buffer length clamped at zero; `buffer` is
   * what the driver leaves in the buffer it is given.
   */
  function InfoLogOutcome(length: ParamAnswer, buffer: seq<byte>): (r: Result<string, ShaderError>)
    requires length.error == NO_ERROR ==> |buffer| == BufferLength(length.value)
    ensures length.error != NO_ERROR ==> r == Err(ParamFailure(GLintFromShaderError(length.error)))
    ensures length.error == NO_ERROR ==> (r.Ok? <==> ValidUtf8(buffer))
    ensures r.Ok? ==> Encode(r.value) == buffer && |buffer| == BufferLength(length.value)
    ensures length.error == NO_ERROR && !ValidUtf8(buffer) ==> r == Err(Other(NOT_UTF8_MESSAGE))
    ensures length.error == NO_ERROR && length.value <= 1 ==> r == Ok([])
  {
    match ParamOutcome(length)
    case Err(e) => Err(ParamFailure(e))
    case Ok(_) =>
      match FromUtf8(buffer)
      case Some(log) => Ok(log)
      case None => Err(Other(NOT_UTF8_MESSAGE))
  }

  /**
   * `get_info_log` exactly as the source computes the buffer length,
   * `(len as usize) - 1`: a log length below 1 aborts.
   */
  function InfoLogOutcomeAsWritten(length: ParamAnswer, buffer: seq<byte>): (r: Outcome<Result<string, ShaderError>>)
    requires length.error == NO_ERROR && length.value >= 1 ==> |buffer| == length.value - 1
    ensures r.Aborts? <==> length.error == NO_ERROR && length.value < 1
    ensures r.Returns? ==> r.value == InfoLogOutcome(length, buffer)
  {
    match ParamOutcome(length)
    case Err(e) => Returns(Err(ParamFailure(e)))
    case Ok(len) =>
      match BufferLengthAsWritten(len)
      case None => Aborts
      case Some(_) =>
        match FromUtf8(buffer)
        case Some(log) => Returns(Ok(log))
        case None => Returns(Err(Other(NOT_UTF8_MESSAGE)))
  }

  /**
   * A shader without a log (OpenGL reports `INFO_LOG_LENGTH` 0) makes the
   * source abort, where an empty log is evidently meant.
   */
  lemma EmptyLogAbortsAsWritten()
    ensures InfoLogOutcomeAsWritten(ParamAnswer(0, NO_ERROR), []) == Aborts
    ensures InfoLogOutcome(ParamAnswer(0, NO_ERROR), []) == Ok([])
  {
  }

  /**
   * `compile`: success exactly when the status query succeeds and reports
   * `TRUE`; a failed status query is `Other`; otherwise the log is fetched
   * and becomes `CompileFailed`, or its own error is passed on unchanged.
   */
  function CompileOutcome(a: LogAnswers): (r: Result<(), ShaderError>)
    requires a.Fits()
    ensures r.Ok? <==> a.status.error == NO_ERROR && a.status.value == TRUE
    ensures a.status.error != NO_ERROR ==> r == Err(ParamFailure(GLintFromShaderError(a.status.error)))
    ensures a.status.error == NO_ERROR && a.status.value != TRUE && InfoLogOutcome(a.length, a.buffer).Ok? ==>
              r == Err(CompileFailed(InfoLogOutcome(a.length, a.buffer).value))
    ensures a.status.error == NO_ERROR && a.status.value != TRUE && InfoLogOutcome(a.length, a.buffer).Err? ==>
              r == Err(InfoLogOutcome(a.length, a.buffer).error)
    ensures r.Err? && r.error.CompileFailed? ==> Encode(r.error.log) == a.buffer
  {
    match ParamOutcome(a.status)
    case Err(e) => Err(ParamFailure(e))
    case Ok(status) =>
      if TRUE as GLint == status then Ok(())
      else
        match InfoLogOutcome(a.length, a.buffer)
        case Ok(log) => Err(CompileFailed(log))
        case Err(err) => Err(err)
  }

  /** The driver calls of `param_from_shader`. */
  function ParamCalls(id: GLuint, pname: GLenum): seq<GlCall>
  {
    [GetShaderiv(id, pname), GetError]
  }

  /** The driver calls of `get_info_log`: the length query, then the fetch if it succeeded. */
  function InfoLogCalls(id: GLuint, length: ParamAnswer): seq<GlCall>
  {
    ParamCalls(id, INFO_LOG_LENGTH) + (if length.error == NO_ERROR then [GetShaderInfoLog(id, length.value)] else [])
  }

  /** The driver calls of `compile`: the log is asked for only after a definite failure. */
  function CompileCalls(id: GLuint, a: LogAnswers): seq<GlCall>
  {
    [CompileShader(id)] + ParamCalls(id, COMPILE_STATUS)
      + (if a.status.error == NO_ERROR && a.status.value != TRUE then InfoLogCalls(id, a.length) else [])
  }

  /** The driver calls of `Drop for Shader`: delete only an id the driver still knows as a shader. */
  function DropCalls(id: GLuint, isShader: GLboolean): (r: seq<GlCall>)
    ensures DeleteShader(id) in r <==> isShader == TRUE
    ensures forall c :: c in r && c.DeleteShader? ==> c == DeleteShader(id)
    ensures |r| == (if isShader == TRUE then 2 else 1) && r[0] == IsShader(id)
  {
    [IsShader(id)] + (if isShader == TRUE then [DeleteShader(id)] else [])
  }

  /**
   * The driver calls of `compile_new`: create, set the source, compile, and
   * on failure drop the new shader as the early return does.
   */
  function CompileNewCalls(ty: GLenum, source: string, created: GLuint, a: LogAnswers, isShader: GLboolean): seq<GlCall>
    requires a.Fits()
  {
    [CreateShader(ty), ShaderSource(created, Encode(source))] + CompileCalls(created, a)
      + (if CompileOutcome(a).Err? then DropCalls(created, isShader) else [])
  }

  /** `compile_new` creates the shader, hands it its source, and only then compiles it. */
  lemma CompileNewOrder(ty: GLenum, source: string, created: GLuint, a: LogAnswers, isShader: GLboolean)
    requires a.Fits()
    ensures |CompileNewCalls(ty, source, created, a, isShader)| >= 3
    ensures CompileNewCalls(ty, source, created, a, isShader)[0] == CreateShader(ty)
    ensures CompileNewCalls(ty, source, created, a, isShader)[1] == ShaderSource(created, Encode(source))
    ensures CompileNewCalls(ty, source, created, a, isShader)[2] == CompileShader(created)
  {
  }

  /** `compile_new`: the new shader when compilation succeeds, else the compile error unchanged. */
  function CompileNewOutcome(created: GLuint, a: LogAnswers): (r: Result<Shader, ShaderError>)
    requires a.Fits()
    ensures r.Ok? <==> CompileOutcome(a).Ok?
    ensures r.Ok? ==> r.value.id == created
    ensures r.Err? ==> r.error == CompileOutcome(a).error
  {
    match CompileOutcome(a)
    case Ok(_) => Ok(Shader(created))
    case Err(e) => Err(e)
  }

  /** `Shader::new`: `created` is the id `CreateShader` returns. */
  method New(gl: Driver, ty: GLenum, created: GLuint) returns (shader: Shader)
    modifies gl
    ensures shader.id == created
    ensures gl.log == old(gl.log) + [CreateShader(ty)]
  {
    gl.Call(CreateShader(ty));
    shader := Shader(created);
  }

  /** `set_source`: hands the source text to the driver. */
  method SetSource(gl: Driver, shader: Shader, source: string)
    modifies gl
    ensures gl.log == old(gl.log) + [ShaderSource(shader.id, Encode(source))]
  {
    gl.Call(ShaderSource(shader.id, Encode(source)));
  }

  /** `param_from_shader`: `answer` is what `GetShaderiv` and `GetError` report. */
  method ParamFromShader(gl: Driver, shader: Shader, pname: GLenum, answer: ParamAnswer)
    returns (r: Result<GLint, GLintFromShaderError>)
    modifies gl
    ensures r == ParamOutcome(answer)
    ensures gl.log == old(gl.log) + ParamCalls(shader.id, pname)
  {
    gl.Call(GetShaderiv(shader.id, pname));
    gl.Call(GetError);
    if answer.error == NO_ERROR {
      r := Ok(answer.value);
    } else {
      r := Err(GLintFromShaderError(answer.error));
    }
  }

  /** `get_info_log`, with the buffer length clamped at zero. */
  method GetInfoLog(gl: Driver, shader: Shader, length: ParamAnswer, buffer: seq<byte>)
    returns (r: Result<string, ShaderError>)
    requires length.error == NO_ERROR ==> |buffer| == BufferLength(length.value)
    modifies gl
    ensures r == InfoLogOutcome(length, buffer)
    ensures gl.log == old(gl.log) + InfoLogCalls(shader.id, length)
  {
    var len := ParamFromShader(gl, shader, INFO_LOG_LENGTH, length);
    match len {
      case Err(obj) =>
        r := Err(Other(ParamErrorMessage(obj)));
      case Ok(n) =>
        gl.Call(GetShaderInfoLog(shader.id, n));
        var text := FromUtf8(buffer);
        if text.Some? {
          r := Ok(text.value);
        } else {
          r := Err(Other(NOT_UTF8_MESSAGE));
        }
    }
  }

  /** `compile`: `a` holds the driver's answers to the status and log queries. */
  method Compile(gl: Driver, shader: Shader, a: LogAnswers) returns (r: Result<(), ShaderError>)
    requires a.Fits()
    modifies gl
    ensures r == CompileOutcome(a)
    ensures gl.log == old(gl.log) + CompileCalls(shader.id, a)
  {
    gl.Call(CompileShader(shader.id));
    var status := ParamFromShader(gl, shader, COMPILE_STATUS, a.status);
    match status {
      case Err(obj) =>
        r := Err(Other(ParamErrorMessage(obj)));
      case Ok(s) =>
        if TRUE as GLint == s {
          r := Ok(());
        } else {
          var log := GetInfoLog(gl, shader, a.length, a.buffer);
          match log {
            case Ok(text) => r := Err(CompileFailed(text));
            case Err(err) => r := Err(err);
          }
        }
    }
  }

  /** `is_shader`: `answer` is what `IsShader` returns. */
  method IsShaderObject(gl: Driver, shader: Shader, answer: GLboolean) returns (b: bool)
    modifies gl
    ensures b <==> answer == TRUE
    ensures gl.log == old(gl.log) + [IsShader(shader.id)]
  {
    gl.Call(IsShader(shader.id));
    b := answer == TRUE;
  }

  /** `Drop for Shader`: `isShader` is the driver's answer to `IsShader`. */
  method Drop(gl: Driver, shader: Shader, isShader: GLboolean)
    modifies gl
    ensures gl.log == old(gl.log) + DropCalls(shader.id, isShader)
  {
    var valid := IsShaderObject(gl, shader, isShader);
    if valid {
      gl.Call(DeleteShader(shader.id));
    }
  }

  /**
   * `compile_new`: `created` is the id `CreateShader` returns, `a` the
   * compile answers, `isShader` the answer to `IsShader` when the failed
   * shader is dropped.
   */
  method CompileNew(gl: Driver, source: string, ty: GLenum, created: GLuint, a: LogAnswers, isShader: GLboolean)
    returns (r: Result<Shader, ShaderError>)
    requires a.Fits()
    modifies gl
    ensures r == CompileNewOutcome(created, a)
    ensures gl.log == old(gl.log) + CompileNewCalls(ty, source, created, a, isShader)
  {
    var shader := New(gl, ty, created);
    SetSource(gl, shader, source);
    ghost var prefix := [CreateShader(ty), ShaderSource(created, Encode(source))];
    assert gl.log == old(gl.log) + prefix;
    var compiled := Compile(gl, shader, a);
    if compiled.Err? {
      Drop(gl, shader, isShader);
      AppendAssoc3(old(gl.log), prefix, CompileCalls(created, a), DropCalls(created, isShader));
      return Err(compiled.error);
    }
    assert gl.log == old(gl.log) + (prefix + CompileCalls(created, a));
    r := Ok(shader);
  }

  /** `compile_vertex_shader`: `compile_new` with `VERTEX_SHADER`. */
  method CompileVertexShader(gl: Driver, source: string, created: GLuint, a: LogAnswers, isShader: GLboolean)
    returns (r: Result<Shader, ShaderError>)
    requires a.Fits()
    modifies gl
    ensures r == CompileNewOutcome(created, a)
    ensures gl.log == old(gl.log) + CompileNewCalls(VERTEX_SHADER, source, created, a, isShader)
    ensures gl.log[|old(gl.log)|] == CreateShader(VERTEX_SHADER)
  {
    r := CompileNew(gl, source, VERTEX_SHADER, created, a, isShader);
  }

  /** `compile_fragment_shader`: `compile_new` with `FRAGMENT_SHADER`. */
  method CompileFragmentShader(gl: Driver, source: string, created: GLuint, a: LogAnswers, isShader: GLboolean)
    returns (r: Result<Shader, ShaderError>)
    requires a.Fits()
    modifies gl
    ensures r == CompileNewOutcome(created, a)
    ensures gl.log == old(gl.log) + CompileNewCalls(FRAGMENT_SHADER, source, created, a, isShader)
    ensures gl.log[|old(gl.log)|] == CreateShader(FRAGMENT_SHADER)
  {
    r := CompileNew(gl, source, FRAGMENT_SHADER, created, a, isShader);
  }
}
