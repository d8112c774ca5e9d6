/**
 * src/program.rs: a program object, the list of shaders attached to it,
 * linking, its info log, and detaching and deleting when it is dropped.
 */
module Programs {
  import opened Gl
  import opened Wrappers
  import opened Utf8
  import opened InfoLog
  import Shaders

  type Shader = Shaders.Shader

  /** `ProgramError`: a failed link carries the driver's log. */
  datatype ProgramError = LinkFailed(log: string) | Other(message: string)

  datatype AttachShaderError = AttachShaderError
  datatype DetachShaderError = DetachShaderError

  /** The `GetError` code of a failed `GetProgramiv`. */
  datatype GLintFromProgramError = GLintFromProgramError(info: GLenum)

  /** `Display for AttachShaderError` and `Display for DetachShaderError`. */
  const ATTACH_SHADER_MESSAGE: string := "Failed to attach shader to program."
  const DETACH_SHADER_MESSAGE: string := "Failed to detach shader from program."

  const INVALID_ENUM_MESSAGE: string := "Tried to get unnaceptable parameter of program object."
  const INVALID_VALUE_MESSAGE: string := "Tried to get parameter of program which was not generated by OpenGL."
  const INVALID_OPERATION_MESSAGE: string := "Tried to get parameter of program which is not a program object."
  const UNRECOGNISED_MESSAGE: string := "Unrecogised error when getting program parameter."
  const NOT_UTF8_MESSAGE: string := "ProgramInfoLog not valid utf8"
  const LINK_FAILED_HEADER: string := "[link failed]\n"
  const OTHER_ERROR_HEADER: string := "[other error]\n"

  /**
   * `Display for GLintFromProgramError`: each of the three codes
   * `GetProgramiv` can raise has its own message, every other code the
   * fallback one.
   */
  function ParamErrorMessage(e: GLintFromProgramError): (r: string)
    ensures r == INVALID_ENUM_MESSAGE <==> e.info == INVALID_ENUM
    ensures r == INVALID_VALUE_MESSAGE <==> e.info == INVALID_VALUE
    ensures r == INVALID_OPERATION_MESSAGE <==> e.info == INVALID_OPERATION
    ensures r == UNRECOGNISED_MESSAGE <==> e.info !in {INVALID_ENUM, INVALID_VALUE, INVALID_OPERATION}
  {
    if e.info == INVALID_ENUM then INVALID_ENUM_MESSAGE
    else if e.info == INVALID_VALUE then INVALID_VALUE_MESSAGE
    else if e.info == INVALID_OPERATION then INVALID_OPERATION_MESSAGE
    else UNRECOGNISED_MESSAGE
  }

  /** `Display for ProgramError`: a header naming the variant, then its text verbatim. */
  function Display(e: ProgramError): (r: string)
    ensures e.LinkFailed? ==> |r| >= |LINK_FAILED_HEADER| && r[..|LINK_FAILED_HEADER|] == LINK_FAILED_HEADER && r[|LINK_FAILED_HEADER|..] == e.log
    ensures e.Other? ==> |r| >= |OTHER_ERROR_HEADER| && r[..|OTHER_ERROR_HEADER|] == OTHER_ERROR_HEADER && r[|OTHER_ERROR_HEADER|..] == e.message
  {
    match e
    case LinkFailed(log) => LINK_FAILED_HEADER + log
    case Other(message) => OTHER_ERROR_HEADER + message
  }

  /** `ProgramError::Other(obj.to_string())` for a failed parameter query. */
  function ParamFailure(e: GLintFromProgramError): ProgramError
  {
    Other(ParamErrorMessage(e))
  }

  /**
   * `param_from_program` for `GLint`: the queried value when `GetError`
   * reports no error, otherwise an error carrying the code.
   */
  function ParamOutcome(answer: ParamAnswer): (r: Result<GLint, GLintFromProgramError>)
    ensures r.Ok? <==> answer.error == NO_ERROR
    ensures r.Ok? ==> r.value == answer.value
    ensures r.Err? ==> r.error.info == answer.error
  {
    if answer.error == NO_ERROR then Ok(answer.value) else Err(GLintFromProgramError(answer.error))
  }

  /**
   * `get_info_log` with the log buffer length clamped at zero; `buffer` is
   * what the driver leaves in the buffer it is given.
   */
  function InfoLogOutcome(length: ParamAnswer, buffer: seq<byte>): (r: Result<string, ProgramError>)
    requires length.error == NO_ERROR ==> |buffer| == BufferLength(length.value)
    ensures length.error != NO_ERROR ==> r == Err(ParamFailure(GLintFromProgramError(length.error)))
    ensures length.error == NO_ERROR ==> (r.Ok? <==> ValidUtf8(buffer))
    ensures r.Ok? ==> Encode(r.value) == buffer && |buffer| == BufferLength(length.value)
    ensures length.error == NO_ERROR && !ValidUtf8(buffer) ==> r == Err(Other(NOT_UTF8_MESSAGE))
    ensures length.error == NO_ERROR && length.value <= 1 ==> r == Ok([])
  {
    match ParamOutcome(length)
    case Err(e) => Err(ParamFailure(e))
    case Ok(_) =>
      match FromUtf8(buffer)
      case Some(log) => Ok(log)
      case None => Err(Other(NOT_UTF8_MESSAGE))
  }

  /**
   * `get_info_log` exactly as the source computes the buffer length,
   * `(len as usize) - 1`: a log length below 1 aborts.
   */
  function InfoLogOutcomeAsWritten(length: ParamAnswer, buffer: seq<byte>): (r: Outcome<Result<string, ProgramError>>)
    requires length.error == NO_ERROR && length.value >= 1 ==> |buffer| == length.value - 1
    ensures r.Aborts? <==> length.error == NO_ERROR && length.value < 1
    ensures r.Returns? ==> r.value == InfoLogOutcome(length, buffer)
  {
    match ParamOutcome(length)
    case Err(e) => Returns(Err(ParamFailure(e)))
    case Ok(len) =>
      match BufferLengthAsWritten(len)
      case None => Aborts
      case Some(_) =>
        match FromUtf8(buffer)
        case Some(log) => Returns(Ok(log))
        case None => Returns(Err(Other(NOT_UTF8_MESSAGE)))
  }

  /**
   * A program without a log (OpenGL reports `INFO_LOG_LENGTH` 0) makes the
   * source abort, where an empty log is evidently meant.
   */
  lemma EmptyLogAbortsAsWritten()
    ensures InfoLogOutcomeAsWritten(ParamAnswer(0, NO_ERROR), []) == Aborts
    ensures InfoLogOutcome(ParamAnswer(0, NO_ERROR), []) == Ok([])
  {
  }

  /**
   * `link`: success exactly when the status query succeeds and reports
   * `TRUE`; a failed status query is `Other`; otherwise the log is fetched
   * and becomes `LinkFailed`, or its own error is passed on unchanged.
   */
  function LinkOutcome(a: LogAnswers): (r: Result<(), ProgramError>)
    requires a.Fits()
    ensures r.Ok? <==> a.status.error == NO_ERROR && a.status.value == TRUE
    ensures a.status.error != NO_ERROR ==> r == Err(ParamFailure(GLintFromProgramError(a.status.error)))
    ensures a.status.error == NO_ERROR && a.status.value != TRUE && InfoLogOutcome(a.length, a.buffer).Ok? ==>
              r == Err(LinkFailed(InfoLogOutcome(a.length, a.buffer).value))
    ensures a.status.error == NO_ERROR && a.status.value != TRUE && InfoLogOutcome(a.length, a.buffer).Err? ==>
              r == Err(InfoLogOutcome(a.length, a.buffer).error)
    ensures r.Err? && r.error.LinkFailed? ==> Encode(r.error.log) == a.buffer
  {
    match ParamOutcome(a.status)
    case Err(e) => Err(ParamFailure(e))
    case Ok(status) =>
      if TRUE as GLint == status then Ok(())
      else
        match InfoLogOutcome(a.length, a.buffer)
        case Ok(log) => Err(LinkFailed(log))
        case Err(err) => Err(err)
  }

  /** The driver calls of `param_from_program`. */
  function ParamCalls(id: GLuint, pname: GLenum): seq<GlCall>
  {
    [GetProgramiv(id, pname), GetError]
  }

  /** The driver calls of `get_info_log`: the length query, then the fetch if it succeeded. */
  function InfoLogCalls(id: GLuint, length: ParamAnswer): seq<GlCall>
  {
    ParamCalls(id, INFO_LOG_LENGTH) + (if length.error == NO_ERROR then [GetProgramInfoLog(id, length.value)] else [])
  }

  /** The driver calls of `link`: the log is asked for only after a definite failure. */
  function LinkCalls(id: GLuint, a: LogAnswers): seq<GlCall>
  {
    [LinkProgram(id)] + ParamCalls(id, LINK_STATUS)
      + (if a.status.error == NO_ERROR && a.status.value != TRUE then InfoLogCalls(id, a.length) else [])
  }

  /**
   * `shaders.retain(|el| el != shader)`: every element equal to `shader`
   * goes, every other one stays, in its order.
   */
  function WithoutShader(shaders: seq<Shader>, shader: Shader): (r: seq<Shader>)
    ensures forall x :: x in r <==> x in shaders && x != shader
    ensures forall x :: x != shader ==> multiset(r)[x] == multiset(shaders)[x]
    ensures shader !in shaders ==> r == shaders
  {
    if shaders == [] then []
    else
      assert shaders == [shaders[0]] + shaders[1..];
      if shaders[0] == shader then WithoutShader(shaders[1..], shader)
      else [shaders[0]] + WithoutShader(shaders[1..], shader)
  }

  /** Retaining distributes over concatenation, so the kept elements stay in order. */
  lemma {:induction false} WithoutShaderAppend(a: seq<Shader>, b: seq<Shader>, shader: Shader)
    ensures WithoutShader(a + b, shader) == WithoutShader(a, shader) + WithoutShader(b, shader)
    decreases |a|
  {
    if a == [] {
      assert a + b == b;
    } else {
      assert (a + b)[0] == a[0];
      assert (a + b)[1..] == a[1..] + b;
      WithoutShaderAppend(a[1..], b, shader);
    }
  }

  /** Retaining twice is retaining once. */
  lemma {:induction false} WithoutShaderIdempotent(shaders: seq<Shader>, shader: Shader)
    ensures WithoutShader(WithoutShader(shaders, shader), shader) == WithoutShader(shaders, shader)
  {
    var r := WithoutShader(shaders, shader);
    assert shader !in r;
  }

  /**
   * Detaching a shader undoes attaching it: the list loses every copy of it
   * and keeps the rest in order, as if it had never been attached.
   */
  lemma {:induction false} DetachUndoesAttach(shaders: seq<Shader>, shader: Shader)
    ensures WithoutShader(shaders + [shader], shader) == WithoutShader(shaders, shader)
    ensures shader !in shaders ==> WithoutShader(shaders + [shader], shader) == shaders
  {
    WithoutShaderAppend(shaders, [shader], shader);
    assert WithoutShader([shader], shader) == [];
    assert WithoutShader(shaders, shader) + [] == WithoutShader(shaders, shader);
  }

  /** The driver calls of attaching `shaders` in order, each followed by `GetError`. */
  function AttachCalls(id: GLuint, shaders: seq<Shader>): (r: seq<GlCall>)
    ensures |r| == 2 * |shaders|
  {
    if shaders == [] then []
    else AttachCalls(id, shaders[..|shaders| - 1]) + [AttachShader(id, shaders[|shaders| - 1].id), GetError]
  }

  /** Shader `i` is attached by call `2 * i`, whose error is read by call `2 * i + 1`. */
  lemma {:induction false} AttachCallsAt(id: GLuint, shaders: seq<Shader>, i: nat)
    requires i < |shaders|
    ensures AttachCalls(id, shaders)[2 * i] == AttachShader(id, shaders[i].id)
    ensures AttachCalls(id, shaders)[2 * i + 1] == GetError
    decreases |shaders|
  {
    var n := |shaders| - 1;
    if i < n {
      AttachCallsAt(id, shaders[..n], i);
    }
  }

  /** The driver calls that detach `shaders`, one per shader, in order. */
  function DetachCalls(id: GLuint, shaders: seq<Shader>): (r: seq<GlCall>)
    ensures |r| == |shaders|
    ensures forall i :: 0 <= i < |shaders| ==> r[i] == DetachShader(id, shaders[i].id)
  {
    if shaders == [] then []
    else DetachCalls(id, shaders[..|shaders| - 1]) + [DetachShader(id, shaders[|shaders| - 1].id)]
  }

  /**
   * The driver calls of `Drop for Program`: one detach per attached shader in
   * attach order, the `IsProgram` check, and the delete only if it said yes.
   */
  function DropCalls(id: GLuint, shaders: seq<Shader>, isProgram: GLboolean): (r: seq<GlCall>)
    ensures |r| == |shaders| + (if isProgram == TRUE then 2 else 1)
    ensures r[..|shaders|] == DetachCalls(id, shaders)
    ensures r[|shaders|] == IsProgram(id)
    ensures DeleteProgram(id) in r <==> isProgram == TRUE
    ensures isProgram == TRUE ==> r[|r| - 1] == DeleteProgram(id)
  {
    var detach := DetachCalls(id, shaders);
    var r := detach + [IsProgram(id)] + (if isProgram == TRUE then [DeleteProgram(id)] else []);
    assert r[..|shaders|] == detach;
    r
  }

  /** The index of the first failed attach, or `|errors|` when none failed. */
  function FirstFailure(errors: seq<GLenum>): (k: nat)
    ensures k <= |errors|
    ensures forall i :: 0 <= i < k ==> errors[i] == NO_ERROR
    ensures k < |errors| ==> errors[k] != NO_ERROR
  {
    if errors == [] || errors[0] != NO_ERROR then 0 else 1 + FirstFailure(errors[1..])
  }

  /**
   * The error `link_new` returns: the first failed attach ends it with
   * `LinkFailed` carrying the attach error's message, else a failed link's
   * error; `None` when it succeeds.
   */
  function LinkNewError(shaders: seq<Shader>, attachErrors: seq<GLenum>, a: LogAnswers): (r: Option<ProgramError>)
    requires |attachErrors| == |shaders| && a.Fits()
    ensures FirstFailure(attachErrors) < |shaders| ==> r == Some(LinkFailed(ATTACH_SHADER_MESSAGE))
    ensures FirstFailure(attachErrors) == |shaders| ==> (r.None? <==> LinkOutcome(a).Ok?)
    ensures FirstFailure(attachErrors) == |shaders| && r.Some? ==> r.value == LinkOutcome(a).error
  {
    if FirstFailure(attachErrors) < |shaders| then Some(LinkFailed(ATTACH_SHADER_MESSAGE))
    else if LinkOutcome(a).Err? then Some(LinkOutcome(a).error)
    else None
  }

  /**
   * The driver calls of `link_new`: create, attach up to and including the
   * first failure, then either drop the program (whose list holds the
   * shaders attached so far) or link and, if that fails, drop it.
   */
  function LinkNewCalls(created: GLuint, shaders: seq<Shader>, attachErrors: seq<GLenum>, a: LogAnswers, isProgram: GLboolean): seq<GlCall>
    requires |attachErrors| == |shaders| && a.Fits()
  {
    var k := FirstFailure(attachErrors);
    if k < |shaders| then
      [CreateProgram] + AttachCalls(created, shaders[..k + 1]) + DropCalls(created, shaders[..k], isProgram)
    else
      [CreateProgram] + AttachCalls(created, shaders) + LinkCalls(created, a)
        + (if LinkOutcome(a).Err? then DropCalls(created, shaders, isProgram) else [])
  }

  /** The calls of `link_new` when an attach fails: no link, and the drop sees the shaders attached before it. */
  lemma LinkNewCallsOnAttachFailure(log: seq<GlCall>, created: GLuint, shaders: seq<Shader>, attachErrors: seq<GLenum>, a: LogAnswers, isProgram: GLboolean)
    requires |attachErrors| == |shaders| && a.Fits() && FirstFailure(attachErrors) < |shaders|
    ensures log + [CreateProgram] + AttachCalls(created, shaders[..FirstFailure(attachErrors) + 1])
              + DropCalls(created, shaders[..FirstFailure(attachErrors)], isProgram)
         == log + LinkNewCalls(created, shaders, attachErrors, a, isProgram)
  {
    var k := FirstFailure(attachErrors);
    AppendAssoc3(log, [CreateProgram], AttachCalls(created, shaders[..k + 1]), DropCalls(created, shaders[..k], isProgram));
  }

  /** The calls of `link_new` when every attach succeeds: all attaches, the link, and the drop only if it failed. */
  lemma LinkNewCallsAfterAttach(log: seq<GlCall>, created: GLuint, shaders: seq<Shader>, attachErrors: seq<GLenum>, a: LogAnswers, isProgram: GLboolean)
    requires |attachErrors| == |shaders| && a.Fits() && FirstFailure(attachErrors) == |shaders|
    ensures LinkOutcome(a).Err? ==>
      (log + [CreateProgram] + AttachCalls(created, shaders) + LinkCalls(created, a) + DropCalls(created, shaders, isProgram)
         == log + LinkNewCalls(created, shaders, attachErrors, a, isProgram))
    ensures LinkOutcome(a).Ok? ==>
      (log + [CreateProgram] + AttachCalls(created, shaders) + LinkCalls(created, a)
         == log + LinkNewCalls(created, shaders, attachErrors, a, isProgram))
  {
    if LinkOutcome(a).Err? {
      AppendAssoc4(log, [CreateProgram], AttachCalls(created, shaders), LinkCalls(created, a), DropCalls(created, shaders, isProgram));
    } else {
      AppendAssoc3(log, [CreateProgram], AttachCalls(created, shaders), LinkCalls(created, a));
      assert [CreateProgram] + AttachCalls(created, shaders) + LinkCalls(created, a) + []
          == [CreateProgram] + AttachCalls(created, shaders) + LinkCalls(created, a);
    }
  }

  /** A program object and the shaders attached through it, in attach order. */
  class Program {
    const id: GLuint
    var shaders: seq<Shader>

    /** `internal_new`: `created` is the id `CreateProgram` returns. */
    constructor (gl: Driver, created: GLuint)
      modifies gl
      ensures id == created && shaders == []
      ensures gl.log == old(gl.log) + [CreateProgram]
    {
      id := created;
      shaders := [];
      new;
      gl.Call(CreateProgram);
    }

    /** `get_id`. */
    function GetId(): (r: GLuint)
      ensures r == id
    {
      id
    }

    /**
     * `attach_shader`: `error` is what `GetError` reports after
     * `AttachShader`; only a clean attach records the shader.
     */
    method AttachShader(gl: Driver, shader: Shader, error: GLenum) returns (r: Result<(), AttachShaderError>)
      modifies this, gl
      ensures r.Ok? <==> error == NO_ERROR
      ensures shaders == if error == NO_ERROR then old(shaders) + [shader] else old(shaders)
      ensures gl.log == old(gl.log) + [Gl.AttachShader(id, shader.id), GetError]
    {
      gl.Call(Gl.AttachShader(id, shader.id));
      gl.Call(GetError);
      if error == NO_ERROR {
        shaders := shaders + [shader];
        r := Ok(());
      } else {
        r := Err(AttachShaderError);
      }
    }

    /**
     * `detach_shader`: `error` is what `GetError` reports after
     * `DetachShader`; a clean detach forgets every equal shader.
     */
    method DetachShader(gl: Driver, shader: Shader, error: GLenum) returns (r: Result<(), DetachShaderError>)
      modifies this, gl
      ensures r.Ok? <==> error == NO_ERROR
      ensures shaders == if error == NO_ERROR then WithoutShader(old(shaders), shader) else old(shaders)
      ensures gl.log == old(gl.log) + [Gl.DetachShader(id, shader.id), GetError]
    {
      gl.Call(Gl.DetachShader(id, shader.id));
      gl.Call(GetError);
      if error == NO_ERROR {
        shaders := WithoutShader(shaders, shader);
        r := Ok(());
      } else {
        r := Err(DetachShaderError);
      }
    }

    /** `param_from_program`: `answer` is what `GetProgramiv` and `GetError` report. */
    method ParamFromProgram(gl: Driver, pname: GLenum, answer: ParamAnswer) returns (r: Result<GLint, GLintFromProgramError>)
      modifies gl
      ensures r == ParamOutcome(answer)
      ensures gl.log == old(gl.log) + ParamCalls(id, pname)
    {
      gl.Call(GetProgramiv(id, pname));
      gl.Call(GetError);
      if answer.error == NO_ERROR {
        r := Ok(answer.value);
      } else {
        r := Err(GLintFromProgramError(answer.error));
      }
    }

    /** `get_info_log`, with the buffer length clamped at zero. */
    method GetInfoLog(gl: Driver, length: ParamAnswer, buffer: seq<byte>) returns (r: Result<string, ProgramError>)
      requires length.error == NO_ERROR ==> |buffer| == BufferLength(length.value)
      modifies gl
      ensures r == InfoLogOutcome(length, buffer)
      ensures gl.log == old(gl.log) + InfoLogCalls(id, length)
    {
      var len := ParamFromProgram(gl, INFO_LOG_LENGTH, length);
      match len {
        case Err(obj) =>
          r := Err(Other(ParamErrorMessage(obj)));
        case Ok(n) =>
          gl.Call(GetProgramInfoLog(id, n));
          var text := FromUtf8(buffer);
          if text.Some? {
            r := Ok(text.value);
          } else {
            r := Err(Other(NOT_UTF8_MESSAGE));
          }
      }
    }

    /** `link`: `a` holds the driver's answers to the status and log queries. */
    method Link(gl: Driver, a: LogAnswers) returns (r: Result<(), ProgramError>)
      requires a.Fits()
      modifies gl
      ensures r == LinkOutcome(a)
      ensures gl.log == old(gl.log) + LinkCalls(id, a)
    {
      gl.Call(LinkProgram(id));
      var status := ParamFromProgram(gl, LINK_STATUS, a.status);
      match status {
        case Err(obj) =>
          r := Err(Other(ParamErrorMessage(obj)));
        case Ok(s) =>
          if TRUE as GLint == s {
            r := Ok(());
          } else {
            var log := GetInfoLog(gl, a.length, a.buffer);
            match log {
              case Ok(text) => r := Err(LinkFailed(text));
              case Err(err) => r := Err(err);
            }
          }
      }
    }

    /** `is_program`: `answer` is what `IsProgram` returns. */
    method IsProgramObject(gl: Driver, answer: GLboolean) returns (b: bool)
      modifies gl
      ensures b <==> answer == TRUE
      ensures gl.log == old(gl.log) + [IsProgram(id)]
    {
      gl.Call(IsProgram(id));
      b := answer == TRUE;
    }

    /**
     * `Drop for Program`: drain the list detaching each shader, then delete
     * if the driver still knows the id; `isProgram` is its answer.
     */
    method Drop(gl: Driver, isProgram: GLboolean)
      modifies this, gl
      ensures shaders == []
      ensures gl.log == old(gl.log) + DropCalls(id, old(shaders), isProgram)
    {
      var drained := shaders;
      shaders := [];
      DetachAll(gl, id, drained);
      ghost var detached := gl.log;
      var valid := IsProgramObject(gl, isProgram);
      if valid {
        gl.Call(DeleteProgram(id));
      }
      assert gl.log == detached + [IsProgram(id)] + (if isProgram == TRUE then [DeleteProgram(id)] else []);
    }
  }

  /**
   * The loop of `link_new`: attach `shaders` in order to a program that has
   * none, stopping at the first failure; on failure the program holds the
   * shaders attached before it.
   */
  method AttachEach(gl: Driver, program: Program, shaders: seq<Shader>, attachErrors: seq<GLenum>) returns (all: bool)
    requires |attachErrors| == |shaders| && program.shaders == []
    modifies gl, program
    ensures all <==> FirstFailure(attachErrors) == |shaders|
    ensures program.shaders == shaders[..FirstFailure(attachErrors)]
    ensures all ==> gl.log == old(gl.log) + AttachCalls(program.id, shaders)
    ensures !all ==> gl.log == old(gl.log) + AttachCalls(program.id, shaders[..FirstFailure(attachErrors) + 1])
  {
    var i := 0;
    while i < |shaders|
      invariant i <= FirstFailure(attachErrors)
      invariant program.shaders == shaders[..i]
      invariant gl.log == old(gl.log) + AttachCalls(program.id, shaders[..i])
    {
      var attached := program.AttachShader(gl, shaders[i], attachErrors[i]);
      AttachCallsSnoc(old(gl.log), program.id, shaders, i);
      FirstFailureAt(attachErrors, i);
      if attached.Err? {
        return false;
      }
      i := i + 1;
    }
    assert shaders[..i] == shaders;
    return true;
  }

  /** One more attach extends the attach calls of a prefix of `shaders` by one shader's calls. */
  lemma AttachCallsSnoc(log: seq<GlCall>, id: GLuint, shaders: seq<Shader>, i: nat)
    requires i < |shaders|
    ensures log + AttachCalls(id, shaders[..i]) + [AttachShader(id, shaders[i].id), GetError]
         == log + AttachCalls(id, shaders[..i + 1])
  {
    assert shaders[..i + 1][..i] == shaders[..i];
  }

  /** Up to the first failure, an attach fails exactly at the first failure. */
  lemma FirstFailureAt(errors: seq<GLenum>, i: nat)
    requires i <= FirstFailure(errors) && i < |errors|
    ensures errors[i] == NO_ERROR <==> i < FirstFailure(errors)
  {
  }

  /** The loop of `Drop for Program` that detaches each drained shader. */
  method DetachAll(gl: Driver, id: GLuint, drained: seq<Shader>)
    modifies gl
    ensures gl.log == old(gl.log) + DetachCalls(id, drained)
  {
    for i := 0 to |drained|
      invariant gl.log == old(gl.log) + DetachCalls(id, drained[..i])
    {
      gl.Call(Gl.DetachShader(id, drained[i].id));
      assert drained[..i + 1][..i] == drained[..i];
    }
    assert drained[..|drained|] == drained;
  }

  /** `PartialEq for Program`: equal when the ids are, whatever is attached. */
  predicate Eq(a: Program, b: Program): (r: bool)
    ensures r <==> a.id == b.id
    ensures a == b ==> r
  {
    a.id == b.id
  }

  /** Program equality is an equivalence that ignores the attached shaders. */
  lemma EqIsEquivalence(a: Program, b: Program, c: Program)
    ensures Eq(a, a)
    ensures Eq(a, b) ==> Eq(b, a)
    ensures Eq(a, b) && Eq(b, c) ==> Eq(a, c)
    ensures a.id == b.id ==> Eq(a, b)
  {
  }

  /**
   * `link_new`: `created` is the id `CreateProgram` returns, `attachErrors`
   * the `GetError` code after each attach, `a` the link answers and
   * `isProgram` the answer to `IsProgram` when a failed program is dropped.
   */
  method LinkNew(gl: Driver, shaders: seq<Shader>, created: GLuint, attachErrors: seq<GLenum>, a: LogAnswers, isProgram: GLboolean)
    returns (r: Result<Program, ProgramError>)
    requires |attachErrors| == |shaders| && a.Fits()
    modifies gl
    ensures r.Err? <==> LinkNewError(shaders, attachErrors, a).Some?
    ensures r.Err? ==> r.error == LinkNewError(shaders, attachErrors, a).value
    ensures r.Ok? ==> fresh(r.value) && r.value.id == created && r.value.shaders == shaders
    ensures gl.log == old(gl.log) + LinkNewCalls(created, shaders, attachErrors, a, isProgram)
  {
    var program := new Program(gl, created);
    var attachedAll := AttachEach(gl, program, shaders, attachErrors);
    if !attachedAll {
      program.Drop(gl, isProgram);
      LinkNewCallsOnAttachFailure(old(gl.log), created, shaders, attachErrors, a, isProgram);
      assert gl.log == old(gl.log) + LinkNewCalls(created, shaders, attachErrors, a, isProgram);
      return Err(LinkFailed(ATTACH_SHADER_MESSAGE));
    }
    assert program.shaders == shaders;
    LinkNewCallsAfterAttach(old(gl.log), created, shaders, attachErrors, a, isProgram);
    var linked := program.Link(gl, a);
    if linked.Err? {
      program.Drop(gl, isProgram);
      assert gl.log == old(gl.log) + LinkNewCalls(created, shaders, attachErrors, a, isProgram);
      return Err(linked.error);
    }
    assert gl.log == old(gl.log) + LinkNewCalls(created, shaders, attachErrors, a, isProgram);
    r := Ok(program);
  }
}
