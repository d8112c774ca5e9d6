/**
 * The part of the info-log protocol that `Program::get_info_log` and
 * `Shader::get_info_log` share: ask the driver for `INFO_LOG_LENGTH` (the
 * log's length counting its NUL terminator), allocate a buffer one byte
 * shorter, and let the driver fill it.
 */
module InfoLog {
  import opened Gl
  import opened Wrappers

  /**
   * The buffer length as the source computes it, `(len as usize) - 1`:
   * for `len == 0` the subtraction underflows and for a negative `len` the
   * cast yields a capacity no allocation can meet, so both abort.
   */
  function BufferLengthAsWritten(len: GLint): (r: Option<nat>)
    ensures r.Some? <==> len >= 1
    ensures r.Some? ==> r.value + 1 == len
  {
    if len >= 1 then Some(len - 1) else None
  }

  /**
   * The buffer length with the terminator left out and a missing log (OpenGL
   * reports length 0 when an object has no log) read as an empty one.
   */
  function BufferLength(len: GLint): (r: nat)
    ensures len >= 1 ==> r + 1 == len
    ensures len <= 1 ==> r == 0
  {
    if len >= 1 then len - 1 else 0
  }

  /** Wherever the source does not abort, the corrected length is the source's. */
  lemma BufferLengthAgrees(len: GLint)
    ensures BufferLengthAsWritten(len).Some? ==> BufferLength(len) == BufferLengthAsWritten(len).value
    ensures BufferLengthAsWritten(len).None? ==> BufferLength(len) == 0
  {
  }

  /**
   * The driver's answers to a status query (`COMPILE_STATUS` or
   * `LINK_STATUS`), to the log-length query, and the bytes it leaves in the
   * log buffer.
   */
  datatype LogAnswers = LogAnswers(status: ParamAnswer, length: ParamAnswer, buffer: seq<byte>)
  {
    /** The driver fills the whole buffer it is given. */
    predicate Fits()
    {
      length.error == NO_ERROR ==> |buffer| == BufferLength(length.value)
    }
  }
}
