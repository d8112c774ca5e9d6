# kugel-rs ownership layer, modelled in Dafny

kugel-rs wraps the OpenGL driver in Rust types that own driver objects and
track driver bindings. This project models that bookkeeping:

- the owning handles: `Buffer`, the two `VertexArray` drafts, `Shader` and
  `Program`. Each Drop deletes its object, either only when the driver
  still recognises the id, or unconditionally;
- the list of shaders attached to a `Program`. `attach_shader` appends to
  it, `detach_shader` retains everything but the detached shader, and
  `Drop` drains it;
- how `compile`, `link` and `get_info_log` classify the driver's answers,
  and the info-log protocol behind them;
- the binding-slot trackers:
  - both program-in-use trackers;
  - the buffer targets;
  - the vertex-array tracker;
  - the scoped bound-vertex-array proxy;
- the generators that turn driver-filled id vectors into handles.

The driver is a class `Gl.Driver` whose ghost `log` records every call the
wrapper makes, queries included. Every answer the driver gives is a
parameter of the operation that asks for it:

- `GetError` codes;
- the answers of `IsBuffer`, `IsShader` and `IsProgram`;
- status values;
- log lengths and log bytes;
- generated ids.

Each operation's contract states the return value, the new tracker state,
and the exact calls it appends to the log.

`Bindings.Bound` reads the log as the driver's binding state: the id that
the last `UseProgram`, `BindBuffer(target, _)` or `BindVertexArray` left in
its slot, or 0 when none has been issued. The tracker contracts are stated
against it. `StatePrograms.StateProgram.WithUse` skips a redundant
`UseProgram`, and skipping is sound: a tracker that mirrors the driver
leaves the driver using the requested program. `ContextStateVa.StateVertexArray.Unbind`
binds the tracked array's own name again rather than 0, so the driver keeps
that array bound (`ContextStateVa.UnbindKeepsBinding`). The model keeps this
behaviour as the source has it.

Each source file is its own module, and the drafts are not merged. There
are two exceptions:

- src/context/buffer.rs and src/context/buffer_targets.rs expand the same
  tracker macro for both targets, so `ContextBuffer.BufferTarget` is one
  class whose `target` constant holds the enum;
- src/context/mod.rs declares a `BufferTargets` struct with the same field
  names as src/context/buffer_targets.rs, so it is modelled once, in
  `ContextBufferTargets.BufferTargets`. The two differ in their field types:
  mod.rs uses the targets of src/context/buffer.rs, which have no
  `buffer_data`, while buffer_targets.rs uses its own array target, which
  does. The model has one target class for both, so a `Context`'s array
  target can reach `ContextBufferTargets.BufferData`, which the mod.rs
  struct does not offer.

The shared vocabulary sits in these modules:

- `Gl`: types, enum values, the call datatype, `as GLsizei`, and the
  `map`/`collect` over ids;
- `Wrappers`: `Option`, `Result`, and `Outcome`, which marks a panic;
- `Utf8`: `String::from_utf8` and `str::as_bytes`, as a checked decoder and
  an encoder proved inverse to each other;
- `InfoLog`: the buffer length of the info-log protocol.

## Model

| member | source | states |
|---|---|---|
| Shaders.EqIffSameId | src/shader.rs:15-19 | two shaders are equal exactly when their ids are |
| Shaders.ParamErrorMessage | src/shader.rs:211-220 | `INVALID_ENUM`, `INVALID_VALUE` and `INVALID_OPERATION` each map to their own fixed message, and every other code maps to the fallback message (each in both directions) |
| Shaders.Display | src/shader.rs:197-204 | the text is the variant's header followed verbatim by the log or message |
| Shaders.ParamOutcome | src/shader.rs:182-189 | `Ok(value)` exactly when `GetError` reports `NO_ERROR`; otherwise the error carries that code |
| Shaders.ParamFromShader | src/shader.rs:178-189 | returns `ParamOutcome` of the driver's answer and appends `GetShaderiv(id, pname)`, `GetError` |
| Shaders.InfoLogOutcome | src/shader.rs:111-143 | a failed length query becomes `Other` with that code's message. Otherwise the result is `Ok` exactly when the buffer is valid UTF-8, and then it is the string whose UTF-8 encoding is the buffer. Invalid UTF-8 gives `Other("ShaderInfoLog not valid utf8")`. A length of at most 1 gives the empty log |
| Shaders.InfoLogOutcomeAsWritten | src/shader.rs:114-122 | the source's length arithmetic: it aborts exactly when the length query succeeds with a length below 1, and otherwise agrees with `InfoLogOutcome` |
| Shaders.EmptyLogAbortsAsWritten | src/shader.rs:116-118 | for a shader with no log (length 0), the source aborts where an empty log is meant |
| Shaders.GetInfoLog | src/shader.rs:111-143 | returns `InfoLogOutcome`. It appends the length query, then `GetShaderInfoLog(id, len)` only if that query succeeded |
| Shaders.CompileOutcome | src/shader.rs:77-109 | `Ok` exactly when the status query succeeds with `TRUE`. A failed status query gives `Other`. Any other status gives `CompileFailed(log)`, where the log encodes to the driver's buffer, or the log-retrieval error unchanged |
| Shaders.Compile | src/shader.rs:77-109 | returns `CompileOutcome`; appends `CompileShader`, the status query, and the log queries only after a definite failure |
| Shaders.DropCalls | src/shader.rs:158-168 | first `IsShader(id)`, then `DeleteShader(id)` exactly when the driver answered `TRUE`, so two calls or one; no other id is deleted |
| Shaders.Drop | src/shader.rs:158-168 | appends `DropCalls` for the driver's `IsShader` answer |
| Shaders.IsShaderObject | src/shader.rs:153-155 | true exactly when `IsShader` answers `TRUE`; appends that query |
| Shaders.New | src/shader.rs:22-37 | the handle wraps the id `CreateShader(ty)` returned; appends that call |
| Shaders.SetSource | src/shader.rs:69-75 | appends `ShaderSource(id, bytes)`, where the bytes are the source's UTF-8 encoding |
| Shaders.CompileNewOrder | src/shader.rs:39-53 | `compile_new` issues `CreateShader(ty)`, then `ShaderSource`, then `CompileShader` |
| Shaders.CompileNewOutcome | src/shader.rs:39-53 | `Ok` of the new shader exactly when compiling succeeds, otherwise the compile error unchanged |
| Shaders.CompileNew | src/shader.rs:39-53 | returns `CompileNewOutcome`. It appends create, source, compile and, after an error, the drop of the new shader |
| Shaders.CompileVertexShader | src/shader.rs:55-58 | `compile_new` with `VERTEX_SHADER`; the first call appended is `CreateShader(VERTEX_SHADER)` |
| Shaders.CompileFragmentShader | src/shader.rs:60-63 | `compile_new` with `FRAGMENT_SHADER`; the first call appended is `CreateShader(FRAGMENT_SHADER)` |
| Utf8.FromUtf8 | src/shader.rs:122 | `String::from_utf8`: `Some` exactly when the bytes are well-formed UTF-8, and then the string encodes back to exactly those bytes |
| Utf8.Encode | src/shader.rs:73 | `str::as_bytes`: always well-formed UTF-8, at least one byte per character |
| Utf8.EncodeDecode | src/program.rs:153 | decoding well-formed bytes and encoding again gives the bytes back |
| Utf8.DecodeEncode | src/program.rs:153 | encoding a string and decoding it gives the string back |
| InfoLog.BufferLengthAsWritten | src/program.rs:147-149 | `(len as usize) - 1` is defined exactly for `len >= 1`, and is then `len - 1` |
| InfoLog.BufferLength | src/program.rs:147-149 | the intended length: `len - 1` when `len >= 1`, and 0 otherwise |
| InfoLog.BufferLengthAgrees | src/program.rs:147-149 | where the source does not abort, the intended length equals the source's |
| Programs.Eq | src/program.rs:19-23 | two programs are equal exactly when their ids are; it reads no field, so the attached shaders never matter, and a program equals itself |
| Programs.EqIsEquivalence | src/program.rs:17-23 | program equality compares ids only and is reflexive, symmetric and transitive |
| Programs.ParamErrorMessage | src/program.rs:264-273 | the three driver codes each map to their own fixed message, and every other code maps to the fallback message |
| Programs.Display | src/program.rs:232-239 | the variant's header followed verbatim by the log or message |
| Programs.ParamOutcome | src/program.rs:217-224 | `Ok(value)` exactly when `GetError` reports `NO_ERROR`; otherwise the error carries that code |
| Programs.Program.ParamFromProgram | src/program.rs:213-224 | returns `ParamOutcome`; appends `GetProgramiv(id, pname)`, `GetError` |
| Programs.InfoLogOutcome | src/program.rs:142-174 | as for shaders, with `Other("ProgramInfoLog not valid utf8")` for invalid UTF-8 |
| Programs.InfoLogOutcomeAsWritten | src/program.rs:145-153 | aborts exactly when the length query succeeds with a length below 1; otherwise agrees with `InfoLogOutcome` |
| Programs.EmptyLogAbortsAsWritten | src/program.rs:147-149 | for a program with no log (length 0), the source aborts where an empty log is meant |
| Programs.Program.GetInfoLog | src/program.rs:142-174 | returns `InfoLogOutcome`; appends the length query, then `GetProgramInfoLog` only if it succeeded |
| Programs.LinkOutcome | src/program.rs:108-140 | `Ok` exactly when the status query succeeds with `TRUE`. A failed status query gives `Other`. Any other status gives `LinkFailed(log)` or the log error unchanged |
| Programs.Program.Link | src/program.rs:108-140 | returns `LinkOutcome`; appends `LinkProgram`, the status query, and the log queries only after a definite failure |
| Programs.Program.constructor | src/program.rs:26-42 | the id `CreateProgram` returned, with no shaders attached; appends `CreateProgram` |
| Programs.Program.GetId | src/program.rs:64-66 | the program's id |
| Programs.Program.AttachShader | src/program.rs:68-86 | with `NO_ERROR`, appends the shader to the end of the list and returns `Ok`. With any other code, the list is unchanged and the result is `AttachShaderError`. Appends `AttachShader`, `GetError` |
| Programs.Program.DetachShader | src/program.rs:88-106 | with `NO_ERROR`, the list becomes `WithoutShader(list, shader)`; with any other code, it is unchanged and the result is `DetachShaderError` |
| Programs.WithoutShader | src/program.rs:97 | `retain`: an element survives exactly when it is not the shader, and every other element keeps its multiplicity |
| Programs.WithoutShaderAppend | src/program.rs:97 | retaining distributes over concatenation, so survivors keep their order |
| Programs.WithoutShaderIdempotent | src/program.rs:97 | retaining twice is retaining once |
| Programs.DetachUndoesAttach | src/program.rs:68-106 | detaching after attaching leaves the list as it was without the shader |
| Programs.AttachCallsAt | src/program.rs:49-53 | the attach calls of `link_new`: shader `i` is attached by call `2i`, followed by its `GetError` |
| Programs.DetachCalls | src/program.rs:193-195 | one `DetachShader(id, s)` per attached shader, in attach order |
| Programs.DropCalls | src/program.rs:189-203 | the detaches in attach order, then `IsProgram(id)`, then `DeleteProgram(id)` exactly when it answered `TRUE` |
| Programs.DetachAll | src/program.rs:193-195 | the drain loop appends `DetachCalls` of the drained list |
| Programs.Program.IsProgramObject | src/program.rs:184-186 | true exactly when `IsProgram` answers `TRUE`; appends that query |
| Programs.Program.Drop | src/program.rs:189-203 | the list ends empty; appends `DropCalls` of the old list |
| Programs.FirstFailure | src/program.rs:49-53 | the index of the first attach error: every earlier attach succeeded, and the one at the index failed |
| Programs.AttachEach | src/program.rs:49-53 | attaches in slice order and stops at the first failure; the program then holds exactly the shaders attached before it |
| Programs.LinkNewError | src/program.rs:44-62 | a failed attach gives `LinkFailed("Failed to attach shader to program.")`; otherwise the result is the link's error, if any |
| Programs.LinkNew | src/program.rs:44-62 | `Err` exactly as `LinkNewError` says. Otherwise it returns a fresh program with the given id and all the shaders, in order. The log covers the creation, the attach calls, the link, and the drop of a failed program |
| StatePrograms.StateProgram.constructor | src/state_program.rs:11-15 | no program in use |
| StatePrograms.WithUseCalls | src/state_program.rs:21-36 | no call exactly when that program is already tracked; otherwise the single call `UseProgram(new id)` |
| StatePrograms.StateProgram.WithUse | src/state_program.rs:17-38 | the tracked id becomes the program's in every branch; returns the tracker; appends `WithUseCalls`; keeps the tracker mirroring the driver |
| StatePrograms.WithUseInstalls | src/state_program.rs:21-36 | skipping the call is sound: from a mirroring tracker, the driver's program slot ends up holding the new id |
| StatePrograms.WithUseTwice | src/state_program.rs:22-29 | two `with_use` calls with the same program in a row issue at most one `UseProgram`, from the first |
| StatePrograms.DoneCalls | src/state_program.rs:41-48 | `UseProgram(0)` exactly when a program is in use |
| StatePrograms.StateProgram.Done | src/state_program.rs:41-48 | the id becomes `None`; appends `DoneCalls`; the driver then uses no program if one was tracked |
| StatePrograms.DoneUnuses | src/state_program.rs:42-45 | after `done` on a tracker with a program in use, the driver's program slot holds 0 |
| StatePrograms.DoneIdempotent | src/state_program.rs:42-47 | a second `done` appends nothing |
| StatePrograms.StateProgram.Drop | src/state_program.rs:51-55 | exactly the contract of `done` |
| ContextStatePrograms.StateProgram.constructor | src/context/state_program.rs:12-16 | no program held |
| ContextStatePrograms.StateProgram.Set | src/context/state_program.rs:18-24 | records the program and always appends `UseProgram(id)`, even when it was already set; the result is always `Ok(self)` |
| ContextStatePrograms.UnsetCalls | src/context/state_program.rs:26-34 | `UseProgram(0)` exactly when a program is held |
| ContextStatePrograms.StateProgram.Unset | src/context/state_program.rs:26-34 | the slot ends empty; appends `UnsetCalls`; the driver then uses no program if one was held |
| ContextStatePrograms.UnsetIdempotent | src/context/state_program.rs:26-34 | a second `unset` appends nothing |
| ContextBuffer.BufferTarget.Array | src/context/buffer.rs:37-39 | the array target, unbound |
| ContextBuffer.BufferTarget.ElementArray | src/context/buffer.rs:47-49 | the element-array target, unbound |
| ContextBuffer.BufferTarget.Bind | src/context/buffer.rs:9-13 | the slot becomes `Some(b)`, replacing any previous buffer; appends `BindBuffer(target, id)` for its own target; the result is always `Ok(self)`; every other driver slot is unchanged |
| ContextBuffer.BufferTarget.Unbind | src/context/buffer.rs:15-18 | appends `BindBuffer(target, 0)` even when already unbound; the slot becomes `None`; other driver slots are unchanged |
| ContextBuffer.BufferTarget.Drop | src/context/buffer.rs:21-25 | exactly one `BindBuffer(target, 0)` |
| ContextBufferTargets.ByteSize | src/context/buffer_targets.rs:48 | `data.len() * size_of::<GLfloat>()`, a whole number of floats |
| ContextBufferTargets.BufferData | src/context/buffer_targets.rs:44-53 | requires non-empty data; appends `BufferData(ARRAY_BUFFER, byte size, data, usage)`; the tracked buffer and every binding are unchanged |
| ContextBufferTargets.BufferTargets.constructor | src/context/buffer_targets.rs:74-79 | two distinct fresh targets, array and element-array, both unbound |
| ContextBufferTargets.BufferTargets.GenOne | src/context/mod.rs:37-43 | appends `GenBuffers(1)` and wraps the one id the driver wrote |
| ContextBufferTargets.BufferTargets.Gen | src/context/mod.rs:45-54 | appends `GenBuffers(size as GLsizei)`; returns exactly `size` handles, handle `i` wrapping id `i` |
| ContextRoot.Context.constructor | src/context/mod.rs:17-21 | fresh buffer targets, array and element-array, both unbound |
| Gl.AsGLsizei | src/context/mod.rs:48 | `size as GLsizei`: congruent to `size` modulo 2^32, and equal to it below 2^31 |
| Gl.MapIds | src/context/mod.rs:50-53 | one object per id, in order, each made from its own id |
| ContextStateVa.StateVertexArray.constructor | src/context/state_va.rs:13-17 | nothing bound |
| ContextStateVa.StateVertexArray.Bind | src/context/state_va.rs:19-26 | records the array; appends `BindVertexArray(id)`; the result is always `Ok(self)`; the tracker mirrors the driver |
| ContextStateVa.UnbindCalls | src/context/state_va.rs:28-36 | when bound, `BindVertexArray` of the tracked array's own id rather than 0; when unbound, nothing |
| ContextStateVa.StateVertexArray.Unbind | src/context/state_va.rs:28-36 | appends `UnbindCalls`; the slot ends `None`; the driver's vertex-array binding is unchanged |
| ContextStateVa.UnbindKeepsBinding | src/context/state_va.rs:29-33 | from a mirroring tracker, the tracked array is still bound after `unbind` |
| ContextStateVa.UnbindIdempotent | src/context/state_va.rs:29-35 | a second `unbind` appends nothing |
| ContextStateVa.StateVertexArray.Drop | src/context/state_va.rs:74-78 | exactly the contract of `unbind` |
| ContextStateVa.StateVertexArray.GenOne | src/context/state_va.rs:40-50 | appends `GenVertexArrays(1)` and wraps the one id |
| ContextStateVa.StateVertexArray.Gen | src/context/state_va.rs:52-71 | appends `GenVertexArrays(size as GLsizei)`; returns `size` arrays in driver id order |
| StateVertexArrays.ContextVertexArray.constructor | src/state_vertex_array.rs:11-13 | no proxy borrows the slot |
| StateVertexArrays.ContextVertexArray.GenOne | src/state_vertex_array.rs:15-25 | appends `GenVertexArrays(1)` and wraps the one id |
| StateVertexArrays.ContextVertexArray.Gen | src/state_vertex_array.rs:27-46 | returns `size` arrays in driver id order |
| StateVertexArrays.ContextVertexArray.Bind | src/state_vertex_array.rs:48-50 | requires that no proxy exists yet; returns a fresh proxy for this context and array; appends exactly one `BindVertexArray(id)` |
| StateVertexArrays.BoundVertexArray.constructor | src/state_vertex_array.rs:59-74 | borrows the context; appends exactly one `BindVertexArray(id)`; the array is then bound |
| StateVertexArrays.BoundVertexArray.EnableAttrib | src/state_vertex_array.rs:76-79 | appends only `EnableVertexAttribArray(i)`; the binding is unchanged |
| StateVertexArrays.BoundVertexArray.DisableAttrib | src/state_vertex_array.rs:81-84 | appends only `DisableVertexAttribArray(i)`; the binding is unchanged |
| StateVertexArrays.BoundVertexArray.Drop | src/state_vertex_array.rs:87-93 | appends exactly one `BindVertexArray(0)` and releases the context |
| StateVertexArrays.AttribCalls | src/state_vertex_array.rs:76-84 | one call per attribute operation, call `i` being the enable or disable of operation `i`'s index; none touches the vertex-array binding |
| StateVertexArrays.Lifetime | src/state_vertex_array.rs:59-93 | over a proxy's life (`BindVertexArray(id)`, attribute calls, `BindVertexArray(0)`), the array stays bound until the drop, which leaves 0 bound |
| Buffers.FromRaw | src/buffer.rs:9-11 | the handle holds the given id |
| Buffers.GetIdFromRaw | src/buffer.rs:9-15 | `get_id(from_raw(x)) == x` |
| Buffers.GetId | src/buffer.rs:13-15 | wrapping the id again gives the same handle |
| Buffers.IsBufferObject | src/buffer.rs:18-20 | true exactly when `IsBuffer` answers `TRUE`; appends that query; the handle is a value and stays unchanged |
| Buffers.DropCalls | src/buffer.rs:23-32 | `IsBuffer(id)`, then `DeleteBuffers(1, id)` exactly when it answered `TRUE`, so two calls or one; only its own id is deleted, at most once |
| Buffers.Drop | src/buffer.rs:23-32 | appends `DropCalls` for the driver's answer |
| Va.FromRaw | src/va.rs:9-11 | the handle holds the given id |
| Va.GetId | src/va.rs:13-15 | wrapping the returned id again gives the same handle |
| Va.GetIdFromRaw | src/va.rs:9-15 | `get_id(from_raw(x)) == x` |
| Va.IsVertexArrayObject | src/va.rs:19-21 | true exactly when `IsVertexArray` answers `TRUE`; appends that query |
| Va.Drop | src/va.rs:24-30 | always exactly one `DeleteVertexArrays(1, id)`, with no validity check |
| VertexArrays.FromRaw | src/vertex_array.rs:11-13 | the handle holds the given id |
| VertexArrays.GetId | src/vertex_array.rs:16-18 | wrapping the returned id again gives the same handle |
| VertexArrays.GetIdFromRaw | src/vertex_array.rs:11-18 | `get_id(from_raw(x)) == x` |
| VertexArrays.EnableAttrib | src/vertex_array.rs:30-33 | appends `EnableVertexArrayAttrib(id, i)`; the binding is unchanged |
| VertexArrays.DisableAttrib | src/vertex_array.rs:45-48 | appends `DisableVertexArrayAttrib(id, i)`; the binding is unchanged |
| VertexArrays.IsVertexArrayObject | src/vertex_array.rs:60-62 | true exactly when `IsVertexArray` answers `TRUE`; appends that query |
| VertexArrays.Drop | src/vertex_array.rs:65-71 | always exactly one `DeleteVertexArrays(1, id)` |
| Role.Gen | src/role/mod.rs:16-33 | one object per id of `gl_gen(size)`, so the lengths are equal; ids keep their order; each object is `new_object` of its own id |
| Role.GenOne | src/role/mod.rs:6-14 | requires `gl_gen(1)` to be non-empty; the object is the first that `gen(1)` would make |

## Left out

- Logging (`debug!`, `trace!`, `info!`, `error!`) has no effect on the driver or on results.
- `Rc` reference counts are not modelled. A shared handle is a value or an object reference, and dropping the last `Rc` is not tracked. The drop of shaders held by a dropped `Program` is not modelled.
- Shaders.SetSource: does not model the panic of `CString::from_slice` on a source with an interior NUL byte. The source is passed as its UTF-8 bytes.
- ContextBufferTargets.BufferData: the `mem::transmute` of `&data[0]` to a pointer is represented by passing the floats themselves. Float values are bit patterns (`bv32`) and are never computed with.
- `!Send` on `Context` (src/context/mod.rs:14) is a thread-affinity marker with no behaviour here.
- The driver's own semantics are not modelled. This covers what `GetError`, `IsProgram` or `IsShader` would really return, compilation, and how deleting a bound object changes a binding. `Bindings.Bound` reads bindings from the binding calls only.
- `get_param` dispatches through the `ParamFromShader` and `ParamFromProgram` traits. Only the `GLint` implementation exists, so the model calls it directly.
- The `&mut Self` returned by `bind`, `set` and `with_use` for chaining is the object itself, not a borrow.
- Role.Gen and Role.GenOne: the `Generate` and `IntoObject` traits are function parameters. The model does not assume `gl_gen(size)` returns `size` ids, because the trait does not promise it.
- `StateVertexArrays.ContextVertexArray.borrowed` is a ghost flag standing for the `&'a mut` borrow that the proxy holds for its whole life.
- The type distinction between the array target of src/context/buffer.rs (no `buffer_data`) and that of src/context/buffer_targets.rs is not modelled: both are `ContextBuffer.BufferTarget`, so the model lets a `Context`'s array target be passed to `ContextBufferTargets.BufferData`.
- The `get_info_log` buffer is modelled as the bytes the driver leaves in it. The length pointer passed to `GetShaderInfoLog` and `GetProgramInfoLog` is null, so the driver reports no length there and none is modelled.

## Findings

| source | as written | input that shows it | evidently intended | confidence | as-written member | corrected member |
|---|---|---|---|---|---|---|
| src/shader.rs:116-118 | the buffer length is `(len as usize) - 1`, which underflows for `len == 0`, so `set_len` gets `usize::MAX` and the program aborts | a shader with no info log: `GetShaderiv(INFO_LOG_LENGTH)` gives 0, which OpenGL reports when there is no log | an empty log: length `max(len - 1, 0)` | not executed | Shaders.InfoLogOutcomeAsWritten (with Shaders.EmptyLogAbortsAsWritten) | Shaders.InfoLogOutcome (used by Shaders.Compile) |
| src/program.rs:147-149 | the same `(len as usize) - 1` in `Program::get_info_log` | a program with no info log: `GetProgramiv(INFO_LOG_LENGTH)` gives 0 | an empty log: length `max(len - 1, 0)` | not executed | Programs.InfoLogOutcomeAsWritten (with Programs.EmptyLogAbortsAsWritten) | Programs.InfoLogOutcome (used by Programs.Program.Link) |
