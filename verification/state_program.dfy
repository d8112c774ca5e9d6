/**
 * src/state_program.rs: the tracker of the program in use that skips a
 * `UseProgram` when the program asked for is already in use.
 */
module StatePrograms {
  import opened Gl
  import opened Wrappers
  import opened Bindings
  import Programs

  /** The tracked id agrees with the driver's program slot whenever one is tracked. */
  predicate Mirrors(id: Option<GLuint>, log: seq<GlCall>)
  {
    id.Some? ==> Bound(log, ProgramSlot) == id.value
  }

  /** The driver calls of `with_use`: one `UseProgram`, unless that program is already in use. */
  function WithUseCalls(previous: Option<GLuint>, newId: GLuint): (r: seq<GlCall>)
    ensures r == [] <==> previous == Some(newId)
    ensures |r| <= 1 && forall c :: c in r ==> c == UseProgram(newId)
  {
    if previous == Some(newId) then [] else [UseProgram(newId)]
  }

  /** The driver calls of `done`: `UseProgram(0)` exactly when a program is in use. */
  function DoneCalls(current: Option<GLuint>): (r: seq<GlCall>)
    ensures r == [] <==> current.None?
    ensures |r| <= 1 && forall c :: c in r ==> c == UseProgram(0)
  {
    if current.Some? then [UseProgram(0)] else []
  }

  /**
   * Skipping the call is sound: from a tracker that mirrors the driver,
   * `with_use` leaves the driver using the new program either way.
   */
  lemma {:induction false} WithUseInstalls(log: seq<GlCall>, previous: Option<GLuint>, newId: GLuint)
    requires Mirrors(previous, log)
    ensures Bound(log + WithUseCalls(previous, newId), ProgramSlot) == newId
    ensures Mirrors(Some(newId), log + WithUseCalls(previous, newId))
  {
    if previous == Some(newId) {
      assert log + WithUseCalls(previous, newId) == log;
    } else {
      var after := log + [UseProgram(newId)];
      assert after[|after| - 1] == UseProgram(newId);
    }
  }

  /** Using the same program twice in a row issues one `UseProgram`, from the first call. */
  lemma WithUseTwice(previous: Option<GLuint>, newId: GLuint)
    ensures WithUseCalls(previous, newId) + WithUseCalls(Some(newId), newId) == WithUseCalls(previous, newId)
    ensures |WithUseCalls(previous, newId) + WithUseCalls(Some(newId), newId)| <= 1
  {
    assert WithUseCalls(previous, newId) + [] == WithUseCalls(previous, newId);
  }

  /** After `done` on a tracker with a program in use, the driver uses no program. */
  lemma {:induction false} DoneUnuses(log: seq<GlCall>, current: Option<GLuint>)
    requires current.Some?
    ensures Bound(log + DoneCalls(current), ProgramSlot) == 0
  {
    var after := log + [UseProgram(0)];
    assert after[|after| - 1] == UseProgram(0);
  }

  /** A second `done` issues nothing. */
  lemma DoneIdempotent(current: Option<GLuint>)
    ensures DoneCalls(current) + DoneCalls(None) == DoneCalls(current)
  {
    assert DoneCalls(current) + [] == DoneCalls(current);
  }

  /** The program in use, by id, or `None` when this tracker has none. */
  class StateProgram {
    var id: Option<GLuint>

    /** `StateProgram::new`: no program in use. */
    constructor ()
      ensures id == None
    {
      id := None;
    }

    /** `with_use`: track `program` and use it unless it is already in use; returns the tracker itself. */
    method WithUse(gl: Driver, program: Programs.Program) returns (r: StateProgram)
      modifies this, gl
      ensures r == this
      ensures id == Some(program.id)
      ensures gl.log == old(gl.log) + WithUseCalls(old(id), program.id)
      ensures Mirrors(old(id), old(gl.log)) ==> Mirrors(id, gl.log)
    {
      var previous := id;
      var newId := program.GetId();
      match previous {
        case Some(usedId) =>
          if usedId != newId {
            id := Some(newId);
            gl.Call(UseProgram(newId));
          }
        case None =>
          id := Some(newId);
          gl.Call(UseProgram(newId));
      }
      if Mirrors(old(id), old(gl.log)) {
        WithUseInstalls(old(gl.log), old(id), newId);
      }
      r := this;
    }

    /** `done`: stop using the tracked program, if any. */
    method Done(gl: Driver)
      modifies this, gl
      ensures id == None
      ensures gl.log == old(gl.log) + DoneCalls(old(id))
      ensures old(id).Some? ==> Bound(gl.log, ProgramSlot) == 0
    {
      if id.Some? {
        gl.Call(UseProgram(0));
        DoneUnuses(old(gl.log), old(id));
      }
      id := None;
    }

    /** `Drop for StateProgram`: exactly `done`. */
    method Drop(gl: Driver)
      modifies this, gl
      ensures id == None
      ensures gl.log == old(gl.log) + DoneCalls(old(id))
      ensures old(id).Some? ==> Bound(gl.log, ProgramSlot) == 0
    {
      Done(gl);
    }
  }
}
