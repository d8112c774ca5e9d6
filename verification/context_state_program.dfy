/**
 * src/context/state_program.rs: the tracker of the program in use that
 * holds a shared reference to the program and issues `UseProgram` on
 * every `set`.
 */
module ContextStatePrograms {
  import opened Gl
  import opened Wrappers
  import opened Bindings
  import Programs

  /** `UseProgramError`; `set` never produces it. */
  datatype UseProgramError = UseProgramError

  /** The driver calls of `unset`: `UseProgram(0)` exactly when a program is set. */
  function UnsetCalls(held: bool): (r: seq<GlCall>)
    ensures r == [] <==> !held
    ensures |r| <= 1 && forall c :: c in r ==> c == UseProgram(0)
  {
    if held then [UseProgram(0)] else []
  }

  /** A second `unset` issues nothing. */
  lemma UnsetIdempotent(held: bool)
    ensures UnsetCalls(held) + UnsetCalls(false) == UnsetCalls(held)
  {
    assert UnsetCalls(held) + [] == UnsetCalls(held);
  }

  /** The program in use, shared with its other owners. */
  class StateProgram {
    var program: Option<Programs.Program>

    /** `StateProgram::new`: no program set. */
    constructor ()
      ensures program == None
    {
      program := None;
    }

    /** `set`: record `p` and use it, even if it is the one already set; always `Ok(self)`. */
    method Set(gl: Driver, p: Programs.Program) returns (r: Result<StateProgram, UseProgramError>)
      modifies this, gl
      ensures r == Ok(this)
      ensures program == Some(p)
      ensures gl.log == old(gl.log) + [UseProgram(p.id)]
      ensures Bound(gl.log, ProgramSlot) == p.id
    {
      program := Some(p);
      gl.Call(UseProgram(p.GetId()));
      assert gl.log[|gl.log| - 1] == UseProgram(p.id);
      r := Ok(this);
    }

    /** `unset`: stop using the program, if one is set, and forget it. */
    method Unset(gl: Driver)
      modifies this, gl
      ensures program == None
      ensures gl.log == old(gl.log) + UnsetCalls(old(program).Some?)
      ensures old(program).Some? ==> Bound(gl.log, ProgramSlot) == 0
    {
      if program.Some? {
        gl.Call(UseProgram(0));
        assert gl.log[|gl.log| - 1] == UseProgram(0);
      }
      program := None;
    }
  }
}
