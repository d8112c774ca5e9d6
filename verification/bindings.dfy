/**
 * What the driver has bound, read off the call log: each binding slot holds
 * the id its last binding call named, or 0 (OpenGL's initial binding) when
 * no call has named one yet. The trackers promise to mirror these slots.
 */
module Bindings {
  import opened Gl
  import opened Wrappers

  /** A binding slot of the driver context. */
  datatype Slot = ProgramSlot | BufferSlot(target: GLenum) | VertexArraySlot

  /** The id a call binds to `slot`, if it binds that slot at all. */
  function Effect(c: GlCall, slot: Slot): (r: Option<GLuint>)
    ensures r.Some? ==> c.UseProgram? || c.BindBuffer? || c.BindVertexArray?
  {
    match (c, slot)
    case (UseProgram(p), ProgramSlot) => Some(p)
    case (BindBuffer(t, b), BufferSlot(target)) => if t == target then Some(b) else None
    case (BindVertexArray(v), VertexArraySlot) => Some(v)
    case _ => None
  }

  /** No call of `log` binds `slot`. */
  predicate Untouched(log: seq<GlCall>, slot: Slot)
  {
    forall i :: 0 <= i < |log| ==> Effect(log[i], slot).None?
  }

  /** The id bound to `slot` after `log`. */
  function Bound(log: seq<GlCall>, slot: Slot): (r: GLuint)
    ensures Untouched(log, slot) ==> r == 0
    ensures |log| > 0 && Effect(log[|log| - 1], slot).Some? ==> r == Effect(log[|log| - 1], slot).value
  {
    if log == [] then 0
    else
      match Effect(log[|log| - 1], slot)
      case Some(id) => id
      case None => Bound(log[..|log| - 1], slot)
  }

  /**
   * Calls appended to a log decide a slot exactly when one of them binds it;
   * otherwise the slot keeps what the earlier calls left in it.
   */
  lemma {:induction false} BoundAppend(a: seq<GlCall>, b: seq<GlCall>, slot: Slot)
    ensures Untouched(b, slot) ==> Bound(a + b, slot) == Bound(a, slot)
    ensures !Untouched(b, slot) ==> Bound(a + b, slot) == Bound(b, slot)
    decreases |b|
  {
    if b == [] {
      assert a + b == a;
    } else {
      var n := |b| - 1;
      assert (a + b)[..|a + b| - 1] == a + b[..n];
      assert (a + b)[|a + b| - 1] == b[n];
      BoundAppend(a, b[..n], slot);
      if Effect(b[n], slot).None? {
        if Untouched(b[..n], slot) {
          assert Untouched(b, slot) by {
            forall i | 0 <= i < |b|
              ensures Effect(b[i], slot).None?
            {
              if i < n {
                assert b[i] == b[..n][i];
              }
            }
          }
        } else {
          var i :| 0 <= i < n && Effect(b[..n][i], slot).Some?;
          assert b[i] == b[..n][i];
        }
      }
    }
  }

  /** Appending one call that binds another slot, or nothing, leaves a slot as it was. */
  lemma BoundAppendOther(log: seq<GlCall>, c: GlCall, slot: Slot)
    requires Effect(c, slot).None?
    ensures Bound(log + [c], slot) == Bound(log, slot)
  {
    assert (log + [c])[..|log|] == log;
  }
}
