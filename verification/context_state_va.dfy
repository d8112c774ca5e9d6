/**
 * src/context/state_va.rs: the tracker of the bound vertex array, holding a
 * shared reference to it. Its `unbind` binds the tracked array's own name
 * again rather than 0, so the driver keeps that array bound.
 */
module ContextStateVa {
  import opened Gl
  import opened Wrappers
  import opened Bindings
  import Va

  /** `BindVertexArrayError`; `bind` never produces it. */
  datatype BindVertexArrayError = BindVertexArrayError

  /** The tracked array agrees with the driver's vertex array slot whenever one is tracked. */
  predicate Mirrors(va: Option<Va.VertexArray>, log: seq<GlCall>)
  {
    va.Some? ==> Bound(log, VertexArraySlot) == va.value.id
  }

  /** The driver calls of `unbind`: a `BindVertexArray` of the tracked array's name, if one is tracked. */
  function UnbindCalls(current: Option<Va.VertexArray>): (r: seq<GlCall>)
    ensures r == [] <==> current.None?
    ensures |r| <= 1 && forall c :: c in r ==> c == BindVertexArray(current.value.id)
  {
    if current.Some? then [BindVertexArray(current.value.id)] else []
  }

  /**
   * `unbind` does not change what the driver has bound: from a tracker that
   * mirrors the driver, the tracked array is still bound afterwards.
   */
  lemma {:induction false} UnbindKeepsBinding(log: seq<GlCall>, current: Option<Va.VertexArray>)
    requires Mirrors(current, log)
    ensures Bound(log + UnbindCalls(current), VertexArraySlot) == Bound(log, VertexArraySlot)
    ensures current.Some? ==> Bound(log + UnbindCalls(current), VertexArraySlot) == current.value.id
  {
    if current.None? {
      assert log + UnbindCalls(current) == log;
    } else {
      var after := log + [BindVertexArray(current.value.id)];
      assert after[|after| - 1] == BindVertexArray(current.value.id);
    }
  }

  /** A second `unbind` issues nothing. */
  lemma UnbindIdempotent(current: Option<Va.VertexArray>)
    ensures UnbindCalls(current) + UnbindCalls(None) == UnbindCalls(current)
  {
    assert UnbindCalls(current) + [] == UnbindCalls(current);
  }

  /** The vertex array this tracker bound, if any. */
  class StateVertexArray {
    var va: Option<Va.VertexArray>

    /** `StateVertexArray::new`: nothing bound. */
    constructor ()
      ensures va == None
    {
      va := None;
    }

    /** `bind`: record `v` and bind it; always `Ok(self)`. */
    method Bind(gl: Driver, v: Va.VertexArray) returns (r: Result<StateVertexArray, BindVertexArrayError>)
      modifies this, gl
      ensures r == Ok(this)
      ensures va == Some(v)
      ensures gl.log == old(gl.log) + [BindVertexArray(v.id)]
      ensures Mirrors(va, gl.log)
    {
      va := Some(v);
      gl.Call(BindVertexArray(Va.GetId(v)));
      assert gl.log[|gl.log| - 1] == BindVertexArray(v.id);
      r := Ok(this);
    }

    /** `unbind`: re-bind the tracked array, if any, then forget it. */
    method Unbind(gl: Driver)
      modifies this, gl
      ensures va == None
      ensures gl.log == old(gl.log) + UnbindCalls(old(va))
      ensures Mirrors(old(va), old(gl.log)) ==> Bound(gl.log, VertexArraySlot) == Bound(old(gl.log), VertexArraySlot)
    {
      if va.Some? {
        gl.Call(BindVertexArray(Va.GetId(va.value)));
      }
      if Mirrors(old(va), old(gl.log)) {
        UnbindKeepsBinding(old(gl.log), old(va));
      }
      va := None;
    }

    /** `Drop for StateVertexArray`: exactly `unbind`. */
    method Drop(gl: Driver)
      modifies this, gl
      ensures va == None
      ensures gl.log == old(gl.log) + UnbindCalls(old(va))
      ensures Mirrors(old(va), old(gl.log)) ==> Bound(gl.log, VertexArraySlot) == Bound(old(gl.log), VertexArraySlot)
    {
      Unbind(gl);
    }

    /** `gen_one`: one `GenVertexArrays(1)`; `generated` is the id the driver writes. */
    method GenOne(gl: Driver, generated: GLuint) returns (v: Va.VertexArray)
      modifies gl
      ensures v.id == generated
      ensures gl.log == old(gl.log) + [GenVertexArrays(1)]
    {
      gl.Call(GenVertexArrays(1));
      v := Va.FromRaw(generated);
    }

    /**
     * `gen`: one `GenVertexArrays(size as GLsizei)` into a vector of `size`
     * ids; `filled` is that vector after the driver wrote it. One handle per
     * id, in the vector's order.
     */
    method Gen(gl: Driver, size: usize, filled: seq<GLuint>) returns (r: seq<Va.VertexArray>)
      requires |filled| == size
      modifies gl
      ensures |r| == size
      ensures forall i :: 0 <= i < size ==> r[i].id == filled[i]
      ensures gl.log == old(gl.log) + [GenVertexArrays(AsGLsizei(size))]
    {
      gl.Call(GenVertexArrays(AsGLsizei(size)));
      r := MapIds(filled, Va.FromRaw);
    }
  }
}
