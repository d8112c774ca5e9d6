/**
 * src/state_vertex_array.rs: the context's vertex array slot and the scoped
 * proxy that binds a vertex array when it is made and binds 0 when it is
 * dropped. The proxy borrows the context mutably for its whole life; the
 * ghost `borrowed` flag stands for that borrow.
 */
module StateVertexArrays {
  import opened Gl
  import opened Bindings
  import VertexArrays

  /** An attribute call made through a live proxy. */
  datatype AttribOp = Enable(index: GLuint) | Disable(index: GLuint)

  /** The driver call of one attribute operation. */
  function AttribCall(op: AttribOp): (c: GlCall)
    ensures Effect(c, VertexArraySlot).None?
  {
    match op
    case Enable(i) => EnableVertexAttribArray(i)
    case Disable(i) => DisableVertexAttribArray(i)
  }

  /** The driver calls of a run of attribute operations, in order. */
  function AttribCalls(ops: seq<AttribOp>): (r: seq<GlCall>)
    ensures |r| == |ops|
    ensures forall i :: 0 <= i < |ops| ==> r[i] == AttribCall(ops[i])
    ensures Untouched(r, VertexArraySlot)
  {
    if ops == [] then [] else AttribCalls(ops[..|ops| - 1]) + [AttribCall(ops[|ops| - 1])]
  }

  /** The driver calls of a proxy's whole life: bind, the attribute calls, bind 0. */
  function LifetimeCalls(id: GLuint, ops: seq<AttribOp>): seq<GlCall>
  {
    [BindVertexArray(id)] + AttribCalls(ops) + [BindVertexArray(0)]
  }

  /**
   * While a proxy lives its array stays bound, whatever attribute calls are
   * made through it; once it is dropped, no vertex array is bound.
   */
  lemma {:induction false} Lifetime(log: seq<GlCall>, id: GLuint, ops: seq<AttribOp>)
    ensures Bound(log + [BindVertexArray(id)] + AttribCalls(ops), VertexArraySlot) == id
    ensures Bound(log + LifetimeCalls(id, ops), VertexArraySlot) == 0
  {
    var bound := log + [BindVertexArray(id)];
    assert bound[|bound| - 1] == BindVertexArray(id);
    BoundAppend(bound, AttribCalls(ops), VertexArraySlot);
    var all := bound + AttribCalls(ops) + [BindVertexArray(0)];
    assert all == log + LifetimeCalls(id, ops);
    assert all[|all| - 1] == BindVertexArray(0);
  }

  /** The context's vertex array slot. */
  class ContextVertexArray {
    ghost var borrowed: bool

    /** `ContextVertexArray::new`: no proxy borrows it. */
    constructor ()
      ensures !borrowed
    {
      borrowed := false;
    }

    /** `gen_one`: one `GenVertexArrays(1)`; `generated` is the id the driver writes. */
    method GenOne(gl: Driver, generated: GLuint) returns (v: VertexArrays.VertexArray)
      modifies gl
      ensures v.id == generated
      ensures gl.log == old(gl.log) + [GenVertexArrays(1)]
    {
      gl.Call(GenVertexArrays(1));
      v := VertexArrays.FromRaw(generated);
    }

    /**
     * `gen`: one `GenVertexArrays(size as GLsizei)` into a vector of `size`
     * ids; `filled` is that vector after the driver wrote it. One array per
     * id, in the vector's order.
     */
    method Gen(gl: Driver, size: usize, filled: seq<GLuint>) returns (r: seq<VertexArrays.VertexArray>)
      requires |filled| == size
      modifies gl
      ensures |r| == size
      ensures forall i :: 0 <= i < size ==> r[i].id == filled[i]
      ensures gl.log == old(gl.log) + [GenVertexArrays(AsGLsizei(size))]
    {
      gl.Call(GenVertexArrays(AsGLsizei(size)));
      r := MapIds(filled, VertexArrays.FromRaw);
    }

    /** `bind`: a proxy for `va`, which binds it; the context stays borrowed until the proxy drops. */
    method Bind(gl: Driver, va: VertexArrays.VertexArray) returns (bound: BoundVertexArray)
      requires !borrowed
      modifies this, gl
      ensures fresh(bound) && bound.cva == this && bound.va == va
      ensures borrowed
      ensures gl.log == old(gl.log) + [BindVertexArray(va.id)]
      ensures Bound(gl.log, VertexArraySlot) == va.id
    {
      bound := new BoundVertexArray(gl, this, va);
    }
  }

  /** A live binding of `va`, holding the context's slot. */
  class BoundVertexArray {
    const cva: ContextVertexArray
    const va: VertexArrays.VertexArray

    /** `BoundVertexArray::new`: borrow the context and bind `va`. */
    constructor (gl: Driver, contextVa: ContextVertexArray, vertexArray: VertexArrays.VertexArray)
      requires !contextVa.borrowed
      modifies gl, contextVa
      ensures cva == contextVa && va == vertexArray
      ensures contextVa.borrowed
      ensures gl.log == old(gl.log) + [BindVertexArray(vertexArray.id)]
      ensures Bound(gl.log, VertexArraySlot) == vertexArray.id
    {
      cva := contextVa;
      va := vertexArray;
      new;
      contextVa.borrowed := true;
      gl.Call(BindVertexArray(VertexArrays.GetId(va)));
      assert gl.log[|gl.log| - 1] == BindVertexArray(vertexArray.id);
    }

    /** `enable_attrib`: enable attribute `index` of the bound array; the binding stays. */
    method EnableAttrib(gl: Driver, index: GLuint)
      modifies gl
      ensures gl.log == old(gl.log) + [EnableVertexAttribArray(index)]
      ensures Bound(gl.log, VertexArraySlot) == Bound(old(gl.log), VertexArraySlot)
    {
      gl.Call(EnableVertexAttribArray(index));
      BoundAppendOther(old(gl.log), EnableVertexAttribArray(index), VertexArraySlot);
    }

    /** `disable_attrib`: disable attribute `index` of the bound array; the binding stays. */
    method DisableAttrib(gl: Driver, index: GLuint)
      modifies gl
      ensures gl.log == old(gl.log) + [DisableVertexAttribArray(index)]
      ensures Bound(gl.log, VertexArraySlot) == Bound(old(gl.log), VertexArraySlot)
    {
      gl.Call(DisableVertexAttribArray(index));
      BoundAppendOther(old(gl.log), DisableVertexAttribArray(index), VertexArraySlot);
    }

    /** `Drop for BoundVertexArray`: bind 0 and release the context. */
    method Drop(gl: Driver)
      modifies gl, cva
      ensures !cva.borrowed
      ensures gl.log == old(gl.log) + [BindVertexArray(0)]
      ensures Bound(gl.log, VertexArraySlot) == 0
    {
      gl.Call(BindVertexArray(0));
      assert gl.log[|gl.log| - 1] == BindVertexArray(0);
      cva.borrowed := false;
    }
  }
}
