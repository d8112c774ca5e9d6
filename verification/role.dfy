/**
 * src/role/mod.rs: the default generator methods. `glGen` stands for the
 * implementor's `gl_gen` and `newObject` for its `new_object`.
 */
module Role {
  import opened Gl

  /** `Generator::gen`: one object per id of `gl_gen(size)`, each from its own id, in order. */
  function Gen<T>(glGen: usize -> seq<GLuint>, newObject: GLuint -> T, size: usize): (r: seq<T>)
    ensures |r| == |glGen(size)|
    ensures forall i :: 0 <= i < |r| ==> r[i] == newObject(glGen(size)[i])
  {
    MapIds(glGen(size), newObject)
  }

  /**
   * `Generator::gen_one`: the object for the first id of `gl_gen(1)`, which
   * must have one; it is the single object `gen(1)` would make from the
   * same ids.
   */
  function GenOne<T>(glGen: usize -> seq<GLuint>, newObject: GLuint -> T): (r: T)
    requires |glGen(1)| >= 1
    ensures r == Gen(glGen, newObject, 1)[0]
  {
    newObject(glGen(1)[0])
  }
}
