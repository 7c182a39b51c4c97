/**
 * The draw call.  The renderers upload the model-to-camera matrix with
 * `gl.uniformMatrix4fv` and issue `gl.drawElements`; here that pair is one step
 * that records the uploaded matrix, so a canvas holds the trace of everything drawn.
 */
module DrawCalls {
  import opened Matrix

  class Canvas {
    var drawn: seq<Mat4>

    constructor()
      ensures drawn == []
    {
      drawn := [];
    }

    /** Draw one mesh with model-to-camera matrix `m`. */
    method Draw(m: Mat4)
      modifies this
      ensures drawn == old(drawn) + [m]
    {
      drawn := drawn + [m];
    }
  }
}
