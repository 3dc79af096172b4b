/**
 * The surface object `Model`: of its state only the vertex count that
 * `Draw` hands to `gl.drawArrays` is modelled; the WebGL buffers it fills
 * are not.
 */
module Buffers {
  import opened JsMath
  import opened Tessellation

  class Model {
    const name: string
    var count: real

    /** `new Model(name)`: a model with nothing buffered yet. */
    constructor(name: string)
      ensures this.name == name && count == 0.0
    {
      this.name := name;
      count := 0.0;
    }

    /**
     * `BufferData(vertices, normal, textCoords)`: uploads the three lists and
     * records how many vertices `vertices` holds, three numbers per vertex.
     */
    method BufferData(vertices: seq<real>, normal: seq<real>, textCoords: seq<real>)
      modifies this
      ensures count * 3.0 == |vertices| as real
    {
      count := |vertices| as real / 3.0;
    }
  }

  /**
   * For the lists `CreateSurfaceData` returns, the count `BufferData` records
   * is a whole number: six vertices, two triangles, for every cell.
   */
  lemma SurfaceVertexCount(m: Math, maxR: real, count: real)
    requires count * 3.0 == |Pushed(PositionOf(m), MeshParams(maxR))| as real
    ensures count == (6 * Cells(maxR)) as real
    ensures maxR < 0.25 ==> count == 0.0
  {
    SurfaceDataSizes(m, maxR);
  }
}
