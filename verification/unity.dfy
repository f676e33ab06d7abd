/** The engine objects the host code touches, reduced to the state the
    modelled code reads or changes. Engine calls that compute on the GPU or on
    floats are not part of this model. */
module Unity {

  /** A mesh as the host code reads it: the triangle index list, the vertex
      positions, the vertex normals (as left by RecalculateNormals) and the
      engine-computed bounding box. */
  datatype Mesh<V> = Mesh(triangles: seq<int>, vertices: seq<V>, normals: seq<V>, boundsMin: V, boundsMax: V)
  {
    /** The engine keeps every triangle index inside the vertex array, and
        RecalculateNormals leaves one normal per vertex. */
    predicate Valid() {
      forall j :: 0 <= j < |triangles| ==> 0 <= triangles[j] < |vertices| && triangles[j] < |normals|
    }
  }

  /** Screen.width and Screen.height at the time of a call. */
  datatype Screen = Screen(width: int, height: int)

  /** A GPU buffer of `count` records of `stride` bytes. `data` is the array
      last written by SetData. */
  class ComputeBuffer<E> {
    const count: int
    const stride: int
    var data: seq<E>
    var released: bool

    constructor (count: int, stride: int)
      ensures this.count == count && this.stride == stride
      ensures data == [] && !released
    {
      this.count := count;
      this.stride := stride;
      data := [];
      released := false;
    }

    method SetData(d: seq<E>)
      modifies this
      ensures data == d && released == old(released)
    {
      data := d;
    }

    method Release()
      modifies this
      ensures released && data == old(data)
    {
      released := true;
    }
  }

  /** A render target of a fixed size. */
  class RenderTexture {
    const width: int
    const height: int
    var enableRandomWrite: bool
    var created: bool
    var released: bool

    constructor (width: int, height: int)
      ensures this.width == width && this.height == height
      ensures !enableRandomWrite && !created && !released
    {
      this.width := width;
      this.height := height;
      enableRandomWrite := false;
      created := false;
      released := false;
    }

    method Create()
      modifies this
      ensures created
      ensures enableRandomWrite == old(enableRandomWrite) && released == old(released)
    {
      created := true;
    }

    method Release()
      modifies this
      ensures released
      ensures enableRandomWrite == old(enableRandomWrite) && created == old(created)
    {
      released := true;
    }
  }
}
