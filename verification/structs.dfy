/** The plain records the host code builds and uploads to the GPU
    (the files under Assets/Scripts/Structs and Assets/Scripts/Sphere.cs).
    Vectors (V), materials (Mat) and 4x4 matrices (M) are opaque: nothing in
    the modelled code computes with them, it only copies them around. */
module Structs {

  /** An optional value; None stands for a C# null reference. */
  datatype Option<T> = None | Some(value: T)

  /** One triangle of a split mesh: three vertex positions and their normals
      (Structs/Triangle.cs). */
  datatype Triangle<V> = Triangle(a: V, b: V, c: V, aNormal: V, bNormal: V, cNormal: V)

  /** The descriptor of one split mesh (Structs/MeshInfo.cs). The field name
      firstTirangeIndex is kept as the GPU layout spells it. */
  datatype MeshInfo<V, Mat, M> = MeshInfo(
    firstTirangeIndex: int,
    numTriangles: int,
    material: Mat,
    minBounds: V,
    maxBounds: V,
    localToWorldMatrix: M)

  /** A sphere as the tracing kernel reads it (Sphere.cs). */
  datatype Sphere<V, Mat> = Sphere(position: V, radius: real, material: Mat)

  /** The per-instance transform set (Structs/MeshMatrices.cs). The modelled
      code declares it but never fills or uploads it. */
  datatype MeshMatrices<M> = MeshMatrices(localToWorldMatrix: M, worldToLocalMatix: M, normalMatrix: M)
}
