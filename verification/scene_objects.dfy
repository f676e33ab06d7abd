/** The scene components the frame driver collects, and the process-wide
    "rebuild buffers on the next update" flag they raise when edited. */
module SceneObjects {
  import opened Structs
  import opened Unity

  /** A RayTracedMesh component: the mesh of its MeshFilter, its material and
      its transform's local-to-world matrix (RayTracedMesh.cs). */
  datatype RayTracedMesh<V, Mat, M> = RayTracedMesh(mesh: Mesh<V>, material: Mat, localToWorldMatrix: M)

  /** A RayTracedSphere component (RayTracedSphere.cs). */
  datatype RayTracedSphere<V, Mat> = RayTracedSphere(position: V, radius: real, material: Mat)
  {
    /** The record the component hands to the driver. */
    function SphereInformation(): (s: Sphere<V, Mat>)
      ensures s.position == position && s.radius == radius && s.material == material
    {
      Sphere(position, radius, material)
    }
  }

  /** The static property CameraRayTraceRender.UpdateBuffersNextUpdate. */
  class RebuildFlag {
    var requested: bool

    constructor ()
      ensures !requested
    {
      requested := false;
    }

    /** What RayTracedMesh.OnValidate, RayTracedObject.OnValidate and
        RayTracedObject.OnDestroy do to the driver: they set the flag and
        nothing else. */
    method Raise()
      modifies this
      ensures requested
    {
      requested := true;
    }
  }
}
