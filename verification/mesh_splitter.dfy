/** The process-wide mesh splitter (Assets/Scripts/MeshSplitter.cs): every
    SplitMesh call appends one MeshInfo and the triangles read from the mesh's
    index list; FlushData hands both lists over and empties them.

    The model follows the code as written, which differs from what its
    comments announce: the running triangle offset is overwritten with the
    last mesh's triangle count instead of being advanced by it, and the loop
    bound `i < Length - 3` leaves out the last triangle of every mesh. The
    lemmas at the end of this module state both effects. */
module Splitting {
  import opened Structs
  import opened Unity
  import opened SceneObjects

  /** The number of passes of `for (int i = 0; i < n - 3; i += 3)`. */
  function LoopTrips(n: int): nat {
    if n <= 3 then 0 else (n - 1) / 3
  }

  /** The indices `i` the loop visits, as a set. */
  ghost function LoopIndices(n: int): set<int> {
    set i | 0 <= i < n - 3 && i % 3 == 0
  }

  /** LoopTrips counts exactly the indices the loop visits. */
  lemma {:induction false} LoopIndicesCount(n: int)
    ensures |LoopIndices(n)| == LoopTrips(n)
  {
    if n <= 3 {
      assert LoopIndices(n) == {};
    } else {
      LoopIndicesCount(n - 1);
      if (n - 4) % 3 == 0 {
        assert LoopIndices(n) == LoopIndices(n - 1) + {n - 4};
        assert n - 4 !in LoopIndices(n - 1);
      } else {
        assert LoopIndices(n) == LoopIndices(n - 1);
      }
    }
  }

  /** One more pass is left whenever the bound has not been reached. */
  lemma LoopTripsStep(n: int)
    requires n > 3
    ensures LoopTrips(n) == 1 + LoopTrips(n - 3)
  {
    if n - 3 > 3 {
      assert (n - 1) / 3 == 1 + (n - 4) / 3;
    }
  }

  /** The triangle the loop body builds from index position i. */
  function TriangleAt<V>(mesh: Mesh<V>, i: nat): Triangle<V>
    requires mesh.Valid() && i + 2 < |mesh.triangles|
  {
    var t := mesh.triangles;
    Triangle(mesh.vertices[t[i]], mesh.vertices[t[i + 1]], mesh.vertices[t[i + 2]],
             mesh.normals[t[i]], mesh.normals[t[i + 1]], mesh.normals[t[i + 2]])
  }

  /** The triangles the loop appends when it starts at index position i. */
  function TrianglesFrom<V>(mesh: Mesh<V>, i: nat): (r: seq<Triangle<V>>)
    requires mesh.Valid()
    ensures |r| == LoopTrips(|mesh.triangles| - i)
    decreases |mesh.triangles| - i
  {
    if i < |mesh.triangles| - 3 then
      LoopTripsStep(|mesh.triangles| - i);
      [TriangleAt(mesh, i)] + TrianglesFrom(mesh, i + 3)
    else
      []
  }

  lemma TrianglesFromStep<V>(mesh: Mesh<V>, i: nat)
    requires mesh.Valid() && i < |mesh.triangles| - 3
    ensures TrianglesFrom(mesh, i) == [TriangleAt(mesh, i)] + TrianglesFrom(mesh, i + 3)
  {
  }

  /** The k-th triangle appended from index position i is built from the
      indices at i + 3k, i + 3k + 1 and i + 3k + 2. */
  lemma {:induction false} TrianglesFromAt<V>(mesh: Mesh<V>, i: nat, k: nat)
    requires mesh.Valid() && k < |TrianglesFrom(mesh, i)|
    ensures i + 3 * k + 2 < |mesh.triangles|
    ensures TrianglesFrom(mesh, i)[k] == TriangleAt(mesh, i + 3 * k)
    decreases k
  {
    TrianglesFromStep(mesh, i);
    if k > 0 {
      TrianglesFromAt(mesh, i + 3, k - 1);
    }
  }

  /** The triangles one SplitMesh call appends. */
  function TrianglesOf<V>(mesh: Mesh<V>): seq<Triangle<V>>
    requires mesh.Valid()
  {
    TrianglesFrom(mesh, 0)
  }

  /** The splitter's three static fields. */
  datatype SplitterState<V, Mat, M> = SplitterState(
    splitMeshes: seq<MeshInfo<V, Mat, M>>,
    triangles: seq<Triangle<V>>,
    currentTriangleIndex: int)

  /** The state at start-up and after every FlushData. */
  function Initial<V, Mat, M>(): SplitterState<V, Mat, M> {
    SplitterState([], [], 0)
  }

  /** The descriptor SplitMesh records for a mesh split in state s. */
  function InfoFor<V, Mat, M>(s: SplitterState<V, Mat, M>, mesh: Mesh<V>, material: Mat, localToWorldMatrix: M): MeshInfo<V, Mat, M> {
    MeshInfo(s.currentTriangleIndex, |mesh.triangles| / 3, material, mesh.boundsMin, mesh.boundsMax, localToWorldMatrix)
  }

  /** The state after one SplitMesh call. */
  function Split<V, Mat, M>(s: SplitterState<V, Mat, M>, mesh: Mesh<V>, material: Mat, localToWorldMatrix: M): SplitterState<V, Mat, M>
    requires mesh.Valid()
  {
    SplitterState(
      s.splitMeshes + [InfoFor(s, mesh, material, localToWorldMatrix)],
      s.triangles + TrianglesOf(mesh),
      |mesh.triangles| / 3)
  }

  predicate AllValid<V, Mat, M>(meshes: seq<RayTracedMesh<V, Mat, M>>) {
    forall j :: 0 <= j < |meshes| ==> meshes[j].mesh.Valid()
  }

  /** The state after AddMeshToSplitter has run on each of `meshes` in order. */
  function SplitAll<V, Mat, M>(s: SplitterState<V, Mat, M>, meshes: seq<RayTracedMesh<V, Mat, M>>): SplitterState<V, Mat, M>
    requires AllValid(meshes)
  {
    if meshes == [] then s
    else
      var last := meshes[|meshes| - 1];
      Split(SplitAll(s, meshes[..|meshes| - 1]), last.mesh, last.material, last.localToWorldMatrix)
  }

  /** The concatenation of the triangles of each of `meshes`. */
  function AllTriangles<V, Mat, M>(meshes: seq<RayTracedMesh<V, Mat, M>>): seq<Triangle<V>>
    requires AllValid(meshes)
  {
    if meshes == [] then [] else AllTriangles(meshes[..|meshes| - 1]) + TrianglesOf(meshes[|meshes| - 1].mesh)
  }

  class MeshSplitter<V, Mat, M> {
    var splitMeshes: seq<MeshInfo<V, Mat, M>>
    var triangles: seq<Triangle<V>>
    var currentTriangleIndex: int

    function State(): SplitterState<V, Mat, M>
      reads this
    {
      SplitterState(splitMeshes, triangles, currentTriangleIndex)
    }

    constructor ()
      ensures State() == Initial()
    {
      splitMeshes := [];
      triangles := [];
      currentTriangleIndex := 0;
    }

    /** Appends one MeshInfo for the mesh and one Triangle per loop pass. */
    method SplitMesh(mesh: Mesh<V>, material: Mat, localToWorldMatrix: M)
      requires mesh.Valid()
      modifies this
      ensures State() == Split(old(State()), mesh, material, localToWorldMatrix)
      ensures splitMeshes == old(splitMeshes) + [InfoFor(old(State()), mesh, material, localToWorldMatrix)]
      ensures triangles == old(triangles) + TrianglesOf(mesh)
      ensures currentTriangleIndex == |mesh.triangles| / 3
    {
      ghost var before := State();
      var first := currentTriangleIndex;
      var numTriangles := |mesh.triangles| / 3;
      currentTriangleIndex := |mesh.triangles| / 3;

      var tris := mesh.triangles;
      var i := 0;
      while i < |tris| - 3
        invariant 0 <= i <= |tris|
        invariant triangles + TrianglesFrom(mesh, i) == old(triangles) + TrianglesOf(mesh)
        invariant splitMeshes == old(splitMeshes) && currentTriangleIndex == numTriangles
        decreases |tris| - i
      {
        var tri := Triangle(mesh.vertices[tris[i]], mesh.vertices[tris[i + 1]], mesh.vertices[tris[i + 2]],
                            mesh.normals[tris[i]], mesh.normals[tris[i + 1]], mesh.normals[tris[i + 2]]);
        assert tri == TriangleAt(mesh, i);
        TrianglesFromStep(mesh, i);
        triangles := triangles + [tri];
        i := i + 3;
      }

      var info := MeshInfo(first, numTriangles, material, mesh.boundsMin, mesh.boundsMax, localToWorldMatrix);
      splitMeshes := splitMeshes + [info];
      assert State() == Split(before, mesh, material, localToWorldMatrix);
    }

    /** Returns both accumulated lists in insertion order and empties them. */
    method FlushData() returns (meshInfos: seq<MeshInfo<V, Mat, M>>, trianglesArray: seq<Triangle<V>>)
      modifies this
      ensures meshInfos == old(splitMeshes) && trianglesArray == old(triangles)
      ensures State() == Initial()
    {
      meshInfos := splitMeshes;
      trianglesArray := triangles;
      splitMeshes := [];
      triangles := [];
      currentTriangleIndex := 0;
    }
  }

  /** How far the triangle list of one mesh falls short of the count its
      MeshInfo records: for an index list of 3t entries (t > 0) exactly t - 1
      triangles are produced, so the last triangle is always dropped, and a
      one-triangle mesh produces none. */
  lemma {:induction false} LastTriangleDropped<V>(mesh: Mesh<V>)
    requires mesh.Valid() && |mesh.triangles| % 3 == 0
    ensures |mesh.triangles| == 0 ==> TrianglesOf(mesh) == []
    ensures |mesh.triangles| > 0 ==> |TrianglesOf(mesh)| == |mesh.triangles| / 3 - 1
  {
  }

  /** What a run of SplitMesh calls leaves behind: one more MeshInfo per mesh
      after the existing ones, which stay as they were; the triangles of all
      meshes appended in order; and the offset left at the LAST mesh's triangle
      count, not at the total. */
  lemma {:induction false} SplitAllShape<V, Mat, M>(s: SplitterState<V, Mat, M>, meshes: seq<RayTracedMesh<V, Mat, M>>)
    requires AllValid(meshes)
    ensures var r := SplitAll(s, meshes);
      && |r.splitMeshes| == |s.splitMeshes| + |meshes|
      && r.splitMeshes[..|s.splitMeshes|] == s.splitMeshes
      && r.triangles == s.triangles + AllTriangles(meshes)
      && r.currentTriangleIndex == if meshes == [] then s.currentTriangleIndex else |meshes[|meshes| - 1].mesh.triangles| / 3
  {
    if meshes != [] {
      var init := meshes[..|meshes| - 1];
      SplitAllShape(s, init);
      var p := SplitAll(s, init);
      var last := meshes[|meshes| - 1].mesh;
      assert SplitAll(s, meshes).splitMeshes[..|s.splitMeshes|] == p.splitMeshes[..|s.splitMeshes|];
      calc {
        SplitAll(s, meshes).triangles;
        (s.triangles + AllTriangles(init)) + TrianglesOf(last);
        s.triangles + (AllTriangles(init) + TrianglesOf(last));
      }
    }
  }

  /** The MeshInfo recorded for the j-th of a run of meshes: it counts that
      mesh's triangles, carries its material, bounds and matrix unchanged, and
      starts at the offset held on entry when j = 0 and otherwise at the
      PREVIOUS mesh's triangle count, not at the running total. */
  lemma {:induction false} SplitAllInfo<V, Mat, M>(s: SplitterState<V, Mat, M>, meshes: seq<RayTracedMesh<V, Mat, M>>, j: nat)
    requires AllValid(meshes) && j < |meshes|
    ensures var r := SplitAll(s, meshes);
      && |s.splitMeshes| + j < |r.splitMeshes|
      && r.splitMeshes[|s.splitMeshes| + j] ==
           MeshInfo(if j == 0 then s.currentTriangleIndex else |meshes[j - 1].mesh.triangles| / 3,
                    |meshes[j].mesh.triangles| / 3, meshes[j].material,
                    meshes[j].mesh.boundsMin, meshes[j].mesh.boundsMax, meshes[j].localToWorldMatrix)
  {
    var init := meshes[..|meshes| - 1];
    var p := SplitAll(s, init);
    SplitAllShape(s, init);
    if j < |init| {
      SplitAllInfo(s, init, j);
      assert init[j] == meshes[j];
      if j > 0 { assert init[j - 1] == meshes[j - 1]; }
    } else if j > 0 {
      assert meshes[j - 1] == init[|init| - 1];
    }
  }

  /** Counter-example to "the MeshInfo range covers the mesh's triangles":
      for the first mesh after a flush the recorded range [0, t) reaches one
      past the end of the t - 1 triangles actually appended. */
  lemma FirstRangeOverruns<V, Mat, M>(a: RayTracedMesh<V, Mat, M>)
    requires a.mesh.Valid() && |a.mesh.triangles| % 3 == 0 && |a.mesh.triangles| > 0
    ensures var r := Split(Initial(), a.mesh, a.material, a.localToWorldMatrix);
      && |r.splitMeshes| == 1
      && r.splitMeshes[0].firstTirangeIndex == 0
      && r.splitMeshes[0].firstTirangeIndex + r.splitMeshes[0].numTriangles == |r.triangles| + 1
  {
    LastTriangleDropped(a.mesh);
  }

  /** Counter-example to "ranges are contiguous across meshes": when two
      meshes are split after a flush, the second one's triangles are stored
      from position t1 - 1 on (t1 = the first mesh's triangle count), but its
      MeshInfo says they start at t1. */
  lemma {:induction false} SecondRangeOffByOne<V, Mat, M>(a: RayTracedMesh<V, Mat, M>, b: RayTracedMesh<V, Mat, M>)
    requires a.mesh.Valid() && b.mesh.Valid()
    requires |a.mesh.triangles| % 3 == 0 && |a.mesh.triangles| > 0
    ensures var r := SplitAll(Initial(), [a, b]);
      && |r.splitMeshes| == 2
      && r.triangles == TrianglesOf(a.mesh) + TrianglesOf(b.mesh)
      && r.splitMeshes[1].firstTirangeIndex == |TrianglesOf(a.mesh)| + 1
  {
    var ms := [a, b];
    SplitAllShape(Initial(), ms);
    SplitAllInfo(Initial(), ms, 1);
    LastTriangleDropped(a.mesh);
    assert ms[..1] == [a];
    assert AllTriangles([a]) == TrianglesOf(a.mesh) by {
      assert [a][..0] == [];
    }
    assert AllTriangles(ms) == TrianglesOf(a.mesh) + TrianglesOf(b.mesh);
  }

  /** Counter-example to "offsets accumulate": three meshes of two triangles
      each get the offsets 0, 2 and 2, so the last two ranges coincide. */
  lemma {:induction false} OffsetsDoNotAccumulate<V, Mat, M>(a: RayTracedMesh<V, Mat, M>, b: RayTracedMesh<V, Mat, M>, c: RayTracedMesh<V, Mat, M>)
    requires a.mesh.Valid() && b.mesh.Valid() && c.mesh.Valid()
    requires |a.mesh.triangles| == |b.mesh.triangles| == |c.mesh.triangles| == 6
    ensures var r := SplitAll(Initial(), [a, b, c]);
      && |r.splitMeshes| == 3
      && r.splitMeshes[0].firstTirangeIndex == 0
      && r.splitMeshes[1].firstTirangeIndex == 2
      && r.splitMeshes[2].firstTirangeIndex == 2
  {
    var ms := [a, b, c];
    SplitAllShape(Initial(), ms);
    SplitAllInfo(Initial(), ms, 0);
    SplitAllInfo(Initial(), ms, 1);
    SplitAllInfo(Initial(), ms, 2);
  }
}
