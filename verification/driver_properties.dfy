/** What the frame driver's entry points guarantee, proved about the
    functions that state their effect (module Rendering): which buffers are
    uploaded and when they are reallocated, when the scene is re-collected,
    which kernels a frame dispatches, what is presented, what OnDisable
    releases, and an invariant every entry point keeps. */
module DriverProperties {
  import opened Structs
  import opened Unity
  import opened SceneObjects
  import opened Splitting
  import opened Rendering
  import Int32

  // ---------------------------------------------------------------------
  // Textures and buffers

  /** InitRenderTexture on the ray-traced texture: afterwards it has the
      screen's size; it is kept, with no engine call, exactly when it already
      had that size; otherwise a new texture takes the next handle and the
      old one, if any, is released. Nothing else changes. */
  lemma FitRayTracedEffect<V, Mat, M>(s: DriverState<V, Mat, M>, screen: Screen)
    ensures var r := FitRayTraced(s, screen);
      && r.rayTracedTexture.Some?
      && r.rayTracedTexture.value.width == screen.width && r.rayTracedTexture.value.height == screen.height
      && (r.rayTracedTexture == s.rayTracedTexture <==> !NeedsReallocation(s.rayTracedTexture, screen))
      && (r.calls == s.calls <==> !NeedsReallocation(s.rayTracedTexture, screen) || s.rayTracedTexture.None?)
      && (NeedsReallocation(s.rayTracedTexture, screen) ==>
            && r.rayTracedTexture.value.handle == s.nextHandle && r.nextHandle == s.nextHandle + 1
            && r.rayTracedTexture.value.enableRandomWrite && r.rayTracedTexture.value.created
            && (s.rayTracedTexture.Some? ==> r.calls == s.calls + [ReleaseTexture(s.rayTracedTexture.value.handle)]))
      && r == s.(rayTracedTexture := r.rayTracedTexture, nextHandle := r.nextHandle, calls := r.calls)
  {
    var r := FitRayTraced(s, screen);
    if NeedsReallocation(s.rayTracedTexture, screen) && s.rayTracedTexture.Some? {
      assert r.calls[|s.calls|] == ReleaseTexture(s.rayTracedTexture.value.handle);
    }
  }

  /** An upload leaves a buffer of exactly the uploaded records. A buffer of
      the right count is reused (same handle, stride and state); otherwise
      a new, unreleased buffer takes the next handle. */
  lemma UploadEffect<E>(before: Option<GpuBuffer<E>>, data: seq<E>, stride: int, firstFree: nat)
    ensures var after := Upload(before, data, stride, firstFree);
      && after.data == data && after.count == |data|
      && (Reallocates(before, |data|) ==> after.handle == firstFree && after.stride == stride && !after.released)
      && (!Reallocates(before, |data|) ==>
            after.handle == before.value.handle && after.stride == before.value.stride && after.released == before.value.released)
  {
  }

  /** CreateAndSetSphereBuffer: with no sphere components it does nothing at
      all; otherwise the sphere buffer holds one record per slot (holes keep
      their place), it is replaced exactly when missing or of another count,
      the only engine call is the "_Spheres" binding of the buffer now held,
      and nothing else changes. In particular a replaced buffer is never
      released. */
  lemma SphereUploadEffect<V, Mat, M>(c: Settings<V, Mat>, s: DriverState<V, Mat, M>)
    ensures var r := UploadSpheres(c, s);
      && (s.cachedSpheres == [] <==> r == s)
      && (s.cachedSpheres != [] ==>
            && r.sphereBuffer.Some?
            && r.sphereBuffer.value.data == SphereSnapshot(s.cachedSpheres, c.defaultSphere)
            && r.sphereBuffer.value.count == |s.cachedSpheres|
            && (Reallocates(s.sphereBuffer, |s.cachedSpheres|) ==>
                  r.sphereBuffer.value.handle == s.nextHandle && r.nextHandle == s.nextHandle + 1)
            && (!Reallocates(s.sphereBuffer, |s.cachedSpheres|) ==>
                  r.sphereBuffer.value.handle == s.sphereBuffer.value.handle && r.nextHandle == s.nextHandle)
            && r.calls == s.calls + [SetBuffer("_Spheres", BufferHandle(r.sphereBuffer))]
            && r == s.(sphereBuffer := r.sphereBuffer, nextHandle := r.nextHandle, calls := r.calls))
  {
    var data := SphereSnapshot(s.cachedSpheres, c.defaultSphere);
    if s.cachedSpheres != [] {
      assert |UploadSpheres(c, s).calls| > |s.calls|;
      UploadEffect(s.sphereBuffer, data, c.sphereStride, s.nextHandle);
    }
  }

  /** CreateAndSetMeshBuffer, given what the splitter flushed: the splitter
      is left empty in every case; when either flushed array is empty only
      that happens; otherwise both buffers hold the flushed arrays, each
      replaced exactly when missing or of another count (new handles in
      order, the mesh-info buffer first), and the two bindings are the only
      engine calls. */
  lemma MeshUploadEffect<V, Mat, M>(c: Settings<V, Mat>, s: DriverState<V, Mat, M>, flushed: SplitterState<V, Mat, M>)
    ensures var r := UploadMeshes(c, s, flushed);
      && r.splitter == Initial()
      && (!Uploads(flushed) ==> r == s.(splitter := Initial()))
      && (Uploads(flushed) ==>
            && r.meshInfoBuffer.Some? && r.triBuffer.Some?
            && r.meshInfoBuffer.value.data == flushed.splitMeshes && r.meshInfoBuffer.value.count == |flushed.splitMeshes|
            && r.triBuffer.value.data == flushed.triangles && r.triBuffer.value.count == |flushed.triangles|
            && (Reallocates(s.meshInfoBuffer, |flushed.splitMeshes|) ==> r.meshInfoBuffer.value.handle == s.nextHandle)
            && (!Reallocates(s.meshInfoBuffer, |flushed.splitMeshes|) ==> r.meshInfoBuffer.value.handle == s.meshInfoBuffer.value.handle)
            && (Reallocates(s.triBuffer, |flushed.triangles|) ==>
                  r.triBuffer.value.handle == s.nextHandle + Allocated(s.meshInfoBuffer, |flushed.splitMeshes|))
            && (!Reallocates(s.triBuffer, |flushed.triangles|) ==> r.triBuffer.value.handle == s.triBuffer.value.handle)
            && r.nextHandle == s.nextHandle + Allocated(s.meshInfoBuffer, |flushed.splitMeshes|) + Allocated(s.triBuffer, |flushed.triangles|)
            && r.calls == s.calls + [SetBuffer("_MeshInfo", BufferHandle(r.meshInfoBuffer)), SetBuffer("_Tris", BufferHandle(r.triBuffer))]
            && r == s.(splitter := Initial(), meshInfoBuffer := r.meshInfoBuffer, triBuffer := r.triBuffer,
                       nextHandle := r.nextHandle, calls := r.calls))
  {
    if Uploads(flushed) {
      UploadEffect(s.meshInfoBuffer, flushed.splitMeshes, c.meshInfoStride, s.nextHandle);
      UploadEffect(s.triBuffer, flushed.triangles, c.triangleStride,
                   s.nextHandle + Allocated(s.meshInfoBuffer, |flushed.splitMeshes|));
    }
  }

  // ---------------------------------------------------------------------
  // ResetBuffers and UpdateParameters

  /** On an empty splitter, the meshes of a scene are uploaded exactly when
      there is at least one mesh and the meshes have at least one triangle
      between them. */
  lemma MeshesUploaded<V, Mat, M>(meshes: seq<RayTracedMesh<V, Mat, M>>)
    requires AllValid(meshes)
    ensures Uploads(SplitAll(Initial(), meshes)) <==> meshes != [] && AllTriangles(meshes) != []
  {
    SplitAllShape(Initial(), meshes);
  }

  /** What a rebuild of `scene` leaves in `r`, starting from the buffers of
      `s`: the caches hold the scene; the sphere buffer holds its sphere
      records when there are spheres and is untouched otherwise; the mesh
      buffers hold one MeshInfo per mesh and every mesh's triangles (less the
      ones the split loop drops) when there are some, and are untouched
      otherwise. */
  ghost predicate HoldsScene<V, Mat, M>(c: Settings<V, Mat>, s: DriverState<V, Mat, M>, r: DriverState<V, Mat, M>, scene: Scene<V, Mat, M>)
    requires AllValid(scene.meshes)
  {
    var flushed := SplitAll(Initial(), scene.meshes);
    && r.cachedSpheres == scene.spheres && r.cachedMeshes == scene.meshes
    && (scene.spheres != [] ==> r.sphereBuffer.Some? && r.sphereBuffer.value.data == SphereSnapshot(scene.spheres, c.defaultSphere))
    && (scene.spheres == [] ==> r.sphereBuffer == s.sphereBuffer)
    && (Uploads(flushed) ==>
          && r.meshInfoBuffer.Some? && |r.meshInfoBuffer.value.data| == |scene.meshes|
          && r.meshInfoBuffer.value.data == flushed.splitMeshes
          && r.triBuffer.Some? && r.triBuffer.value.data == AllTriangles(scene.meshes))
    && (!Uploads(flushed) ==> r.meshInfoBuffer == s.meshInfoBuffer && r.triBuffer == s.triBuffer)
  }

  /** ResetBuffers, from a driver whose splitter is empty: the buffers and
      caches hold the scene (HoldsScene); the flag is clear, the splitter
      empty, and the textures, counter and initialization are untouched. */
  lemma ResetBuffersEffect<V, Mat, M>(c: Settings<V, Mat>, s: DriverState<V, Mat, M>, scene: Scene<V, Mat, M>)
    requires AllValid(scene.meshes) && s.splitter == Initial()
    ensures var r := AfterResetBuffers(c, s, scene);
      && HoldsScene(c, s, r, scene)
      && !r.rebuildRequested && r.splitter == Initial()
      && r.rayTracedTexture == s.rayTracedTexture && r.accumulativeTexture == s.accumulativeTexture
      && r.iterationCount == s.iterationCount && r.isInitialized == s.isInitialized
  {
    var collected := s.(cachedSpheres := scene.spheres, cachedMeshes := scene.meshes);
    var uploaded := UploadSpheres(c, collected);
    var flushed := SplitAll(Initial(), scene.meshes);
    SphereUploadEffect(c, collected);
    MeshUploadEffect(c, uploaded, flushed);
    SplitAllShape(Initial(), scene.meshes);
    assert flushed.triangles == AllTriangles(scene.meshes) by {
      assert Initial<V, Mat, M>().triangles + AllTriangles(scene.meshes) == AllTriangles(scene.meshes);
    }
  }

  /** `after` is the buffer `before` was (same handle), or one whose handle
      was given out in [from, to). */
  ghost predicate KeptOrNew<E>(before: Option<GpuBuffer<E>>, after: Option<GpuBuffer<E>>, from: nat, to: nat) {
    BufferHandle(after) == BufferHandle(before) || (after.Some? && from <= after.value.handle < to)
  }

  /** The engine calls of ResetBuffers are only the bindings of the buffers
      it leaves held; no buffer is released. */
  lemma ResetBuffersCalls<V, Mat, M>(c: Settings<V, Mat>, s: DriverState<V, Mat, M>, scene: Scene<V, Mat, M>)
    requires AllValid(scene.meshes)
    ensures var r := AfterResetBuffers(c, s, scene);
      && r.calls == s.calls + BindCalls(scene, SplitAll(s.splitter, scene.meshes), r)
      && s.nextHandle <= r.nextHandle
  {
    var collected := s.(cachedSpheres := scene.spheres, cachedMeshes := scene.meshes);
    var uploaded := UploadSpheres(c, collected);
    SphereUploadEffect(c, collected);
    MeshUploadEffect(c, uploaded, SplitAll(s.splitter, scene.meshes));
  }

  /** Each buffer ResetBuffers leaves held is the one held before or a new
      one whose handle was given out during the rebuild, so no handle is
      reused. */
  lemma ResetBuffersHandles<V, Mat, M>(c: Settings<V, Mat>, s: DriverState<V, Mat, M>, scene: Scene<V, Mat, M>)
    requires AllValid(scene.meshes)
    ensures var r := AfterResetBuffers(c, s, scene);
      && KeptOrNew(s.sphereBuffer, r.sphereBuffer, s.nextHandle, r.nextHandle)
      && KeptOrNew(s.meshInfoBuffer, r.meshInfoBuffer, s.nextHandle, r.nextHandle)
      && KeptOrNew(s.triBuffer, r.triBuffer, s.nextHandle, r.nextHandle)
  {
    var collected := s.(cachedSpheres := scene.spheres, cachedMeshes := scene.meshes);
    var uploaded := UploadSpheres(c, collected);
    SphereUploadEffect(c, collected);
    MeshUploadEffect(c, uploaded, SplitAll(s.splitter, scene.meshes));
  }

  /** UpdateParameters always leaves the flag clear. The parameter bindings
      come first; when the flag was set the buffers are rebuilt from the
      scene, and when it was not, the bindings are all that happens. The textures, counter
      and initialization are never touched. */
  lemma UpdateParametersEffect<V, Mat, M>(c: Settings<V, Mat>, s: DriverState<V, Mat, M>, scene: Scene<V, Mat, M>)
    requires AllValid(scene.meshes) && s.splitter == Initial()
    ensures var r := AfterUpdateParameters(c, s, scene);
      && !r.rebuildRequested
      && r.calls[..|s.calls| + 4] == s.calls + ParameterCalls(c, s)
      && (s.rebuildRequested ==> HoldsScene(c, s, r, scene) && r.splitter == Initial())
      && (!s.rebuildRequested ==> r == s.(calls := s.calls + ParameterCalls(c, s)))
      && r.rayTracedTexture == s.rayTracedTexture && r.accumulativeTexture == s.accumulativeTexture
      && r.iterationCount == s.iterationCount && r.isInitialized == s.isInitialized
  {
    var bound := s.(calls := s.calls + ParameterCalls(c, s));
    if s.rebuildRequested {
      ResetBuffersEffect(c, bound, scene);
      ResetBuffersCalls(c, bound, scene);
      var r := AfterResetBuffers(c, bound, scene);
      assert r.calls[..|s.calls| + 4] == (bound.calls + BindCalls(scene, SplitAll(Initial(), scene.meshes), r))[..|bound.calls|];
    }
  }

  // ---------------------------------------------------------------------
  // Kernel dispatches

  /** The Dispatch calls in `calls`, in order. */
  function Dispatches(calls: seq<EngineCall>): (r: seq<EngineCall>)
    ensures |r| <= |calls|
    ensures forall i :: 0 <= i < |r| ==> r[i].Dispatch?
  {
    if calls == [] then []
    else (if calls[0].Dispatch? then [calls[0]] else []) + Dispatches(calls[1..])
  }

  lemma {:induction false} DispatchesAppend(a: seq<EngineCall>, b: seq<EngineCall>)
    ensures Dispatches(a + b) == Dispatches(a) + Dispatches(b)
  {
    if a == [] {
      assert a + b == b;
    } else {
      assert (a + b)[1..] == a[1..] + b;
      DispatchesAppend(a[1..], b);
    }
  }

  /** Dispatches of a log with no dispatch in it: none. */
  lemma {:induction false} NoDispatches(calls: seq<EngineCall>)
    requires forall i :: 0 <= i < |calls| ==> !calls[i].Dispatch?
    ensures Dispatches(calls) == []
  {
    if calls != [] {
      NoDispatches(calls[1..]);
    }
  }

  /** UpdateParameters dispatches no kernel, rebuild or not. */
  lemma UpdateParametersDispatchesNothing<V, Mat, M>(c: Settings<V, Mat>, s: DriverState<V, Mat, M>, scene: Scene<V, Mat, M>)
    requires AllValid(scene.meshes)
    ensures var r := AfterUpdateParameters(c, s, scene);
      s.calls <= r.calls && Dispatches(r.calls[|s.calls|..]) == []
  {
    var r := AfterUpdateParameters(c, s, scene);
    var bound := s.(calls := s.calls + ParameterCalls(c, s));
    var binds := if s.rebuildRequested then BindCalls(scene, SplitAll(s.splitter, scene.meshes), r) else [];
    if s.rebuildRequested {
      ResetBuffersCalls(c, bound, scene);
    }
    calc {
      r.calls;
      s.calls + ParameterCalls(c, s) + binds;
      s.calls + (ParameterCalls(c, s) + binds);
    }
    assert r.calls[|s.calls|..] == ParameterCalls(c, s) + binds;
    NoDispatches(ParameterCalls(c, s));
    if s.rebuildRequested {
      BindingsDispatchNothing(scene, SplitAll(s.splitter, scene.meshes), r);
    }
    DispatchesAppend(ParameterCalls(c, s), binds);
  }

  /** A rebuild only binds buffers. */
  lemma BindingsDispatchNothing<V, Mat, M>(scene: Scene<V, Mat, M>, flushed: SplitterState<V, Mat, M>, r: DriverState<V, Mat, M>)
    ensures Dispatches(BindCalls(scene, flushed, r)) == []
  {
    NoDispatches(BindCalls(scene, flushed, r));
  }

  /** The kernels one frame dispatches: the tracer once, then the
      accumulator once when accumulation is on and its texture exists, both
      over ceil(width/8) x ceil(height/8) work groups. */
  function FrameDispatches(c: Settings, accumulativeTexture: Option<GpuTexture>, screen: Screen): seq<EngineCall>
    requires screen.width >= 0 && screen.height >= 0
  {
    var groupsX, groupsY := ThreadGroups(screen.width), ThreadGroups(screen.height);
    [Dispatch(RayTracer, groupsX, groupsY)] +
    if c.accumulateFrames && accumulativeTexture.Some? then [Dispatch(Accumulator, groupsX, groupsY)] else []
  }

  // ---------------------------------------------------------------------
  // RunShader, InitializeShader and OnRenderImage

  /** One frame: the counter goes up by one (as a C# int); the flag is
      clear afterwards; the scene is re-collected when rebuilding every
      frame or when the flag was set, and the buffers rebuilt from it
      (HoldsScene); the buffers and caches are untouched otherwise; an
      uninitialized driver gets a ray-traced texture
      of the screen's size, an initialized one keeps its own; the
      accumulation texture is never touched. */
  lemma RunShaderEffect<V, Mat, M>(c: Settings<V, Mat>, s: DriverState<V, Mat, M>, scene: Scene<V, Mat, M>, screen: Screen)
    requires Int32.InRange(s.iterationCount) && AllValid(scene.meshes) && screen.width >= 0 && screen.height >= 0
    requires s.splitter == Initial()
    ensures var r := AfterRunShader(c, s, scene, screen);
      && r.iterationCount == Int32.Increment(s.iterationCount)
      && !r.rebuildRequested && r.splitter == Initial() && r.isInitialized == s.isInitialized
      && ((c.resetBuffersOnUpdate || s.rebuildRequested) ==> HoldsScene(c, s, r, scene))
      && (!(c.resetBuffersOnUpdate || s.rebuildRequested) ==>
            && r.cachedSpheres == s.cachedSpheres && r.cachedMeshes == s.cachedMeshes
            && r.sphereBuffer == s.sphereBuffer && r.meshInfoBuffer == s.meshInfoBuffer && r.triBuffer == s.triBuffer)
      && (s.isInitialized ==> r.rayTracedTexture == s.rayTracedTexture)
      && (!s.isInitialized ==> TextureInitialized(r.rayTracedTexture, s.rayTracedTexture, screen, s.nextHandle))
      && r.accumulativeTexture == s.accumulativeTexture
  {
    var requested := if c.resetBuffersOnUpdate then s.(rebuildRequested := true) else s;
    var fitted := if requested.isInitialized then requested else FitRayTraced(requested, screen);
    UpdateParametersEffect(c, fitted, scene);
  }

  /** The engine calls of one frame only grow the log, and the kernels
      they dispatch are exactly those of the frame: the tracer, then the
      accumulator when accumulation is on and its texture exists. */
  lemma RunShaderDispatches<V, Mat, M>(c: Settings<V, Mat>, s: DriverState<V, Mat, M>, scene: Scene<V, Mat, M>, screen: Screen)
    requires Int32.InRange(s.iterationCount) && AllValid(scene.meshes) && screen.width >= 0 && screen.height >= 0
    requires s.splitter == Initial()
    ensures var r := AfterRunShader(c, s, scene, screen);
      s.calls <= r.calls && Dispatches(r.calls[|s.calls|..]) == FrameDispatches(c, s.accumulativeTexture, screen)
  {
    var requested := if c.resetBuffersOnUpdate then s.(rebuildRequested := true) else s;
    var fitted := if requested.isInitialized then requested else FitRayTraced(requested, screen);
    var updated := AfterUpdateParameters(c, fitted, scene);
    var groupsX, groupsY := ThreadGroups(screen.width), ThreadGroups(screen.height);
    var traced := updated.(calls := updated.calls + [Dispatch(RayTracer, groupsX, groupsY)]);
    var extra := if c.accumulateFrames && updated.accumulativeTexture.Some? then
        AccumulatorCalls(updated.accumulativeTexture, updated.rayTracedTexture, updated.iterationCount) + [Dispatch(Accumulator, groupsX, groupsY)]
      else [];
    var accumulated := traced.(calls := traced.calls + extra);
    RunShaderSteps(c, s, scene, screen, requested, fitted, updated, traced, accumulated);

    // Before the tracer: the texture InitRenderTexture releases, if any,
    // then UpdateParameters.
    if !requested.isInitialized {
      FitDispatchesNothing(requested, screen);
    } else {
      assert fitted.calls[|s.calls|..] == [];
    }
    UpdateParametersDispatchesNothing(c, fitted, scene);
    UpdateParametersFrame(c, fitted, scene);
    // After it: the accumulator's parameters and dispatch.
    AccumulatorDispatch(updated.accumulativeTexture, updated.rayTracedTexture, updated.iterationCount, Dispatch(Accumulator, groupsX, groupsY));
    LogDispatches(s.calls, fitted.calls, updated.calls, Dispatch(RayTracer, groupsX, groupsY), extra);
  }

  /** InitRenderTexture dispatches nothing. */
  lemma FitDispatchesNothing<V, Mat, M>(s: DriverState<V, Mat, M>, screen: Screen)
    ensures var r := FitRayTraced(s, screen);
      s.calls <= r.calls && Dispatches(r.calls[|s.calls|..]) == []
  {
    var r := FitRayTraced(s, screen);
    assert r.calls[|s.calls|..] == TextureReleases(s.rayTracedTexture, screen);
    NoDispatches(TextureReleases(s.rayTracedTexture, screen));
  }

  /** SetAccumulativeParameters dispatches nothing itself. */
  lemma AccumulatorDispatch(accumulativeTexture: Option<GpuTexture>, rayTracedTexture: Option<GpuTexture>, frameCount: int, dispatch: EngineCall)
    requires dispatch.Dispatch?
    ensures Dispatches(AccumulatorCalls(accumulativeTexture, rayTracedTexture, frameCount) + [dispatch]) == [dispatch]
  {
    NoDispatches(AccumulatorCalls(accumulativeTexture, rayTracedTexture, frameCount));
    DispatchesAppend(AccumulatorCalls(accumulativeTexture, rayTracedTexture, frameCount), [dispatch]);
  }

  /** A log that grows by two dispatch-free stretches, one dispatch and then
      `extra` has dispatched that one and those of `extra`. */
  lemma LogDispatches(start: seq<EngineCall>, middle: seq<EngineCall>, end: seq<EngineCall>, dispatch: EngineCall, extra: seq<EngineCall>)
    requires start <= middle <= end && dispatch.Dispatch?
    requires Dispatches(middle[|start|..]) == [] && Dispatches(end[|middle|..]) == []
    ensures start <= end + [dispatch] + extra
    ensures Dispatches((end + [dispatch] + extra)[|start|..]) == [dispatch] + Dispatches(extra)
  {
    var quiet, later := middle[|start|..], end[|middle|..];
    assert (end + [dispatch] + extra)[|start|..] == quiet + later + [dispatch] + extra;
    DispatchesAppend(quiet, later);
    DispatchesAppend(quiet + later, [dispatch]);
    DispatchesAppend(quiet + later + [dispatch], extra);
  }

  /** InitializeShader: the driver is initialized, holds the scene in its
      caches and buffers, has a
      ray-traced texture of the screen's size (and an accumulation texture
      of that size when accumulating; the one it had otherwise), the flag is
      clear and the counter untouched. */
  lemma InitializeShaderEffect<V, Mat, M>(c: Settings<V, Mat>, s: DriverState<V, Mat, M>, scene: Scene<V, Mat, M>, screen: Screen)
    requires AllValid(scene.meshes) && s.splitter == Initial()
    ensures var r := AfterInitializeShader(c, s, scene, screen);
      && r.isInitialized && !r.rebuildRequested && r.splitter == Initial()
      && HoldsScene(c, s, r, scene)
      && r.iterationCount == s.iterationCount
      && TextureInitialized(r.rayTracedTexture, s.rayTracedTexture, screen, s.nextHandle)
      && (c.accumulateFrames ==>
            TextureInitialized(r.accumulativeTexture, s.accumulativeTexture, screen,
                               s.nextHandle + Allocations(s.rayTracedTexture, screen)))
      && (!c.accumulateFrames ==> r.accumulativeTexture == s.accumulativeTexture)
  {
    var collected := s.(cachedSpheres := scene.spheres, cachedMeshes := scene.meshes);
    var traced := FitRayTraced(collected, screen);
    var fitted := if c.accumulateFrames then FitAccumulative(traced, screen) else traced;
    ResetBuffersEffect(c, fitted, scene);
  }

  /** The surface OnRenderImage presents, as the handle the final Blit
      passes: None when the source image is copied. */
  function Shown<V, Mat, M>(p: Presented, r: DriverState<V, Mat, M>): EngineCall {
    match p
    case RayTracedFrame => Blit(TextureHandle(r.rayTracedTexture))
    case AccumulatedFrame => Blit(TextureHandle(r.accumulativeTexture))
    case SourceFrame => BlitSource
  }

  /** OnRenderImage: its last engine call copies the surface PresentedSurface
      chooses, taken from the state after the frame. Outside the scene-view
      path that copy is all that happens, so with the tracer off the source
      image passes through untouched. On the scene-view path the driver ends
      up initialized and the counter goes up by one. */
  lemma RenderImageEffect<V, Mat, M>(c: Settings<V, Mat>, s: DriverState<V, Mat, M>, scene: Scene<V, Mat, M>, screen: Screen,
                                     isSceneCamera: bool, isMainCamera: bool)
    requires Int32.InRange(s.iterationCount) && AllValid(scene.meshes) && screen.width >= 0 && screen.height >= 0
    requires s.splitter == Initial()
    ensures var r := AfterRenderImage(c, s, scene, screen, isSceneCamera, isMainCamera);
      var p := PresentedSurface(isSceneCamera, isMainCamera, c.useShaderInSceneView, c.useRayTracer,
                                c.accumulateFrames, s.accumulativeTexture.Some?);
      && |r.calls| > 0 && r.calls[|r.calls| - 1] == Shown(p, r)
      && (p == AccumulatedFrame ==> r.accumulativeTexture.Some?)
      && (!c.useRayTracer ==> r == s.(calls := s.calls + [BlitSource]))
      && (!(isSceneCamera && c.useShaderInSceneView && c.useRayTracer) ==> r == s.(calls := s.calls + [Shown(p, r)]))
      && (isSceneCamera && c.useShaderInSceneView && c.useRayTracer ==>
            r.isInitialized && r.iterationCount == Int32.Increment(s.iterationCount))
  {
    if isSceneCamera && c.useShaderInSceneView && c.useRayTracer {
      var initialized := if s.isInitialized then s else AfterInitializeShader(c, s, scene, screen);
      if !s.isInitialized {
        InitializeShaderEffect(c, s, scene, screen);
      }
      RunShaderEffect(c, initialized, scene, screen);
    }
  }

  // ---------------------------------------------------------------------
  // OnDisable

  /** OnDisable: every held buffer is released and still held (same handle,
      same records); the engine calls it makes are one Release per held
      buffer, in field order, so a handle is released exactly when it is one
      of the held buffers'; the driver is uninitialized, and the textures,
      caches and counter are kept. */
  lemma DisableEffect<V, Mat, M>(s: DriverState<V, Mat, M>)
    ensures var r := AfterDisable(s);
      && !r.isInitialized
      && BufferHandle(r.sphereBuffer) == BufferHandle(s.sphereBuffer)
      && BufferHandle(r.meshInfoBuffer) == BufferHandle(s.meshInfoBuffer)
      && BufferHandle(r.triBuffer) == BufferHandle(s.triBuffer)
      && (r.sphereBuffer.Some? ==> r.sphereBuffer.value.released && r.sphereBuffer.value.data == s.sphereBuffer.value.data)
      && (r.meshInfoBuffer.Some? ==> r.meshInfoBuffer.value.released && r.meshInfoBuffer.value.data == s.meshInfoBuffer.value.data)
      && (r.triBuffer.Some? ==> r.triBuffer.value.released && r.triBuffer.value.data == s.triBuffer.value.data)
      && r.calls == s.calls + ReleaseCalls(HeldBuffers(s))
      && r.rayTracedTexture == s.rayTracedTexture && r.accumulativeTexture == s.accumulativeTexture
      && r.cachedSpheres == s.cachedSpheres && r.cachedMeshes == s.cachedMeshes
      && r.iterationCount == s.iterationCount
  {
    var spheres, infos := BufferRelease(s.sphereBuffer), BufferRelease(s.meshInfoBuffer);
    var tris := BufferRelease(s.triBuffer);
    ReleaseCallsAppend(HeldBuffer(s.sphereBuffer), HeldBuffer(s.meshInfoBuffer));
    ReleaseCallsAppend(HeldBuffer(s.sphereBuffer) + HeldBuffer(s.meshInfoBuffer), HeldBuffer(s.triBuffer));
    calc {
      AfterDisable(s).calls;
      s.calls + spheres + infos + tris;
      s.calls + (spheres + infos + tris);
    }
  }

  /** OnDisable releases the buffers but leaves them in their fields, so a
      later rebuild with as many sphere slots as before keeps the released
      sphere buffer, fills it and binds it again; no new buffer is made. */
  lemma ReleasedSphereBufferRebound<V, Mat, M>(c: Settings<V, Mat>, s: DriverState<V, Mat, M>, scene: Scene<V, Mat, M>)
    requires AllValid(scene.meshes) && scene.spheres != []
    requires s.sphereBuffer.Some? && s.sphereBuffer.value.count == |scene.spheres|
    ensures var r := AfterResetBuffers(c, AfterDisable(s), scene);
      && r.sphereBuffer.Some? && r.sphereBuffer.value.handle == s.sphereBuffer.value.handle
      && r.sphereBuffer.value.released
      && SetBuffer("_Spheres", Some(s.sphereBuffer.value.handle)) in r.calls
  {
    var disabled := AfterDisable(s);
    var collected := disabled.(cachedSpheres := scene.spheres, cachedMeshes := scene.meshes);
    var uploaded := UploadSpheres(c, collected);
    var meshes := UploadMeshes(c, uploaded, SplitAll(uploaded.splitter, uploaded.cachedMeshes));
    ResetBuffersSteps(c, disabled, scene, collected, uploaded, meshes);
    SphereUploadEffect(c, collected);
    UploadEffect(collected.sphereBuffer, SphereSnapshot(scene.spheres, c.defaultSphere), c.sphereStride, collected.nextHandle);
    MeshUploadEffect(c, uploaded, SplitAll(uploaded.splitter, uploaded.cachedMeshes));
    assert uploaded.calls[|uploaded.calls| - 1] == meshes.calls[|uploaded.calls| - 1];
  }

  /** The handle of a held buffer, as a list of zero or one. */
  function HeldBuffer<E>(b: Option<GpuBuffer<E>>): (r: seq<nat>)
    ensures ReleaseCalls(r) == BufferRelease(b)
  {
    if b.Some? then [b.value.handle] else []
  }

  /** The handles of the buffers the driver holds, in field order. */
  function HeldBuffers<V, Mat, M>(s: DriverState<V, Mat, M>): seq<nat> {
    HeldBuffer(s.sphereBuffer) + HeldBuffer(s.meshInfoBuffer) + HeldBuffer(s.triBuffer)
  }

  /** One ReleaseBuffer call per handle, in order. */
  function ReleaseCalls(handles: seq<nat>): (r: seq<EngineCall>)
    ensures |r| == |handles|
    ensures forall i :: 0 <= i < |r| ==> r[i] == ReleaseBuffer(handles[i])
  {
    if handles == [] then [] else [ReleaseBuffer(handles[0])] + ReleaseCalls(handles[1..])
  }

  /** A handle is released exactly when it is in the list, and nothing but
      buffers is released. */
  lemma ReleaseCallsMembers(handles: seq<nat>)
    ensures forall h :: ReleaseBuffer(h) in ReleaseCalls(handles) <==> h in handles
    ensures forall call :: call in ReleaseCalls(handles) ==> call.ReleaseBuffer?
  {
    var r := ReleaseCalls(handles);
    forall h ensures ReleaseBuffer(h) in r <==> h in handles {
      if h in handles {
        var i :| 0 <= i < |handles| && handles[i] == h;
        assert r[i] == ReleaseBuffer(h);
      }
    }
  }

  lemma ReleaseCallsAppend(a: seq<nat>, b: seq<nat>)
    ensures ReleaseCalls(a + b) == ReleaseCalls(a) + ReleaseCalls(b)
  {
  }

  // ---------------------------------------------------------------------
  // An invariant of the driver

  /** The handles of every GPU object the driver holds. */
  function HeldHandles<V, Mat, M>(s: DriverState<V, Mat, M>): seq<Option<nat>> {
    [TextureHandle(s.accumulativeTexture), TextureHandle(s.rayTracedTexture),
     BufferHandle(s.sphereBuffer), BufferHandle(s.meshInfoBuffer), BufferHandle(s.triBuffer)]
  }

  /** Handles that are pairwise distinct and all below `next`. */
  ghost predicate DistinctBelow(handles: seq<Option<nat>>, next: nat) {
    && (forall i :: 0 <= i < |handles| && handles[i].Some? ==> handles[i].value < next)
    && (forall i, j :: 0 <= i < j < |handles| && handles[i].Some? ==> handles[i] != handles[j])
  }

  /** Between entry points: the counter is a C# int, the shared splitter is
      empty, an initialized driver has a ray-traced texture, and the objects
      it holds have distinct handles, all below the next one to be given
      out. */
  ghost predicate Consistent<V, Mat, M>(s: DriverState<V, Mat, M>) {
    && Int32.InRange(s.iterationCount)
    && s.splitter == Initial()
    && (s.isInitialized ==> s.rayTracedTexture.Some?)
    && DistinctBelow(HeldHandles(s), s.nextHandle)
  }

  /** A later state of the same driver: the call log only grows and handles
      are never given out twice. */
  ghost predicate Advances<V, Mat, M>(s: DriverState<V, Mat, M>, r: DriverState<V, Mat, M>) {
    s.calls <= r.calls && s.nextHandle <= r.nextHandle
  }

  /** Replacing one held object by itself or by a new one that takes the
      next handle keeps the handles distinct and below the next one. */
  lemma {:induction false} ReplaceHandle(handles: seq<Option<nat>>, next: nat, k: nat, h: Option<nat>, next': nat)
    requires DistinctBelow(handles, next) && k < |handles|
    requires (h == handles[k] && next <= next') || (h == Some(next) && next < next')
    ensures DistinctBelow(handles[k := h], next')
  {
    var r := handles[k := h];
    forall i, j | 0 <= i < j < |r| && r[i].Some?
      ensures r[i] != r[j]
    {
      if i != k && j != k {
        assert r[i] == handles[i] && r[j] == handles[j];
      }
    }
  }

  /** The driver as constructed. */
  lemma InitialConsistent<V, Mat, M>(s: DriverState<V, Mat, M>)
    requires s == DriverState(None, None, [], None, [], None, None, 0, false, Initial(), false, [], 0)
    ensures Consistent(s)
  {
  }

  lemma FitRayTracedConsistent<V, Mat, M>(s: DriverState<V, Mat, M>, screen: Screen)
    requires Consistent(s)
    ensures Consistent(FitRayTraced(s, screen)) && Advances(s, FitRayTraced(s, screen))
  {
    var r := FitRayTraced(s, screen);
    assert HeldHandles(r) == HeldHandles(s)[1 := TextureHandle(r.rayTracedTexture)];
    ReplaceHandle(HeldHandles(s), s.nextHandle, 1, TextureHandle(r.rayTracedTexture), r.nextHandle);
  }

  lemma FitAccumulativeConsistent<V, Mat, M>(s: DriverState<V, Mat, M>, screen: Screen)
    requires Consistent(s)
    ensures Consistent(FitAccumulative(s, screen)) && Advances(s, FitAccumulative(s, screen))
  {
    var r := FitAccumulative(s, screen);
    assert HeldHandles(r) == HeldHandles(s)[0 := TextureHandle(r.accumulativeTexture)];
    ReplaceHandle(HeldHandles(s), s.nextHandle, 0, TextureHandle(r.accumulativeTexture), r.nextHandle);
  }

  lemma UploadSpheresConsistent<V, Mat, M>(c: Settings<V, Mat>, s: DriverState<V, Mat, M>)
    requires Consistent(s)
    ensures Consistent(UploadSpheres(c, s)) && Advances(s, UploadSpheres(c, s))
  {
    var r := UploadSpheres(c, s);
    if s.cachedSpheres != [] {
      SphereUploadEffect(c, s);
      assert HeldHandles(r) == HeldHandles(s)[2 := BufferHandle(r.sphereBuffer)];
      ReplaceHandle(HeldHandles(s), s.nextHandle, 2, BufferHandle(r.sphereBuffer), r.nextHandle);
    }
  }

  lemma UploadMeshesConsistent<V, Mat, M>(c: Settings<V, Mat>, s: DriverState<V, Mat, M>, flushed: SplitterState<V, Mat, M>)
    requires Consistent(s.(splitter := Initial()))
    ensures Consistent(UploadMeshes(c, s, flushed)) && Advances(s, UploadMeshes(c, s, flushed))
  {
    var r := UploadMeshes(c, s, flushed);
    MeshUploadEffect(c, s, flushed);
    if Uploads(flushed) {
      var next := s.nextHandle + Allocated(s.meshInfoBuffer, |flushed.splitMeshes|);
      var infos := HeldHandles(s)[3 := BufferHandle(r.meshInfoBuffer)];
      ReplaceHandle(HeldHandles(s), s.nextHandle, 3, BufferHandle(r.meshInfoBuffer), next);
      assert HeldHandles(r) == infos[4 := BufferHandle(r.triBuffer)];
      ReplaceHandle(infos, next, 4, BufferHandle(r.triBuffer), r.nextHandle);
    } else {
      assert HeldHandles(r) == HeldHandles(s);
    }
  }

  /** ResetBuffers keeps the driver consistent. */
  lemma ResetBuffersConsistent<V, Mat, M>(c: Settings<V, Mat>, s: DriverState<V, Mat, M>, scene: Scene<V, Mat, M>)
    requires Consistent(s) && AllValid(scene.meshes)
    ensures Consistent(AfterResetBuffers(c, s, scene)) && Advances(s, AfterResetBuffers(c, s, scene))
  {
    var collected := s.(cachedSpheres := scene.spheres, cachedMeshes := scene.meshes);
    assert HeldHandles(collected) == HeldHandles(s);
    var uploaded := UploadSpheres(c, collected);
    UploadSpheresConsistent(c, collected);
    UploadMeshesConsistent(c, uploaded, SplitAll(uploaded.splitter, scene.meshes));
    var r := AfterResetBuffers(c, s, scene);
    assert HeldHandles(r) == HeldHandles(UploadMeshes(c, uploaded, SplitAll(uploaded.splitter, scene.meshes)));
  }

  /** UpdateParameters keeps the driver consistent. */
  lemma UpdateParametersConsistent<V, Mat, M>(c: Settings<V, Mat>, s: DriverState<V, Mat, M>, scene: Scene<V, Mat, M>)
    requires Consistent(s) && AllValid(scene.meshes)
    ensures Consistent(AfterUpdateParameters(c, s, scene)) && Advances(s, AfterUpdateParameters(c, s, scene))
  {
    var bound := s.(calls := s.calls + ParameterCalls(c, s));
    assert HeldHandles(bound) == HeldHandles(s);
    if s.rebuildRequested {
      ResetBuffersConsistent(c, bound, scene);
    }
  }

  /** RunShader keeps the driver consistent. */
  lemma RunShaderConsistent<V, Mat, M>(c: Settings<V, Mat>, s: DriverState<V, Mat, M>, scene: Scene<V, Mat, M>, screen: Screen)
    requires Consistent(s) && AllValid(scene.meshes) && screen.width >= 0 && screen.height >= 0
    ensures Consistent(AfterRunShader(c, s, scene, screen)) && Advances(s, AfterRunShader(c, s, scene, screen))
  {
    var requested := if c.resetBuffersOnUpdate then s.(rebuildRequested := true) else s;
    var fitted := if requested.isInitialized then requested else FitRayTraced(requested, screen);
    assert Consistent(fitted) && Advances(s, fitted) by {
      assert HeldHandles(requested) == HeldHandles(s);
      if !requested.isInitialized {
        FitRayTracedConsistent(requested, screen);
      }
    }
    var updated := AfterUpdateParameters(c, fitted, scene);
    UpdateParametersConsistent(c, fitted, scene);
    UpdateParametersFrame(c, fitted, scene);
    var groupsX, groupsY := ThreadGroups(screen.width), ThreadGroups(screen.height);
    var traced := updated.(calls := updated.calls + [Dispatch(RayTracer, groupsX, groupsY)]);
    var accumulated := if c.accumulateFrames && traced.accumulativeTexture.Some? then
        traced.(calls := traced.calls + AccumulatorCalls(traced.accumulativeTexture, traced.rayTracedTexture, traced.iterationCount) + [Dispatch(Accumulator, groupsX, groupsY)])
      else traced;
    RunShaderSteps(c, s, scene, screen, requested, fitted, updated, traced, accumulated);
    CountedFrameConsistent(s, fitted, updated, AfterRunShader(c, s, scene, screen));
  }

  /** The end of a frame, after UpdateParameters: logging engine calls and
      counting the frame keep the driver consistent. */
  lemma CountedFrameConsistent<V, Mat, M>(s: DriverState<V, Mat, M>, fitted: DriverState<V, Mat, M>,
                                          updated: DriverState<V, Mat, M>, r: DriverState<V, Mat, M>)
    requires Advances(s, fitted) && Advances(fitted, updated) && Consistent(updated)
    requires updated.calls <= r.calls
    requires r == updated.(calls := r.calls, iterationCount := Int32.Increment(updated.iterationCount))
    ensures Consistent(r) && Advances(s, r)
  {
    assert HeldHandles(r) == HeldHandles(updated);
    AdvancesTransitive(s, fitted, updated);
    AdvancesTransitive(s, updated, r);
  }

  lemma AdvancesTransitive<V, Mat, M>(s: DriverState<V, Mat, M>, t: DriverState<V, Mat, M>, r: DriverState<V, Mat, M>)
    requires Advances(s, t) && Advances(t, r)
    ensures Advances(s, r)
  {
    assert r.calls[..|s.calls|] == r.calls[..|t.calls|][..|s.calls|];
  }

  /** InitializeShader keeps the driver consistent. */
  lemma InitializeShaderConsistent<V, Mat, M>(c: Settings<V, Mat>, s: DriverState<V, Mat, M>, scene: Scene<V, Mat, M>, screen: Screen)
    requires Consistent(s) && AllValid(scene.meshes)
    ensures Consistent(AfterInitializeShader(c, s, scene, screen)) && Advances(s, AfterInitializeShader(c, s, scene, screen))
  {
    var collected := s.(cachedSpheres := scene.spheres, cachedMeshes := scene.meshes);
    assert HeldHandles(collected) == HeldHandles(s);
    var traced := FitRayTraced(collected, screen);
    FitRayTracedConsistent(collected, screen);
    var fitted := if c.accumulateFrames then FitAccumulative(traced, screen) else traced;
    if c.accumulateFrames {
      FitAccumulativeConsistent(traced, screen);
    }
    ResetBuffersConsistent(c, fitted, scene);
    ResetBuffersEffect(c, fitted, scene);
    var r := AfterInitializeShader(c, s, scene, screen);
    assert HeldHandles(r) == HeldHandles(AfterResetBuffers(c, fitted, scene));
  }

  /** OnRenderImage keeps the driver consistent. */
  lemma RenderImageConsistent<V, Mat, M>(c: Settings<V, Mat>, s: DriverState<V, Mat, M>, scene: Scene<V, Mat, M>, screen: Screen,
                                         isSceneCamera: bool, isMainCamera: bool)
    requires Consistent(s) && AllValid(scene.meshes) && screen.width >= 0 && screen.height >= 0
    ensures var r := AfterRenderImage(c, s, scene, screen, isSceneCamera, isMainCamera);
      Consistent(r) && Advances(s, r)
  {
    var r := AfterRenderImage(c, s, scene, screen, isSceneCamera, isMainCamera);
    if isSceneCamera && c.useShaderInSceneView && c.useRayTracer {
      var initialized := if s.isInitialized then s else AfterInitializeShader(c, s, scene, screen);
      if !s.isInitialized {
        InitializeShaderConsistent(c, s, scene, screen);
      }
      RunShaderConsistent(c, initialized, scene, screen);
      assert HeldHandles(r) == HeldHandles(AfterRunShader(c, initialized, scene, screen));
    } else {
      assert HeldHandles(r) == HeldHandles(s);
    }
  }

  /** OnDisable keeps the driver consistent. */
  lemma DisableConsistent<V, Mat, M>(s: DriverState<V, Mat, M>)
    requires Consistent(s)
    ensures Consistent(AfterDisable(s)) && Advances(s, AfterDisable(s))
  {
    assert HeldHandles(AfterDisable(s)) == HeldHandles(s);
  }
}
