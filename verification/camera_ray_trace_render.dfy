/** The per-frame driver (Assets/Scripts/CameraRayTraceRender.cs): it keeps
    a snapshot of the scene and three GPU buffers of its own, rebuilds them
    when the shared rebuild flag is set, counts iterations, dispatches the
    tracing and accumulation kernels and picks the texture to present.

    The GPU resources this component creates are recorded as values: a handle
    (numbered in creation order), their size and the state the engine keeps
    for them. The engine calls whose arguments the component decides are
    appended, in order, to a call log. Float parameters (camera, colours,
    light direction) are not part of the model.

    Each entry point is a method of the class `CameraRayTraceRender` whose
    effect is stated as a function `After...` of the state it starts from;
    what the source promises is proved about those functions. */
module Rendering {
  import opened Structs
  import opened Unity
  import opened SceneObjects
  import opened Splitting
  import Int32

  datatype Shader = RayTracer | Accumulator

  /** A compute buffer created by this component: `data` is what SetData last
      wrote, `released` whether Release was called on it. */
  datatype GpuBuffer<E> = GpuBuffer(handle: nat, count: int, stride: int, data: seq<E>, released: bool)

  /** A render texture created by this component. */
  datatype GpuTexture = GpuTexture(handle: nat, width: int, height: int, enableRandomWrite: bool, created: bool)

  /** The engine calls whose arguments the model tracks; a texture or buffer
      argument is the handle of the object passed, None for null. */
  datatype EngineCall =
    | SetTexture(shader: Shader, name: string, texture: Option<nat>)
    | SetInt(shader: Shader, name: string, value: int)
    | SetBuffer(name: string, buffer: Option<nat>)
    | Dispatch(shader: Shader, threadGroupsX: int, threadGroupsY: int)
    | Blit(texture: Option<nat>)
    | BlitSource
    | ReleaseTexture(releasedTexture: nat)
    | ReleaseBuffer(releasedBuffer: nat)

  /** What FindObjectsByType returns at the time of a call: the sphere
      components (None for a destroyed one) and the mesh components. */
  datatype Scene<V, Mat, M> = Scene(spheres: seq<Option<RayTracedSphere<V, Mat>>>, meshes: seq<RayTracedMesh<V, Mat, M>>)

  /** The inspector settings, Marshal.SizeOf of the three uploaded layouts and
      default(Sphere). */
  datatype Settings<V, Mat> = Settings(
    useRayTracer: bool, useShaderInSceneView: bool, raysPerPixel: int, maxBouces: int,
    resetBuffersOnUpdate: bool, accumulateFrames: bool,
    sphereStride: int, meshInfoStride: int, triangleStride: int, defaultSphere: Sphere<V, Mat>)

  /** Everything the driver's entry points change: its own fields, the
      shared splitter and rebuild flag, the call log and the next handle. */
  datatype DriverState<V, Mat, M> = DriverState(
    accumulativeTexture: Option<GpuTexture>,
    rayTracedTexture: Option<GpuTexture>,
    cachedSpheres: seq<Option<RayTracedSphere<V, Mat>>>,
    sphereBuffer: Option<GpuBuffer<Sphere<V, Mat>>>,
    cachedMeshes: seq<RayTracedMesh<V, Mat, M>>,
    meshInfoBuffer: Option<GpuBuffer<MeshInfo<V, Mat, M>>>,
    triBuffer: Option<GpuBuffer<Triangle<V>>>,
    iterationCount: int,
    isInitialized: bool,
    splitter: SplitterState<V, Mat, M>,
    rebuildRequested: bool,
    calls: seq<EngineCall>,
    nextHandle: nat)

  function TextureHandle(t: Option<GpuTexture>): Option<nat> {
    if t.Some? then Some(t.value.handle) else None
  }

  function BufferHandle<E>(b: Option<GpuBuffer<E>>): Option<nat> {
    if b.Some? then Some(b.value.handle) else None
  }

  /** Mathf.CeilToInt(pixels / 8.0f) for a non-negative pixel count: the
      least number of 8-pixel work groups that covers every pixel. */
  function ThreadGroups(pixels: int): (groups: int)
    requires pixels >= 0
    ensures groups >= 0 && 8 * groups >= pixels && 8 * (groups - 1) < pixels
  {
    (pixels + 7) / 8
  }

  /** Which surface OnRenderImage copies to the destination. */
  datatype Presented = RayTracedFrame | AccumulatedFrame | SourceFrame

  /** The branch structure of OnRenderImage: the scene-view path always shows
      the freshly traced frame; the main-camera path shows the accumulated
      frame when accumulation is on and its texture exists; with the tracer off
      (or any other camera) the source passes through. */
  function PresentedSurface(isSceneCamera: bool, isMainCamera: bool, useShaderInSceneView: bool,
                            useRayTracer: bool, accumulateFrames: bool, hasAccumulativeTexture: bool): (p: Presented)
    ensures p == SourceFrame <==> !useRayTracer || (!(isSceneCamera && useShaderInSceneView) && !isMainCamera)
    ensures p == AccumulatedFrame <==>
      useRayTracer && !(isSceneCamera && useShaderInSceneView) && isMainCamera && accumulateFrames && hasAccumulativeTexture
  {
    if isSceneCamera && useShaderInSceneView && useRayTracer then RayTracedFrame
    else if isMainCamera && useRayTracer then
      (if accumulateFrames && hasAccumulativeTexture then AccumulatedFrame else RayTracedFrame)
    else SourceFrame
  }

  // ---------------------------------------------------------------------
  // Textures

  /** InitRenderTexture's test: no texture, or one not of the screen's size. */
  predicate NeedsReallocation(t: Option<GpuTexture>, screen: Screen) {
    t.None? || t.value.width != screen.width || t.value.height != screen.height
  }

  /** How many handles InitRenderTexture uses up on `t`. */
  function Allocations(t: Option<GpuTexture>, screen: Screen): nat {
    if NeedsReallocation(t, screen) then 1 else 0
  }

  /** The Release InitRenderTexture issues on the texture it replaces. */
  function TextureReleases(t: Option<GpuTexture>, screen: Screen): seq<EngineCall> {
    if NeedsReallocation(t, screen) && t.Some? then [ReleaseTexture(t.value.handle)] else []
  }

  /** What InitRenderTexture leaves in place of `before`, when the next free
      handle was `firstFree`: a texture of the screen's size; a new,
      random-write, created one when reallocation is needed, `before` itself
      otherwise. */
  predicate TextureInitialized(after: Option<GpuTexture>, before: Option<GpuTexture>, screen: Screen, firstFree: nat) {
    && after.Some? && after.value.width == screen.width && after.value.height == screen.height
    && if NeedsReallocation(before, screen) then
         after.value.handle == firstFree && after.value.enableRandomWrite && after.value.created
       else
         after == before
  }

  /** The texture InitRenderTexture returns. */
  function FittedTexture(t: Option<GpuTexture>, screen: Screen, firstFree: nat): (r: GpuTexture)
    ensures TextureInitialized(Some(r), t, screen, firstFree)
  {
    if NeedsReallocation(t, screen) then GpuTexture(firstFree, screen.width, screen.height, true, true)
    else t.value
  }

  /** The state after InitRenderTexture(ref rayTracedTexture). */
  function FitRayTraced<V, Mat, M>(s: DriverState<V, Mat, M>, screen: Screen): DriverState<V, Mat, M> {
    s.(rayTracedTexture := Some(FittedTexture(s.rayTracedTexture, screen, s.nextHandle)),
       nextHandle := s.nextHandle + Allocations(s.rayTracedTexture, screen),
       calls := s.calls + TextureReleases(s.rayTracedTexture, screen))
  }

  /** The state after InitRenderTexture(ref accumulativeTexture). */
  function FitAccumulative<V, Mat, M>(s: DriverState<V, Mat, M>, screen: Screen): DriverState<V, Mat, M> {
    s.(accumulativeTexture := Some(FittedTexture(s.accumulativeTexture, screen, s.nextHandle)),
       nextHandle := s.nextHandle + Allocations(s.accumulativeTexture, screen),
       calls := s.calls + TextureReleases(s.accumulativeTexture, screen))
  }

  // ---------------------------------------------------------------------
  // Buffers

  /** The buffer-reuse test of the upload methods: no buffer, or one of
      another record count. */
  predicate Reallocates<E>(b: Option<GpuBuffer<E>>, count: int) {
    b.None? || b.value.count != count
  }

  /** How many handles an upload of `count` records into `b` uses up. */
  function Allocated<E>(b: Option<GpuBuffer<E>>, count: int): nat {
    if Reallocates(b, count) then 1 else 0
  }

  /** The buffer held after `data` is uploaded in place of `before`, when the
      next free handle is `firstFree`: a buffer of exactly |data| records
      holding `data`. The replaced buffer is simply dropped, not released. */
  function Upload<E>(before: Option<GpuBuffer<E>>, data: seq<E>, stride: int, firstFree: nat): (after: GpuBuffer<E>)
    ensures after.data == data && after.count == |data|
  {
    if Reallocates(before, |data|) then GpuBuffer(firstFree, |data|, stride, data, false)
    else before.value.(data := data)
  }

  /** The sphere records uploaded for a snapshot: slot i holds the i-th
      component's SphereInformation, or `empty` (default(Sphere)) for a
      destroyed one, so holes stay in place and nothing is compacted. */
  function SphereSnapshot<V, Mat>(slots: seq<Option<RayTracedSphere<V, Mat>>>, empty: Sphere<V, Mat>): (r: seq<Sphere<V, Mat>>)
    ensures |r| == |slots|
    ensures forall i :: 0 <= i < |slots| ==>
      r[i] == if slots[i].Some? then slots[i].value.SphereInformation() else empty
  {
    if slots == [] then []
    else
      var last := slots[|slots| - 1];
      SphereSnapshot(slots[..|slots| - 1], empty) + [if last.Some? then last.value.SphereInformation() else empty]
  }

  /** Mesh data is uploaded only when both flushed arrays are non-empty. */
  predicate Uploads<V, Mat, M>(flushed: SplitterState<V, Mat, M>) {
    flushed.splitMeshes != [] && flushed.triangles != []
  }

  /** The state after CreateAndSetSphereBuffer. */
  function UploadSpheres<V, Mat, M>(c: Settings<V, Mat>, s: DriverState<V, Mat, M>): DriverState<V, Mat, M> {
    var data := SphereSnapshot(s.cachedSpheres, c.defaultSphere);
    if data == [] then s
    else
      var buffer := Upload(s.sphereBuffer, data, c.sphereStride, s.nextHandle);
      s.(sphereBuffer := Some(buffer),
         nextHandle := s.nextHandle + Allocated(s.sphereBuffer, |data|),
         calls := s.calls + [SetBuffer("_Spheres", Some(buffer.handle))])
  }

  /** The state after CreateAndSetMeshBuffer, when the splitter flushed
      `flushed`. */
  function UploadMeshes<V, Mat, M>(c: Settings<V, Mat>, s: DriverState<V, Mat, M>, flushed: SplitterState<V, Mat, M>): DriverState<V, Mat, M> {
    if !Uploads(flushed) then s.(splitter := Initial())
    else
      var infos := Upload(s.meshInfoBuffer, flushed.splitMeshes, c.meshInfoStride, s.nextHandle);
      var next := s.nextHandle + Allocated(s.meshInfoBuffer, |flushed.splitMeshes|);
      var tris := Upload(s.triBuffer, flushed.triangles, c.triangleStride, next);
      s.(splitter := Initial(),
         meshInfoBuffer := Some(infos),
         triBuffer := Some(tris),
         nextHandle := next + Allocated(s.triBuffer, |flushed.triangles|),
         calls := s.calls + [SetBuffer("_MeshInfo", Some(infos.handle)), SetBuffer("_Tris", Some(tris.handle))])
  }

  /** The bindings a rebuild of `scene` issues, naming the buffers held in `r`
      afterwards: "_Spheres" when there are spheres, "_MeshInfo" and "_Tris"
      when the flushed arrays are uploaded. */
  function BindCalls<V, Mat, M>(scene: Scene<V, Mat, M>, flushed: SplitterState<V, Mat, M>, r: DriverState<V, Mat, M>): seq<EngineCall> {
    (if scene.spheres == [] then [] else [SetBuffer("_Spheres", BufferHandle(r.sphereBuffer))]) +
    (if Uploads(flushed) then
       [SetBuffer("_MeshInfo", BufferHandle(r.meshInfoBuffer)), SetBuffer("_Tris", BufferHandle(r.triBuffer))]
     else [])
  }

  // ---------------------------------------------------------------------
  // Entry points, as functions of the state they start from

  /** The state after ResetBuffers on `scene`. */
  function AfterResetBuffers<V, Mat, M>(c: Settings<V, Mat>, s: DriverState<V, Mat, M>, scene: Scene<V, Mat, M>): DriverState<V, Mat, M>
    requires AllValid(scene.meshes)
  {
    var collected := s.(cachedSpheres := scene.spheres, cachedMeshes := scene.meshes);
    var uploaded := UploadSpheres(c, collected);
    UploadMeshes(c, uploaded, SplitAll(uploaded.splitter, scene.meshes)).(rebuildRequested := false)
  }

  /** The engine calls UpdateParameters makes before any rebuild. */
  function ParameterCalls<V, Mat, M>(c: Settings<V, Mat>, s: DriverState<V, Mat, M>): seq<EngineCall> {
    [SetTexture(RayTracer, "Result", TextureHandle(s.rayTracedTexture)),
     SetInt(RayTracer, "_NumRaysPerPixel", c.raysPerPixel),
     SetInt(RayTracer, "_IterationCount", s.iterationCount),
     SetInt(RayTracer, "_MaxBounces", c.maxBouces)]
  }

  /** The state after UpdateParameters. */
  function AfterUpdateParameters<V, Mat, M>(c: Settings<V, Mat>, s: DriverState<V, Mat, M>, scene: Scene<V, Mat, M>): DriverState<V, Mat, M>
    requires AllValid(scene.meshes)
  {
    var bound := s.(calls := s.calls + ParameterCalls(c, s));
    if s.rebuildRequested then AfterResetBuffers(c, bound, scene) else bound
  }

  /** The engine calls SetAccumulativeParameters makes: the accumulation
      texture as the kernel's output, the traced frame as its input and the
      frame count. */
  function AccumulatorCalls(accumulativeTexture: Option<GpuTexture>, rayTracedTexture: Option<GpuTexture>, frameCount: int): seq<EngineCall> {
    [SetTexture(Accumulator, "Result", TextureHandle(accumulativeTexture)),
     SetTexture(Accumulator, "_RenderedFrame", TextureHandle(rayTracedTexture)),
     SetInt(Accumulator, "_FrameCount", frameCount)]
  }

  /** The state after RunShader. */
  function AfterRunShader<V, Mat, M>(c: Settings<V, Mat>, s: DriverState<V, Mat, M>, scene: Scene<V, Mat, M>, screen: Screen): DriverState<V, Mat, M>
    requires Int32.InRange(s.iterationCount) && AllValid(scene.meshes) && screen.width >= 0 && screen.height >= 0
  {
    var requested := if c.resetBuffersOnUpdate then s.(rebuildRequested := true) else s;
    var fitted := if requested.isInitialized then requested else FitRayTraced(requested, screen);
    var updated := AfterUpdateParameters(c, fitted, scene);
    var groupsX, groupsY := ThreadGroups(screen.width), ThreadGroups(screen.height);
    var traced := updated.(calls := updated.calls + [Dispatch(RayTracer, groupsX, groupsY)]);
    var accumulated :=
      if c.accumulateFrames && traced.accumulativeTexture.Some? then
        traced.(calls := traced.calls + AccumulatorCalls(traced.accumulativeTexture, traced.rayTracedTexture, traced.iterationCount) + [Dispatch(Accumulator, groupsX, groupsY)])
      else traced;
    accumulated.(iterationCount := Int32.Increment(accumulated.iterationCount))
  }

  /** The state after InitializeShader. */
  function AfterInitializeShader<V, Mat, M>(c: Settings<V, Mat>, s: DriverState<V, Mat, M>, scene: Scene<V, Mat, M>, screen: Screen): DriverState<V, Mat, M>
    requires AllValid(scene.meshes)
  {
    var collected := s.(cachedSpheres := scene.spheres, cachedMeshes := scene.meshes);
    var traced := FitRayTraced(collected, screen);
    var fitted := if c.accumulateFrames then FitAccumulative(traced, screen) else traced;
    AfterResetBuffers(c, fitted, scene).(isInitialized := true)
  }

  /** The state after OnRenderImage. */
  function AfterRenderImage<V, Mat, M>(c: Settings<V, Mat>, s: DriverState<V, Mat, M>, scene: Scene<V, Mat, M>, screen: Screen,
                                       isSceneCamera: bool, isMainCamera: bool): DriverState<V, Mat, M>
    requires Int32.InRange(s.iterationCount) && AllValid(scene.meshes) && screen.width >= 0 && screen.height >= 0
  {
    if isSceneCamera && c.useShaderInSceneView && c.useRayTracer then
      var initialized := if s.isInitialized then s else AfterInitializeShader(c, s, scene, screen);
      var traced := AfterRunShader(c, initialized, scene, screen);
      traced.(calls := traced.calls + [Blit(TextureHandle(traced.rayTracedTexture))])
    else if isMainCamera && c.useRayTracer then
      var shown := if c.accumulateFrames && s.accumulativeTexture.Some? then s.accumulativeTexture else s.rayTracedTexture;
      s.(calls := s.calls + [Blit(TextureHandle(shown))])
    else
      s.(calls := s.calls + [BlitSource])
  }

  /** The Release OnDisable issues on a held buffer. */
  function BufferRelease<E>(b: Option<GpuBuffer<E>>): seq<EngineCall> {
    if b.Some? then [ReleaseBuffer(b.value.handle)] else []
  }

  /** A held buffer after Release. */
  function Released<E>(b: Option<GpuBuffer<E>>): Option<GpuBuffer<E>> {
    if b.Some? then Some(b.value.(released := true)) else None
  }

  /** The state after OnDisable. */
  function AfterDisable<V, Mat, M>(s: DriverState<V, Mat, M>): DriverState<V, Mat, M> {
    s.(sphereBuffer := Released(s.sphereBuffer),
       meshInfoBuffer := Released(s.meshInfoBuffer),
       triBuffer := Released(s.triBuffer),
       calls := s.calls + BufferRelease(s.sphereBuffer) + BufferRelease(s.meshInfoBuffer) + BufferRelease(s.triBuffer),
       isInitialized := false)
  }

  /** UploadMeshes, taken apart into the values CreateAndSetMeshBuffer
      computes step by step. */
  lemma MeshUploadIs<V, Mat, M>(c: Settings<V, Mat>, s: DriverState<V, Mat, M>, flushed: SplitterState<V, Mat, M>,
                                infoBuffer: Option<GpuBuffer<MeshInfo<V, Mat, M>>>, triangleBuffer: Option<GpuBuffer<Triangle<V>>>, handle: nat)
    requires Uploads(flushed)
    requires infoBuffer == Some(Upload(s.meshInfoBuffer, flushed.splitMeshes, c.meshInfoStride, s.nextHandle))
    requires triangleBuffer == Some(Upload(s.triBuffer, flushed.triangles, c.triangleStride,
                                           s.nextHandle + Allocated(s.meshInfoBuffer, |flushed.splitMeshes|)))
    requires handle == s.nextHandle + Allocated(s.meshInfoBuffer, |flushed.splitMeshes|) + Allocated(s.triBuffer, |flushed.triangles|)
    ensures UploadMeshes(c, s, flushed) ==
      s.(splitter := Initial(), meshInfoBuffer := infoBuffer, triBuffer := triangleBuffer, nextHandle := handle,
         calls := s.calls + [SetBuffer("_MeshInfo", BufferHandle(infoBuffer)), SetBuffer("_Tris", BufferHandle(triangleBuffer))])
  {
  }

  /** AfterResetBuffers, taken apart into the states ResetBuffers passes
      through. */
  lemma ResetBuffersSteps<V, Mat, M>(c: Settings<V, Mat>, s: DriverState<V, Mat, M>, scene: Scene<V, Mat, M>,
                                     collected: DriverState<V, Mat, M>, uploaded: DriverState<V, Mat, M>, meshes: DriverState<V, Mat, M>)
    requires AllValid(scene.meshes)
    requires collected == s.(cachedSpheres := scene.spheres, cachedMeshes := scene.meshes)
    requires uploaded == UploadSpheres(c, collected)
    requires meshes == UploadMeshes(c, uploaded, SplitAll(uploaded.splitter, uploaded.cachedMeshes))
    ensures AfterResetBuffers(c, s, scene) == meshes.(rebuildRequested := false)
  {
  }

  /** UpdateParameters never touches the textures or the iteration count. */
  lemma UpdateParametersFrame<V, Mat, M>(c: Settings<V, Mat>, s: DriverState<V, Mat, M>, scene: Scene<V, Mat, M>)
    requires AllValid(scene.meshes)
    ensures var r := AfterUpdateParameters(c, s, scene);
      r.iterationCount == s.iterationCount && r.isInitialized == s.isInitialized &&
      r.rayTracedTexture == s.rayTracedTexture && r.accumulativeTexture == s.accumulativeTexture
  {
  }

  /** AfterRunShader, taken apart into the states RunShader passes through. */
  lemma RunShaderSteps<V, Mat, M>(c: Settings<V, Mat>, s: DriverState<V, Mat, M>, scene: Scene<V, Mat, M>, screen: Screen,
                                  requested: DriverState<V, Mat, M>, fitted: DriverState<V, Mat, M>, updated: DriverState<V, Mat, M>,
                                  traced: DriverState<V, Mat, M>, accumulated: DriverState<V, Mat, M>)
    requires Int32.InRange(s.iterationCount) && AllValid(scene.meshes) && screen.width >= 0 && screen.height >= 0
    requires requested == if c.resetBuffersOnUpdate then s.(rebuildRequested := true) else s
    requires fitted == if requested.isInitialized then requested else FitRayTraced(requested, screen)
    requires updated == AfterUpdateParameters(c, fitted, scene)
    requires traced == updated.(calls := updated.calls + [Dispatch(RayTracer, ThreadGroups(screen.width), ThreadGroups(screen.height))])
    requires accumulated == if c.accumulateFrames && traced.accumulativeTexture.Some? then
        traced.(calls := traced.calls + AccumulatorCalls(traced.accumulativeTexture, traced.rayTracedTexture, traced.iterationCount) + [Dispatch(Accumulator, ThreadGroups(screen.width), ThreadGroups(screen.height))])
      else traced
    ensures Int32.InRange(accumulated.iterationCount)
    ensures AfterRunShader(c, s, scene, screen) == accumulated.(iterationCount := Int32.Increment(accumulated.iterationCount))
  {
    UpdateParametersFrame(c, fitted, scene);
  }

  lemma InitializeShaderKeepsCounter<V, Mat, M>(c: Settings<V, Mat>, s: DriverState<V, Mat, M>, scene: Scene<V, Mat, M>, screen: Screen)
    requires AllValid(scene.meshes)
    ensures AfterInitializeShader(c, s, scene, screen).iterationCount == s.iterationCount
  {
  }

  // ---------------------------------------------------------------------
  // The component

  class CameraRayTraceRender<V, Mat, M> {
    // Inspector settings; nothing in the component writes them.
    const useRayTracer: bool
    const useShaderInSceneView: bool
    const raysPerPixel: int
    const maxBouces: int
    const resetBuffersOnUpdate: bool
    const accumulateFrames: bool

    // Marshal.SizeOf of the three uploaded layouts, and default(Sphere).
    const sphereStride: int
    const meshInfoStride: int
    const triangleStride: int
    const defaultSphere: Sphere<V, Mat>

    var accumulativeTexture: Option<GpuTexture>
    var rayTracedTexture: Option<GpuTexture>

    var cachedSpheres: seq<Option<RayTracedSphere<V, Mat>>>
    var sphereBuffer: Option<GpuBuffer<Sphere<V, Mat>>>

    var cachedMeshes: seq<RayTracedMesh<V, Mat, M>>
    var meshInfoBuffer: Option<GpuBuffer<MeshInfo<V, Mat, M>>>
    var triBuffer: Option<GpuBuffer<Triangle<V>>>

    var iterationCount: int
    var isInitialized: bool

    /** The static MeshSplitter and the static UpdateBuffersNextUpdate. */
    const splitter: MeshSplitter<V, Mat, M>
    const updateBuffersNextUpdate: RebuildFlag

    /** The engine calls made so far. */
    var calls: seq<EngineCall>
    /** The handle the next GPU object created by this component receives. */
    var nextHandle: nat

    function Config(): Settings<V, Mat> {
      Settings(useRayTracer, useShaderInSceneView, raysPerPixel, maxBouces, resetBuffersOnUpdate, accumulateFrames,
               sphereStride, meshInfoStride, triangleStride, defaultSphere)
    }

    ghost function State(): DriverState<V, Mat, M>
      reads this, splitter, updateBuffersNextUpdate
    {
      DriverState(accumulativeTexture, rayTracedTexture, cachedSpheres, sphereBuffer, cachedMeshes, meshInfoBuffer,
                  triBuffer, iterationCount, isInitialized,
                  SplitterState(splitter.splitMeshes, splitter.triangles, splitter.currentTriangleIndex),
                  updateBuffersNextUpdate.requested,
                  calls, nextHandle)
    }

    constructor (splitter: MeshSplitter<V, Mat, M>, updateBuffersNextUpdate: RebuildFlag, settings: Settings<V, Mat>)
      ensures Config() == settings
      ensures this.splitter == splitter && this.updateBuffersNextUpdate == updateBuffersNextUpdate
      ensures accumulativeTexture == None && rayTracedTexture == None
      ensures cachedSpheres == [] && cachedMeshes == []
      ensures sphereBuffer == None && meshInfoBuffer == None && triBuffer == None
      ensures iterationCount == 0 && !isInitialized && calls == [] && nextHandle == 0
    {
      this.splitter := splitter;
      this.updateBuffersNextUpdate := updateBuffersNextUpdate;
      useRayTracer := settings.useRayTracer;
      useShaderInSceneView := settings.useShaderInSceneView;
      raysPerPixel := settings.raysPerPixel;
      maxBouces := settings.maxBouces;
      resetBuffersOnUpdate := settings.resetBuffersOnUpdate;
      accumulateFrames := settings.accumulateFrames;
      sphereStride := settings.sphereStride;
      meshInfoStride := settings.meshInfoStride;
      triangleStride := settings.triangleStride;
      defaultSphere := settings.defaultSphere;
      accumulativeTexture, rayTracedTexture := None, None;
      cachedSpheres, cachedMeshes := [], [];
      sphereBuffer, meshInfoBuffer, triBuffer := None, None, None;
      iterationCount, isInitialized := 0, false;
      calls, nextHandle := [], 0;
    }

    /** The private InitRenderTexture(ref texture): keep a texture of the
        screen's size, otherwise release the old one and create a new
        random-write one. */
    method InitRenderTexture(texture: Option<GpuTexture>, screen: Screen) returns (r: GpuTexture)
      modifies this`nextHandle, this`calls
      ensures r == FittedTexture(texture, screen, old(nextHandle))
      ensures nextHandle == old(nextHandle) + Allocations(texture, screen)
      ensures calls == old(calls) + TextureReleases(texture, screen)
    {
      if texture.None? || texture.value.width != screen.width || texture.value.height != screen.height {
        if texture.Some? {
          calls := calls + [ReleaseTexture(texture.value.handle)];
        }

        r := GpuTexture(nextHandle, screen.width, screen.height, false, false);
        nextHandle := nextHandle + 1;

        r := r.(enableRandomWrite := true);
        r := r.(created := true);
      } else {
        r := texture.value;
      }
    }

    /** Fills a new array with one record per cached sphere slot. */
    method GetSphereDataFromObjects() returns (spheres: array<Sphere<V, Mat>>)
      ensures fresh(spheres)
      ensures spheres.Length == |cachedSpheres|
      ensures forall i :: 0 <= i < spheres.Length ==>
        spheres[i] == if cachedSpheres[i].Some? then cachedSpheres[i].value.SphereInformation() else defaultSphere
    {
      var empty := defaultSphere;
      spheres := new Sphere<V, Mat>[|cachedSpheres|](_ => empty);
      for i := 0 to |cachedSpheres|
        invariant forall j :: 0 <= j < i ==>
          spheres[j] == if cachedSpheres[j].Some? then cachedSpheres[j].value.SphereInformation() else defaultSphere
        invariant forall j :: i <= j < spheres.Length ==> spheres[j] == defaultSphere
      {
        if cachedSpheres[i].None? {
          continue;
        }
        spheres[i] := cachedSpheres[i].value.SphereInformation();
      }
    }

    /** Uploads the sphere snapshot: nothing at all for zero spheres,
        otherwise into the held buffer, replaced when it is missing or of
        another count, and bound as "_Spheres". */
    method CreateAndSetSphereBuffer()
      modifies this
      ensures State() == UploadSpheres(Config(), old(State()))
    {
      var spheres := GetSphereDataFromObjects();
      assert spheres[..] == SphereSnapshot(cachedSpheres, defaultSphere);

      if spheres.Length == 0 {
        return;
      }

      var buffer := Upload(sphereBuffer, spheres[..], sphereStride, nextHandle);
      sphereBuffer, nextHandle, calls :=
        Some(buffer), nextHandle + Allocated(sphereBuffer, spheres.Length), calls + [SetBuffer("_Spheres", Some(buffer.handle))];
    }

    /** The foreach over the cached meshes: each is split, in order. */
    method AddMeshesToSplitter()
      requires AllValid(cachedMeshes)
      modifies splitter
      ensures splitter.State() == SplitAll(old(splitter.State()), cachedMeshes)
    {
      for i := 0 to |cachedMeshes|
        invariant splitter.State() == SplitAll(old(splitter.State()), cachedMeshes[..i])
      {
        assert cachedMeshes[..i + 1][..i] == cachedMeshes[..i];
        var mesh := cachedMeshes[i];
        splitter.SplitMesh(mesh.mesh, mesh.material, mesh.localToWorldMatrix);
      }
      assert cachedMeshes[..|cachedMeshes|] == cachedMeshes;
    }

    /** Splits every cached mesh into the shared splitter, flushes it, and
        uploads the two arrays only when both are non-empty, each into its
        held buffer (replaced when missing or of another count), then binds
        them as "_MeshInfo" and "_Tris". */
    method CreateAndSetMeshBuffer()
      requires AllValid(cachedMeshes)
      modifies this, splitter
      ensures State() == UploadMeshes(Config(), old(State()), SplitAll(old(splitter.State()), old(cachedMeshes)))
    {
      ghost var before := State();
      var heldInfos, heldTris, handle, log := meshInfoBuffer, triBuffer, nextHandle, calls;
      AddMeshesToSplitter();
      var meshInfos, tris := splitter.FlushData();
      ghost var flushed := SplitAll(before.splitter, before.cachedMeshes);
      assert meshInfos == flushed.splitMeshes && tris == flushed.triangles;

      if |meshInfos| == 0 || |tris| == 0 {
        return;
      }

      var infoBuffer := Some(Upload(heldInfos, meshInfos, meshInfoStride, handle));
      handle := handle + Allocated(heldInfos, |meshInfos|);
      var triangleBuffer := Some(Upload(heldTris, tris, triangleStride, handle));
      handle := handle + Allocated(heldTris, |tris|);

      log := log + [SetBuffer("_MeshInfo", BufferHandle(infoBuffer)), SetBuffer("_Tris", BufferHandle(triangleBuffer))];
      meshInfoBuffer, triBuffer, nextHandle, calls := infoBuffer, triangleBuffer, handle, log;
      assert State() == before.(splitter := Initial(), meshInfoBuffer := infoBuffer, triBuffer := triangleBuffer, nextHandle := handle, calls := log);
      MeshUploadIs(Config(), before, flushed, infoBuffer, triangleBuffer, handle);
    }

    /** Re-collects the scene, re-uploads spheres and meshes and clears the
        rebuild flag. */
    method ResetBuffers(scene: Scene<V, Mat, M>)
      requires AllValid(scene.meshes)
      modifies this, splitter, updateBuffersNextUpdate
      ensures State() == AfterResetBuffers(Config(), old(State()), scene)
    {
      ghost var before := State();
      cachedSpheres, cachedMeshes := scene.spheres, scene.meshes;
      ghost var collected := State();
      assert collected == before.(cachedSpheres := scene.spheres, cachedMeshes := scene.meshes);

      CreateAndSetSphereBuffer();
      ghost var uploaded := State();
      CreateAndSetMeshBuffer();
      ghost var meshes := State();

      updateBuffersNextUpdate.requested := false;
      assert State() == meshes.(rebuildRequested := false);
      ResetBuffersSteps(Config(), before, scene, collected, uploaded, meshes);
    }

    /** Binds the ray-traced texture and the integer parameters, then
        rebuilds the buffers when the flag asks for it. */
    method UpdateParameters(scene: Scene<V, Mat, M>)
      requires AllValid(scene.meshes)
      modifies this, splitter, updateBuffersNextUpdate
      ensures State() == AfterUpdateParameters(Config(), old(State()), scene)
    {
      calls := calls + [SetTexture(RayTracer, "Result", TextureHandle(rayTracedTexture)),
                        SetInt(RayTracer, "_NumRaysPerPixel", raysPerPixel),
                        SetInt(RayTracer, "_IterationCount", iterationCount),
                        SetInt(RayTracer, "_MaxBounces", maxBouces)];

      if updateBuffersNextUpdate.requested {
        ResetBuffers(scene);
      }
    }

    /** One frame: request a rebuild when rebuilding every frame, make sure
        an uninitialized driver has a texture, bind the parameters (and
        rebuild), dispatch the tracer, then the accumulator when it is on and
        has a texture, and count the frame. */
    method RunShader(scene: Scene<V, Mat, M>, screen: Screen)
      requires Int32.InRange(iterationCount) && AllValid(scene.meshes) && screen.width >= 0 && screen.height >= 0
      modifies this, splitter, updateBuffersNextUpdate
      ensures State() == AfterRunShader(Config(), old(State()), scene, screen)
    {
      ghost var before := State();
      ghost var requested := if resetBuffersOnUpdate then before.(rebuildRequested := true) else before;
      ghost var fitted := if requested.isInitialized then requested else FitRayTraced(requested, screen);
      if resetBuffersOnUpdate {
        updateBuffersNextUpdate.requested := true;
      }
      if !isInitialized {
        var texture := InitRenderTexture(rayTracedTexture, screen);
        rayTracedTexture := Some(texture);
      }
      assert State() == fitted;

      UpdateParameters(scene);
      ghost var updated := State();
      UpdateParametersFrame(Config(), fitted, scene);
      assert iterationCount == before.iterationCount;

      var threadGroupsX := ThreadGroups(screen.width);
      var threadGroupsY := ThreadGroups(screen.height);

      var log := calls + [Dispatch(RayTracer, threadGroupsX, threadGroupsY)];
      ghost var traced := updated.(calls := log);

      if accumulateFrames && accumulativeTexture.Some? {
        // SetAccumulativeParameters
        log := log + AccumulatorCalls(accumulativeTexture, rayTracedTexture, iterationCount) + [Dispatch(Accumulator, threadGroupsX, threadGroupsY)];
      }
      ghost var accumulated := updated.(calls := log);

      calls, iterationCount := log, Int32.Increment(iterationCount);
      assert State() == accumulated.(iterationCount := Int32.Increment(accumulated.iterationCount));
      RunShaderSteps(Config(), before, scene, screen, requested, fitted, updated, traced, accumulated);
    }

    /** Collects the scene, fits the ray-traced texture (and the accumulation
        texture when accumulating) to the screen, rebuilds every buffer and
        marks the driver initialized. */
    method InitializeShader(scene: Scene<V, Mat, M>, screen: Screen)
      requires AllValid(scene.meshes)
      modifies this, splitter, updateBuffersNextUpdate
      ensures State() == AfterInitializeShader(Config(), old(State()), scene, screen)
    {
      ghost var before := State();
      ghost var collected := before.(cachedSpheres := scene.spheres, cachedMeshes := scene.meshes);
      ghost var traced := FitRayTraced(collected, screen);
      ghost var fitted := if accumulateFrames then FitAccumulative(traced, screen) else traced;

      cachedSpheres, cachedMeshes := scene.spheres, scene.meshes;

      var texture := InitRenderTexture(rayTracedTexture, screen);
      rayTracedTexture := Some(texture);
      assert State() == traced;
      if accumulateFrames {
        texture := InitRenderTexture(accumulativeTexture, screen);
        accumulativeTexture := Some(texture);
      }
      assert State() == fitted;

      ResetBuffers(scene);

      isInitialized := true;
    }

    /** The image effect for one camera; `shown` is the surface copied to the
        destination. */
    method OnRenderImage(scene: Scene<V, Mat, M>, screen: Screen, isSceneCamera: bool, isMainCamera: bool)
      returns (shown: Presented)
      requires Int32.InRange(iterationCount) && AllValid(scene.meshes) && screen.width >= 0 && screen.height >= 0
      modifies this, splitter, updateBuffersNextUpdate
      ensures State() == AfterRenderImage(Config(), old(State()), scene, screen, isSceneCamera, isMainCamera)
      ensures shown == PresentedSurface(isSceneCamera, isMainCamera, useShaderInSceneView, useRayTracer,
                                        accumulateFrames, old(accumulativeTexture).Some?)
    {
      if isSceneCamera && useShaderInSceneView && useRayTracer {
        ghost var before := State();
        if !isInitialized {
          InitializeShader(scene, screen);
          InitializeShaderKeepsCounter(Config(), before, scene, screen);
        }
        ghost var initialized := State();
        assert initialized == if before.isInitialized then before else AfterInitializeShader(Config(), before, scene, screen);
        RunShader(scene, screen);
        calls := calls + [Blit(TextureHandle(rayTracedTexture))];
        shown := RayTracedFrame;
      } else if isMainCamera && useRayTracer {
        if accumulateFrames && accumulativeTexture.Some? {
          calls := calls + [Blit(TextureHandle(accumulativeTexture))];
          shown := AccumulatedFrame;
        } else {
          calls := calls + [Blit(TextureHandle(rayTracedTexture))];
          shown := RayTracedFrame;
        }
      } else {
        calls := calls + [BlitSource];
        shown := SourceFrame;
      }
    }

    /** Releases the three held buffers (those that exist) and marks the
        driver uninitialized. The textures are kept. */
    method OnDisable()
      modifies this
      ensures State() == AfterDisable(old(State()))
    {
      var log, spheres, infos, tris := calls, sphereBuffer, meshInfoBuffer, triBuffer;
      if spheres.Some? {
        log := log + [ReleaseBuffer(spheres.value.handle)];
        spheres := Some(spheres.value.(released := true));
      }
      assert spheres == Released(sphereBuffer) && log == calls + BufferRelease(sphereBuffer);
      if infos.Some? {
        log := log + [ReleaseBuffer(infos.value.handle)];
        infos := Some(infos.value.(released := true));
      }
      assert infos == Released(meshInfoBuffer) && log == calls + BufferRelease(sphereBuffer) + BufferRelease(meshInfoBuffer);
      if tris.Some? {
        log := log + [ReleaseBuffer(tris.value.handle)];
        tris := Some(tris.value.(released := true));
      }
      assert tris == Released(triBuffer) && log == calls + BufferRelease(sphereBuffer) + BufferRelease(meshInfoBuffer) + BufferRelease(triBuffer);

      sphereBuffer, meshInfoBuffer, triBuffer, calls := spheres, infos, tris, log;
      isInitialized := false;
    }

    /** OnDestroy and OnValidate: the driver will initialize again on the next
        scene-view frame; nothing else changes. */
    method Invalidate()
      modifies this`isInitialized
      ensures !isInitialized
    {
      isInitialized := false;
    }
  }
}
