# RayTracing host side, in Dafny

This project models the CPU side of a Unity compute-shader ray tracer. The
per-frame driver `CameraRayTraceRender` does the following:

- It snapshots the scene's sphere and mesh components.
- It turns the meshes into one flat triangle list through the static
  `MeshSplitter`, and uploads spheres, mesh descriptors and triangles into
  GPU compute buffers.
- It rebuilds those buffers whenever the static `UpdateBuffersNextUpdate`
  flag is raised. A `RayTracedMesh` raises the flag when it is edited in
  the inspector. Subclasses of `RayTracedObject` raise it when they are
  edited or destroyed. A `RayTracedSphere` does not raise the flag: when it
  is edited, it calls `ResetBuffers` on the running driver directly.
- Each frame it binds the kernel parameters, dispatches the tracing kernel
  and, when frames are accumulated, the accumulation kernel, and counts the
  frame.
- It picks the texture that is copied to the screen.

The static `ShaderTool` holds a per-record-type registry of compute buffers
and a render-texture (re)allocation helper.

Files:

- `structs.dfy`: the uploaded records (`Triangle`, `MeshInfo`, `Sphere`,
  `MeshMatrices`).
- `unity.dfy`: the engine objects (mesh, compute buffer, render texture,
  screen).
- `scene_objects.dfy`: the scene components and the rebuild flag.
- `int32.dfy`: C#'s wrapping `int`.
- `mesh_splitter.dfy`: the splitter.
- `shader_tool.dfy`: the registry.
- `camera_ray_trace_render.dfy`: the driver.
- `driver_properties.dfy`: what the driver's entry points guarantee.

Each stateful source class is a Dafny class whose methods update its fields.
`MeshSplitter` and `ShaderTool` keep their static lists and dictionary as
fields; the driver keeps its own fields. Each method is proved against a pure
function of the state it starts from: `Split`/`SplitAll` for the splitter,
and `AfterResetBuffers`, `AfterUpdateParameters`, `AfterRunShader`,
`AfterInitializeShader`, `AfterRenderImage` and `AfterDisable` for the driver.
The lemmas about those functions state what the code promises.

GPU objects the driver creates are values with a handle, numbered in
creation order. Engine calls whose arguments the driver decides are appended
to a call log: bindings, integer parameters, dispatches, blits and releases.
The scene as returned by `FindObjectsByType` and the screen size are
parameters of the entry points. The inspector settings are constants of the
driver.

The splitter is modelled as written, and two details of that code matter:

- `currentTriangleIndex` is overwritten with the current mesh's triangle
  count (`MeshSplitter.cs:18`). It is not advanced by that count.
- The loop bound `i < mesh.triangles.Length - 3` (`MeshSplitter.cs:28`)
  leaves out the last triangle of every mesh.

`LastTriangleDropped`, `FirstRangeOverruns`, `SecondRangeOffByOne` and
`OffsetsDoNotAccumulate` state the consequences. A `MeshInfo` range
overruns its mesh's triangles by one, and the offsets of later meshes do not
accumulate.

`OnDisable` releases the three buffers but leaves them in their fields
(`CameraRayTraceRender.cs:232-239`). The reuse test of a later rebuild
(`CameraRayTraceRender.cs:115`, `157`, `163`) looks only at the field and its
count, not at whether the buffer was released. The model's engine lets a
released buffer keep its count and accept data and bindings. Under that
assumption the rebuild fills and binds the released buffer again, and
`ReleasedSphereBufferRebound` states this for the sphere buffer. What the
engine really does with a released buffer is not part of this model.

## Model

| member | source | states |
|---|---|---|
| Int32.Increment | Assets/Scripts/CameraRayTraceRender.cs:90 | `iterationCount++` on a C# int stays in the int range and is the two's-complement wrap of x + 1 |
| Int32.CountsExactly | Assets/Scripts/CameraRayTraceRender.cs:90 | from 0, the counter equals the number of frames counted as long as that is at most int.MaxValue |
| Int32.OverflowIsNegative | Assets/Scripts/CameraRayTraceRender.cs:90 | the frame after int.MaxValue frames brings the counter to int.MinValue, not back to 0 |
| SceneObjects.RebuildFlag.constructor | Assets/Scripts/CameraRayTraceRender.cs:42 | the static rebuild flag starts cleared |
| SceneObjects.RebuildFlag.Raise | Assets/Scripts/RayTracedMesh.cs:12-15 | editing a mesh component (and likewise editing or destroying any RayTracedObject, Structs/RayTracedObject.cs:6-15) sets the rebuild flag and changes nothing else |
| Splitting.LoopIndicesCount | Assets/Scripts/MeshSplitter.cs:28 | `LoopTrips(n)` is exactly the number of indices `0, 3, 6, …` below `n - 3` that the loop visits |
| Splitting.TrianglesFrom | Assets/Scripts/MeshSplitter.cs:28-41 | the triangles the loop appends from a start index number exactly its remaining passes |
| Splitting.TrianglesFromAt | Assets/Scripts/MeshSplitter.cs:30-40 | the k-th appended triangle is built from the vertices and normals at index positions i+3k, i+3k+1 and i+3k+2, all in range |
| Splitting.MeshSplitter.constructor | Assets/Scripts/MeshSplitter.cs:6-9 | both static lists start empty and the offset at 0 |
| Splitting.MeshSplitter.SplitMesh | Assets/Scripts/MeshSplitter.cs:11-54 | appends one MeshInfo (offset held on entry, triangle count, material, bounds, matrix) and the loop's triangles; the offset becomes this mesh's triangle count |
| Splitting.MeshSplitter.FlushData | Assets/Scripts/MeshSplitter.cs:56-67 | returns both lists in insertion order and leaves the splitter as at start-up |
| Splitting.LastTriangleDropped | Assets/Scripts/MeshSplitter.cs:17-28 | a mesh with 3t indices (t > 0) yields t - 1 triangles while its MeshInfo records t |
| Splitting.SplitAllShape | Assets/Scripts/MeshSplitter.cs:11-54 | a run of SplitMesh calls adds one MeshInfo per mesh after the existing ones, appends the triangles the loop yields for every mesh, in order, and leaves the offset at the last mesh's count |
| Splitting.SplitAllInfo | Assets/Scripts/MeshSplitter.cs:13-18 | the j-th MeshInfo of a run starts at the previous mesh's triangle count (the entry offset for the first), not at the running total |
| Splitting.FirstRangeOverruns | Assets/Scripts/MeshSplitter.cs:16-28 | after a flush, the first mesh's range [0, t) ends one past the triangles actually stored |
| Splitting.SecondRangeOffByOne | Assets/Scripts/MeshSplitter.cs:15-18 | the second mesh's triangles are stored from t1 - 1 on, but its MeshInfo says t1 |
| Splitting.OffsetsDoNotAccumulate | Assets/Scripts/MeshSplitter.cs:15-18 | three two-triangle meshes get offsets 0, 2, 2: the last two ranges coincide |
| ShaderTools.ShaderTool.constructor | Assets/Scripts/ShaderTool.cs:8 | the registry starts empty |
| ShaderTools.ShaderTool.GetComputeBuffer | Assets/Scripts/ShaderTool.cs:10 | returns the registered buffer exactly when the type has one, otherwise the indexer's KeyNotFound; changes nothing |
| ShaderTools.ShaderTool.CreateComputeBuffer | Assets/Scripts/ShaderTool.cs:12-20 | returns null and keeps everything when not unique and a buffer of that count is registered; otherwise releases the old buffer (contents kept), registers a fresh empty one of that count and record size, returns it, and leaves other types alone |
| ShaderTools.ShaderTool.SetBuffer | Assets/Scripts/ShaderTool.cs:22-25 | writes the data into the registered buffer (released state unchanged), never changes the registry, and fails exactly when the type has no buffer |
| ShaderTools.InitRenderTexture | Assets/Scripts/ShaderTool.cs:27-39 | leaves a texture of the screen's size: the same untouched one when it fitted, otherwise a fresh created random-write texture, the old one released |
| SceneObjects.RayTracedSphere.SphereInformation | Assets/Scripts/RayTracedSphere.cs:10 | the sphere record carries the component's position, radius and material |
| Rendering.ThreadGroups | Assets/Scripts/CameraRayTraceRender.cs:79-80 | the least number of 8-pixel groups covering the pixels |
| Rendering.PresentedSurface | Assets/Scripts/CameraRayTraceRender.cs:207-217 | the source passes through exactly when the tracer is off or neither the scene-view nor the main-camera path applies; the accumulated frame is shown exactly on the main-camera path with accumulation on and its texture present |
| Rendering.FittedTexture | Assets/Scripts/CameraRayTraceRender.cs:93-105 | the texture kept or created has the screen's size; a new one takes the next handle, random-write and created; a fitting one is kept |
| Rendering.Upload | Assets/Scripts/CameraRayTraceRender.cs:115-119 | the buffer held after an upload holds exactly the uploaded records, and its count is theirs |
| Rendering.SphereSnapshot | Assets/Scripts/CameraRayTraceRender.cs:129-138 | one record per cached slot: the component's SphereInformation, or default(Sphere) for a destroyed one, so holes stay in place |
| Rendering.CameraRayTraceRender.constructor | Assets/Scripts/CameraRayTraceRender.cs:25-40 | no textures or buffers, counter 0, not initialized |
| Rendering.CameraRayTraceRender.InitRenderTexture | Assets/Scripts/CameraRayTraceRender.cs:93-105 | returns FittedTexture, uses up one handle exactly when it reallocates, and logs the release of a replaced texture |
| Rendering.CameraRayTraceRender.GetSphereDataFromObjects | Assets/Scripts/CameraRayTraceRender.cs:129-138 | a new array with one record per cached slot: the component's SphereInformation, or default(Sphere) for a destroyed one |
| Rendering.CameraRayTraceRender.CreateAndSetSphereBuffer | Assets/Scripts/CameraRayTraceRender.cs:109-122 | the new state is UploadSpheres of the old one |
| Rendering.CameraRayTraceRender.AddMeshesToSplitter | Assets/Scripts/CameraRayTraceRender.cs:147 | every cached mesh's AddMeshToSplitter (RayTracedMesh.cs:7-10) splits it with its material and matrix: the splitter ends in SplitAll of its old state over the cached meshes, in order |
| Rendering.CameraRayTraceRender.CreateAndSetMeshBuffer | Assets/Scripts/CameraRayTraceRender.cs:145-171 | the new state is UploadMeshes of the old one, applied to what the splitter flushes after splitting every cached mesh |
| Rendering.CameraRayTraceRender.ResetBuffers | Assets/Scripts/CameraRayTraceRender.cs:219-230 | the new state is AfterResetBuffers of the old one |
| Rendering.CameraRayTraceRender.UpdateParameters | Assets/Scripts/CameraRayTraceRender.cs:180-198 | the new state is AfterUpdateParameters of the old one |
| Rendering.CameraRayTraceRender.RunShader | Assets/Scripts/CameraRayTraceRender.cs:72-91 | the new state is AfterRunShader of the old one; SetAccumulativeParameters (200-205) is inlined as AccumulatorCalls |
| Rendering.CameraRayTraceRender.InitializeShader | Assets/Scripts/CameraRayTraceRender.cs:54-70 | the new state is AfterInitializeShader of the old one |
| Rendering.CameraRayTraceRender.OnRenderImage | Assets/Scripts/CameraRayTraceRender.cs:207-217 | the new state is AfterRenderImage of the old one, and the surface shown is PresentedSurface |
| Rendering.CameraRayTraceRender.OnDisable | Assets/Scripts/CameraRayTraceRender.cs:232-239 | the new state is AfterDisable of the old one |
| Rendering.CameraRayTraceRender.Invalidate | Assets/Scripts/CameraRayTraceRender.cs:241-249 | OnDestroy and OnValidate leave the driver uninitialized and change nothing else |
| DriverProperties.FitRayTracedEffect | Assets/Scripts/CameraRayTraceRender.cs:93-105 | the ray-traced texture ends at the screen's size; it is kept, with no engine call, exactly when it already had that size; otherwise a new one takes the next handle and the old one, if any, is released; nothing else changes |
| DriverProperties.UploadEffect | Assets/Scripts/CameraRayTraceRender.cs:115-119 | a buffer of the right count is reused (handle, stride, state); otherwise a new unreleased buffer takes the next handle |
| DriverProperties.SphereUploadEffect | Assets/Scripts/CameraRayTraceRender.cs:109-122 | with no spheres nothing at all happens (both directions); otherwise the buffer holds the snapshot, is reallocated exactly when missing or of another count, is bound as "_Spheres", nothing else changes, and a replaced buffer is not released |
| DriverProperties.MeshUploadEffect | Assets/Scripts/CameraRayTraceRender.cs:145-171 | the splitter is always drained; with either flushed array empty that is all; otherwise both buffers hold the flushed arrays, each reallocated exactly when missing or of another count, and only the two bindings are issued |
| DriverProperties.MeshesUploaded | Assets/Scripts/CameraRayTraceRender.cs:155 | the mesh buffers are uploaded exactly when there is a mesh and the meshes yield at least one triangle |
| DriverProperties.ResetBuffersEffect | Assets/Scripts/CameraRayTraceRender.cs:219-230 | HoldsScene: the caches hold the scene; the sphere buffer holds the snapshot when there are spheres and is untouched otherwise; the mesh buffers hold one MeshInfo per mesh and the triangles the split loop yields (each mesh's last one dropped, see LastTriangleDropped) when uploaded, and are untouched otherwise. Also the flag is clear, the splitter empty, and textures, counter and initialization untouched |
| DriverProperties.ResetBuffersCalls | Assets/Scripts/CameraRayTraceRender.cs:219-230 | the only engine calls of a rebuild are the bindings of the buffers it leaves held (no release), and the handle counter does not go down |
| DriverProperties.ResetBuffersHandles | Assets/Scripts/CameraRayTraceRender.cs:115-118 | each buffer a rebuild leaves held is the one held before (same handle) or a new one whose handle was given out during the rebuild, so no handle is reused |
| DriverProperties.UpdateParametersEffect | Assets/Scripts/CameraRayTraceRender.cs:180-198 | the flag is always clear afterwards; the bindings come first; when the flag was set, the caches and buffers hold the scene as HoldsScene states, and otherwise the bindings are all that happens |
| DriverProperties.UpdateParametersDispatchesNothing | Assets/Scripts/CameraRayTraceRender.cs:180-198 | UpdateParameters, rebuild or not, only grows the log and dispatches no kernel |
| DriverProperties.RunShaderEffect | Assets/Scripts/CameraRayTraceRender.cs:72-91 | the counter is incremented as a C# int; every frame with resetBuffersOnUpdate (or when flagged) the caches and buffers hold the scene as HoldsScene states, and caches and buffers are untouched otherwise; an uninitialized driver gets a screen-sized texture; the accumulation texture is untouched |
| DriverProperties.RunShaderDispatches | Assets/Scripts/CameraRayTraceRender.cs:79-88 | a frame dispatches the tracer over ceil(w/8) x ceil(h/8) groups, then the accumulator over the same groups exactly when accumulation is on and its texture exists, and nothing else |
| DriverProperties.InitializeShaderEffect | Assets/Scripts/CameraRayTraceRender.cs:54-70 | the driver is initialized, its caches and buffers hold the scene as HoldsScene states, it has a screen-sized ray-traced texture (and accumulation texture when accumulating), the flag is clear and the counter untouched |
| DriverProperties.RenderImageEffect | Assets/Scripts/CameraRayTraceRender.cs:207-217 | the last engine call copies the surface PresentedSurface chooses; with the tracer off the source passes through and nothing else happens; on the scene-view path the driver ends initialized and the counter is incremented |
| DriverProperties.DisableEffect | Assets/Scripts/CameraRayTraceRender.cs:232-239 | every held buffer is released and kept; the calls are one Release per held buffer in field order; the driver is uninitialized; textures, caches and counter are kept |
| DriverProperties.ReleasedSphereBufferRebound | Assets/Scripts/CameraRayTraceRender.cs:115-121 | with the engine assumed as under "Left out": after OnDisable (232-239), a rebuild with as many sphere slots as before keeps the released sphere buffer under its handle, still released, and binds it as "_Spheres" again |
| DriverProperties.ReleaseCallsMembers | Assets/Scripts/CameraRayTraceRender.cs:234-236 | a handle is released exactly when it is one of the held buffers' |
| DriverProperties.InitialConsistent | Assets/Scripts/CameraRayTraceRender.cs:25-42 | the driver as constructed satisfies the invariant: counter in range, splitter empty, initialized only with a texture, held handles distinct and below the next one |
| DriverProperties.ResetBuffersConsistent | Assets/Scripts/CameraRayTraceRender.cs:219-230 | ResetBuffers keeps the invariant and only grows the log and the handle counter |
| DriverProperties.UpdateParametersConsistent | Assets/Scripts/CameraRayTraceRender.cs:180-198 | UpdateParameters keeps the invariant and only grows the log and the handle counter |
| DriverProperties.RunShaderConsistent | Assets/Scripts/CameraRayTraceRender.cs:72-91 | RunShader keeps the invariant and only grows the log and the handle counter |
| DriverProperties.InitializeShaderConsistent | Assets/Scripts/CameraRayTraceRender.cs:54-70 | InitializeShader keeps the invariant and only grows the log and the handle counter |
| DriverProperties.RenderImageConsistent | Assets/Scripts/CameraRayTraceRender.cs:207-217 | OnRenderImage keeps the invariant and only grows the log and the handle counter |
| DriverProperties.DisableConsistent | Assets/Scripts/CameraRayTraceRender.cs:232-239 | OnDisable keeps the invariant and only grows the log |

## Left out

- Float, colour, vector and matrix parameters (`_CameraPosition`, the sky and sun colours, `_SunDirection`, the camera matrices, `_SkyEmission`, `_SunEye`, `_SunColor`) are not modelled. The camera lookup and `FindAnyObjectByType<Light>` are left out too. Vectors, materials and matrices are opaque type parameters.
- The model assumes that a render camera and a directional `Light` exist and that every `RayTracedMesh` has a MeshFilter with a mesh. Otherwise `UpdateParameters` throws at `CameraRayTraceRender.cs:184-189`, before `ResetBuffers` at line 197. The flag then stays set, and the frame neither dispatches nor counts. `SplitMesh` also throws on a missing mesh (`RayTracedMesh.cs:9`, `MeshSplitter.cs:17`). That exception leaves the static splitter partly filled, and the next rebuild uploads the stale entries. None of these exception paths is modelled.
- ReleasedSphereBufferRebound, Rendering.Upload: the model assumes that reading `count` of a released compute buffer, and calling SetData or SetBuffer on it, succeed and keep its count. If the engine throws there instead, a rebuild after OnDisable stops at `CameraRayTraceRender.cs:115` before the flag is cleared (line 229), and the rebuild is retried on every later frame. The model does not capture that path.
- `FindKernel` and the kernel handles are left out: a dispatch names its shader instead.
- `Debug.Log` in ResetBuffers and RayTracedObject.OnValidate is not modelled.
- `FindObjectsByType` is not called: its result is the `scene` parameter. The inspector settings are constants of the driver. `Screen.width`/`Screen.height` are the `screen` parameter.
- `Start` and `Update` are not modelled as members: they only forward to InitializeShader and RunShader, which are modelled.
- InitializeShader's stand-alone `GetSphereDataFromObjects()` call (`CameraRayTraceRender.cs:66`) builds an array that is thrown away, so the model leaves it out.
- Before the first collection the C# caches are null. The model starts them empty, which behaves the same on every path the driver can take.
- `MeshMatrices` is declared but never filled or uploaded by the modelled code, so it is a datatype with no operation.
- Rendering.ThreadGroups: `Mathf.CeilToInt(Screen.width / 8.0f)` is modelled as exact integer ceiling division. Float rounding for sizes beyond 2^24 pixels is not captured.
- GPU buffers and textures created by the driver are values with handles, not shared objects. The driver never aliases them, and releases are recorded as log entries.
- ShaderTools.ShaderTool.CreateComputeBuffer: requires `count > 0`, because the engine's ComputeBuffer constructor rejects other counts. That exception path is not modelled.
- ShaderTools.ShaderTool.SetBuffer: the record count written is not checked against the buffer's count.
- ShaderTools.ShaderTool.GetComputeBuffer: the thrown KeyNotFoundException is modelled as a `KeyNotFound` result.
- Splitting.MeshSplitter.SplitMesh: `mesh.RecalculateNormals()` is modelled only by its effect the loop relies on, one normal per vertex. The normal values themselves are not computed.
- SceneObjects.RebuildFlag.Raise: RayTracedSphere.OnValidate, which calls ResetBuffers directly on the running instance, is not part of this model.
