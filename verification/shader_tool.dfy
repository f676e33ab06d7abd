/** The process-wide buffer registry (Assets/Scripts/ShaderTool.cs): one
    compute buffer per record type, allocated or reused by element count,
    released when replaced; plus the render-texture (re)allocation rule. */
module ShaderTools {
  import opened Unity

  /** The outcome of a dictionary read: KeyNotFound stands for the
      KeyNotFoundException the C# indexer throws. */
  datatype Lookup<T> = Found(value: T) | KeyNotFound

  datatype Outcome = Done | MissingKey

  /** The registry `typeBufferPair`. A key K stands for a record type T
      (typeof(T)); `sizeOf` gives Marshal.SizeOf<T>(). All records are of the
      opaque element type E. */
  class ShaderTool<K(==), E> {
    var typeBufferPair: map<K, ComputeBuffer<E>>
    const sizeOf: K -> int

    constructor (sizeOf: K -> int)
      ensures typeBufferPair == map[] && this.sizeOf == sizeOf
    {
      typeBufferPair := map[];
      this.sizeOf := sizeOf;
    }

    /** The buffer registered for `key`, as a set (empty when there is none). */
    function Entry(key: K): set<ComputeBuffer<E>>
      reads this
    {
      if key in typeBufferPair then {typeBufferPair[key]} else {}
    }

    /** True when CreateComputeBuffer keeps the registered buffer: not asked
        for a unique buffer, and the registered one already has `count`
        elements. */
    predicate KeepsExisting(key: K, count: int, createUnique: bool)
      reads this
    {
      !createUnique && key in typeBufferPair && typeBufferPair[key].count == count
    }

    /** GetComputeBuffer<T>(): the registered buffer, or the indexer's
        exception when T has none. Changes nothing. */
    method GetComputeBuffer(key: K) returns (r: Lookup<ComputeBuffer<E>>)
      ensures r.Found? <==> key in typeBufferPair
      ensures r.Found? ==> r.value == typeBufferPair[key]
    {
      if key in typeBufferPair {
        r := Found(typeBufferPair[key]);
      } else {
        r := KeyNotFound;
      }
    }

    /** CreateComputeBuffer<T>(count, createUnique). Returns null and changes
        nothing when the registered buffer is kept; otherwise releases the
        registered buffer (if any), registers a fresh one of `count` records of
        sizeOf(key) bytes and returns it. Other keys are untouched.
        The engine's buffer constructor rejects a non-positive count. */
    method CreateComputeBuffer(key: K, count: int, createUnique: bool) returns (r: ComputeBuffer?<E>)
      requires count > 0
      modifies this, Entry(key)
      ensures old(KeepsExisting(key, count, createUnique)) ==>
        r == null && typeBufferPair == old(typeBufferPair) && unchanged(old(Entry(key)))
      ensures !old(KeepsExisting(key, count, createUnique)) ==>
        && r != null && fresh(r)
        && typeBufferPair == old(typeBufferPair)[key := r]
        && r.count == count && r.stride == sizeOf(key) && r.data == [] && !r.released
        && (key in old(typeBufferPair) ==>
              old(typeBufferPair)[key].released && old(typeBufferPair)[key].data == old(typeBufferPair[key].data))
    {
      if !createUnique && key in typeBufferPair && typeBufferPair[key].count == count {
        return null;
      }
      if key in typeBufferPair {
        var buffer := typeBufferPair[key];
        buffer.Release();
      }
      var created := new ComputeBuffer(count, sizeOf(key));
      typeBufferPair := typeBufferPair[key := created];
      r := typeBufferPair[key];
    }

    /** SetBuffer<T>(data): writes `data` into the buffer registered for T;
        the registry itself is not changed. Without a registered buffer the
        indexer throws and nothing is written. */
    method SetBuffer(key: K, data: seq<E>) returns (outcome: Outcome)
      modifies Entry(key)
      ensures outcome == Done <==> key in typeBufferPair
      ensures typeBufferPair == old(typeBufferPair)
      ensures key in typeBufferPair ==>
        typeBufferPair[key].data == data && typeBufferPair[key].released == old(typeBufferPair[key].released)
    {
      if key !in typeBufferPair {
        return MissingKey;
      }
      typeBufferPair[key].SetData(data);
      outcome := Done;
    }
  }

  /** True when InitRenderTexture must (re)allocate: there is no texture, or
      its size is not the screen's. */
  predicate NeedsReallocation(texture: RenderTexture?, screen: Screen) {
    texture == null || texture.width != screen.width || texture.height != screen.height
  }

  /** What InitRenderTexture leaves behind, between the texture passed by
      reference (`before`) and the one it holds afterwards (`after`): a
      texture of the screen's size; the same, untouched texture when it
      already fitted; otherwise a fresh, created, random-write texture, the
      old one (if any) having been released. */
  twostate predicate TextureInitialized(before: RenderTexture?, new after: RenderTexture?, screen: Screen)
    reads before, after
  {
    && after != null
    && after.width == screen.width && after.height == screen.height
    && (if NeedsReallocation(before, screen) then
          && fresh(after) && after.enableRandomWrite && after.created && !after.released
          && (before != null ==> before.released && before.created == old(before.created))
        else
          after == before && unchanged(before))
  }

  /** ShaderTool.InitRenderTexture(ref texture): keep a texture of the
      screen's size, otherwise release the old one and create a new
      random-write one. */
  method InitRenderTexture(texture: RenderTexture?, screen: Screen) returns (r: RenderTexture)
    modifies texture
    ensures TextureInitialized(texture, r, screen)
  {
    if texture == null || texture.width != screen.width || texture.height != screen.height {
      if texture != null {
        texture.Release();
      }
      r := new RenderTexture(screen.width, screen.height);
      r.enableRandomWrite := true;
      r.Create();
    } else {
      r := texture;
    }
  }
}
