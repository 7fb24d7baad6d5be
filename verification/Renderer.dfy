/** The point-cloud renderer's integer logic (Scripts/PointCloudRenderer.cs,
    with the buffer size of Scripts/SimplePointCloudRenderer.cs and
    Scripts/MeshedPointCloudRenderer.cs).

    The compute shader is represented by the set of kernel names it defines;
    `FindKernel` on a missing name throws. A dispatch is recorded by the kernel
    name and its group counts. The provider's textures are given to `Update` as
    their sizes, absent when the provider has none. */
module Renderer {
  import opened Wrappers
  import opened Text
  import opened ThreadGroups

  /** Which renderer: the base class, or one of its two subclasses. */
  datatype Kind = Base | Simple | Meshed

  datatype TextureSize = TextureSize(width: nat, height: nat)

  datatype Dispatch = Dispatch(kernel: string, groupsX: int, groupsY: int, groupsZ: int)

  const MaxThreadsPerGroup: int := 1024
  const ClearPrefix: string := "ClearVertexBuffer_"
  const FillPrefix: string := "FillVertexBuffer_"

  /** `ComputeVertexBufferMaxSize`: nothing for the base class, six vertices
      per texel for the Simple and Meshed renderers. */
  function VertexBufferMaxSize(kind: Kind, width: nat, height: nat): (size: Triple)
    ensures kind == Base ==> Volume(size) == 0
    ensures kind != Base ==> size.x == width && size.y == height && size.z == 6 && Volume(size) == width * height * 6
  {
    match kind
    case Base => Triple(0, 0, 0)
    case Simple => Triple(width, height, 6)
    case Meshed => Triple(width, height, 6)
  }

  predicate Positive(t: Triple)
  {
    t.x >= 1 && t.y >= 1 && t.z >= 1
  }

  /** `prefix + x + "_" + y + "_" + z` for a thread count. */
  function KernelName(prefix: string, t: Triple): string
    requires Positive(t)
  {
    prefix + Dec(t.x) + "_" + Dec(t.y) + "_" + Dec(t.z)
  }

  /** Distinct thread counts give distinct kernel names, so the kernel found
      tells which thread count it was compiled for. */
  lemma KernelNameInjective(prefix: string, t: Triple, u: Triple)
    requires Positive(t) && Positive(u)
    requires KernelName(prefix, t) == KernelName(prefix, u)
    ensures t == u
  {
    var a, b := KernelName(prefix, t), KernelName(prefix, u);
    var restT := Dec(t.x) + "_" + (Dec(t.y) + "_" + Dec(t.z));
    var restU := Dec(u.x) + "_" + (Dec(u.y) + "_" + Dec(u.z));
    assert a == prefix + restT;
    assert b == prefix + restU;
    assert restT == a[|prefix|..] == b[|prefix|..] == restU;
    CutAtUnderscore(Dec(t.x), Dec(t.y) + "_" + Dec(t.z), Dec(u.x), Dec(u.y) + "_" + Dec(u.z));
    CutAtUnderscore(Dec(t.y), Dec(t.z), Dec(u.y), Dec(u.z));
    DecInjective(t.x, u.x);
    DecInjective(t.y, u.y);
    DecInjective(t.z, u.z);
  }

  /** The default kernel the lookup falls back to. */
  lemma FallbackName(prefix: string)
    ensures KernelName(prefix, Triple(1, 1, 1)) == prefix + "1_1_1"
  {
  }

  /** The kernel and thread count `Initialize` settles on: the computed count's
      kernel if the shader has it, else the `_1_1_1` kernel with (1, 1, 1), and
      `None` (the exception escapes) when neither exists. */
  function ChooseKernel(kernels: set<string>, prefix: string, computed: Triple): (r: Option<(string, Triple)>)
    requires Positive(computed)
    ensures r.Some? <==> KernelName(prefix, computed) in kernels || KernelName(prefix, Triple(1, 1, 1)) in kernels
    ensures r.Some? ==> Positive(r.value.1) && r.value.0 == KernelName(prefix, r.value.1) && r.value.0 in kernels
    ensures r.Some? ==> r.value.1 == if KernelName(prefix, computed) in kernels then computed else Triple(1, 1, 1)
  {
    if KernelName(prefix, computed) in kernels then Some((KernelName(prefix, computed), computed))
    else if KernelName(prefix, Triple(1, 1, 1)) in kernels then Some((KernelName(prefix, Triple(1, 1, 1)), Triple(1, 1, 1)))
    else None
  }

  /** The clear kernel's computed thread count: the buffer size's. */
  function ClearThreads(size: Triple, limit: int): (t: Triple)
    ensures Positive(t) && Divides(t, size.x, size.y, size.z)
  {
    ThreadCountDivides(size.x, size.y, size.z, limit);
    ThreadCount(size.x, size.y, size.z, limit)
  }

  /** The fill kernel's computed thread count: the texture's, one deep. */
  function FillThreads(width: nat, height: nat, limit: int): (t: Triple)
    ensures Positive(t) && t.z == 1
  {
    ThreadCountDivides(width, height, 1, limit);
    ThreadCount(width, height, 1, limit)
  }

  /** One kernel lookup of `Initialize`, with its fallback when the first
      lookup throws: the kernel for the computed thread count, or the `_1_1_1`
      kernel with the count reset to (1, 1, 1); `None` when that lookup throws
      too. */
  method FindKernelOrDefault(kernels: set<string>, prefix: string, computed: Triple) returns (r: Option<(string, Triple)>)
    requires Positive(computed)
    ensures r == ChooseKernel(kernels, prefix, computed)
  {
    var name := KernelName(prefix, computed);
    if name in kernels {
      return Some((name, computed));
    }
    name := KernelName(prefix, Triple(1, 1, 1));
    if name !in kernels {
      return None;
    }
    return Some((name, Triple(1, 1, 1)));
  }

  /** The clear half of `Initialize`: the thread count for the buffer size,
      then the kernel lookup with its fallback. */
  method PickClearKernel(kernels: set<string>, size: Triple, limit: int) returns (r: Option<(string, Triple)>)
    ensures r == ChooseKernel(kernels, ClearPrefix, ClearThreads(size, limit))
    ensures r.Some? ==> Divides(r.value.1, size.x, size.y, size.z)
    ensures r.Some? ==> r.value.0 in kernels && r.value.0 == KernelName(ClearPrefix, r.value.1)
  {
    var computed := ComputeThreadCountPerThreadGroup(size.x, size.y, size.z, limit);
    ThreadCountDivides(size.x, size.y, size.z, limit);
    r := FindKernelOrDefault(kernels, ClearPrefix, computed);
  }

  /** The fill half of `Initialize`: the thread count for the texture, one
      deep, then the kernel lookup with its fallback. */
  method PickFillKernel(kernels: set<string>, width: nat, height: nat, limit: int) returns (r: Option<(string, Triple)>)
    ensures r == ChooseKernel(kernels, FillPrefix, FillThreads(width, height, limit))
    ensures r.Some? ==> Divides(r.value.1, width, height, 1)
    ensures r.Some? ==> r.value.0 in kernels && r.value.0 == KernelName(FillPrefix, r.value.1)
  {
    var computed := ComputeThreadCountPerThreadGroup(width, height, 1, limit);
    ThreadCountDivides(width, height, 1, limit);
    r := FindKernelOrDefault(kernels, FillPrefix, computed);
  }

  /** `PointCloudRenderer` and its subclasses. */
  class PointCloudRenderer {
    const kind: Kind
    const isStatic: bool
    /** The kernels the vertex-buffer generator shader defines. */
    const kernels: set<string>

    var isInitialized: bool
    var width: nat
    var height: nat
    var vertexBufferMaxSize: Triple
    /** Element count of the vertex compute buffer. */
    var vertexBufferCount: int
    var clearThreadCount: Triple
    var clearKernel: string
    var fillThreadCount: Triple
    var fillKernel: string
    /** The compute dispatches issued so far, in order. */
    var dispatches: seq<Dispatch>

    /** Once initialised: the buffer is sized for this renderer, and each kernel
        exists, is the one named after its thread count, and has a thread count
        that divides what it processes. */
    ghost predicate Valid()
      reads this
    {
      isInitialized ==>
        vertexBufferMaxSize == VertexBufferMaxSize(kind, width, height) &&
        vertexBufferCount == Volume(vertexBufferMaxSize) &&
        Divides(clearThreadCount, vertexBufferMaxSize.x, vertexBufferMaxSize.y, vertexBufferMaxSize.z) &&
        clearKernel in kernels && clearKernel == KernelName(ClearPrefix, clearThreadCount) &&
        Divides(fillThreadCount, width, height, 1) &&
        fillKernel in kernels && fillKernel == KernelName(FillPrefix, fillThreadCount)
    }

    constructor (kind: Kind, isStatic: bool, kernels: set<string>)
      ensures this.kind == kind && this.isStatic == isStatic && this.kernels == kernels
      ensures !isInitialized && dispatches == []
      ensures Valid()
    {
      this.kind := kind;
      this.isStatic := isStatic;
      this.kernels := kernels;
      isInitialized := false;
      width, height := 0, 0;
      vertexBufferMaxSize := Triple(0, 0, 0);
      vertexBufferCount := 0;
      clearThreadCount, fillThreadCount := Triple(0, 0, 0), Triple(0, 0, 0);
      clearKernel, fillKernel := "", "";
      dispatches := [];
    }

    /** `OnRenderObject`: the number of vertices drawn. */
    function DrawCount(): int
      reads this
    {
      vertexBufferMaxSize.x * vertexBufferMaxSize.y * vertexBufferMaxSize.z
    }

    /** The two dispatches `UpdateVertexBuffer` issues for a texture. */
    function RefillFor(texture: TextureSize): seq<Dispatch>
      requires isInitialized && Valid()
      reads this
    {
      [Dispatch(clearKernel, vertexBufferMaxSize.x / clearThreadCount.x, vertexBufferMaxSize.y / clearThreadCount.y,
                vertexBufferMaxSize.z / clearThreadCount.z),
       Dispatch(fillKernel, texture.width / fillThreadCount.x, texture.height / fillThreadCount.y, 1)]
    }

    /** The first part of `Initialize`: the texture's size and the buffer
        sized for it. */
    method SizeBuffer(texture: TextureSize)
      modifies this
      ensures width == texture.width && height == texture.height
      ensures vertexBufferMaxSize == VertexBufferMaxSize(kind, width, height)
      ensures vertexBufferCount == Volume(vertexBufferMaxSize)
      ensures unchanged(this`isInitialized, this`dispatches)
    {
      var size := VertexBufferMaxSize(kind, texture.width, texture.height);
      width, height := texture.width, texture.height;
      vertexBufferMaxSize, vertexBufferCount := size, Volume(size);
    }

    /** The clear-kernel part of `Initialize`; false when the exception
        escapes, with the computed thread count left in place. */
    method SelectClearKernel() returns (ok: bool)
      modifies this
      ensures unchanged(this`isInitialized, this`dispatches, this`width, this`height)
      ensures unchanged(this`vertexBufferMaxSize, this`vertexBufferCount)
      ensures var clear := ChooseKernel(kernels, ClearPrefix, ClearThreads(vertexBufferMaxSize, MaxThreadsPerGroup));
        (ok <==> clear.Some?) && (ok ==> (clearKernel, clearThreadCount) == clear.value)
      ensures ok ==> clearKernel in kernels && clearKernel == KernelName(ClearPrefix, clearThreadCount)
      ensures ok ==> Divides(clearThreadCount, vertexBufferMaxSize.x, vertexBufferMaxSize.y, vertexBufferMaxSize.z)
      ensures !ok ==> clearThreadCount == ClearThreads(vertexBufferMaxSize, MaxThreadsPerGroup) && clearKernel == old(clearKernel)
    {
      var clear := PickClearKernel(kernels, vertexBufferMaxSize, MaxThreadsPerGroup);
      if clear.None? {
        clearThreadCount := ClearThreads(vertexBufferMaxSize, MaxThreadsPerGroup);
        return false;
      }
      clearKernel, clearThreadCount := clear.value.0, clear.value.1;
      return true;
    }

    /** The fill-kernel part of `Initialize`; false when the exception
        escapes, with the computed thread count left in place. */
    method SelectFillKernel() returns (ok: bool)
      modifies this
      ensures unchanged(this`isInitialized, this`dispatches, this`width, this`height)
      ensures unchanged(this`vertexBufferMaxSize, this`vertexBufferCount, this`clearKernel, this`clearThreadCount)
      ensures var fill := ChooseKernel(kernels, FillPrefix, FillThreads(width, height, MaxThreadsPerGroup));
        (ok <==> fill.Some?) && (ok ==> (fillKernel, fillThreadCount) == fill.value)
      ensures ok ==> fillKernel in kernels && fillKernel == KernelName(FillPrefix, fillThreadCount)
      ensures ok ==> Divides(fillThreadCount, width, height, 1)
      ensures !ok ==> fillThreadCount == FillThreads(width, height, MaxThreadsPerGroup) && fillKernel == old(fillKernel)
    {
      var fill := PickFillKernel(kernels, width, height, MaxThreadsPerGroup);
      if fill.None? {
        fillThreadCount := FillThreads(width, height, MaxThreadsPerGroup);
        return false;
      }
      fillKernel, fillThreadCount := fill.value.0, fill.value.1;
      return true;
    }

    /** `Initialize`: sizes the buffer from the texture, then picks the clear
        and fill kernels. `ok` is false when a lookup and its fallback both
        fail; the exception then leaves the fields set before it. */
    method Initialize(texture: TextureSize) returns (ok: bool)
      modifies this
      ensures width == texture.width && height == texture.height
      ensures vertexBufferMaxSize == VertexBufferMaxSize(kind, width, height)
      ensures vertexBufferCount == Volume(vertexBufferMaxSize)
      ensures dispatches == old(dispatches)
      ensures isInitialized == (ok || old(isInitialized))
      ensures var clear := ChooseKernel(kernels, ClearPrefix, ClearThreads(vertexBufferMaxSize, MaxThreadsPerGroup));
              var fill := ChooseKernel(kernels, FillPrefix, FillThreads(width, height, MaxThreadsPerGroup));
        (ok <==> clear.Some? && fill.Some?) &&
        (ok ==> (clearKernel, clearThreadCount) == clear.value && (fillKernel, fillThreadCount) == fill.value)
      ensures ok ==> Valid()
    {
      SizeBuffer(texture);
      ok := SelectClearKernel();
      if !ok {
        return;
      }
      ok := SelectFillKernel();
      if !ok {
        return;
      }
      isInitialized := true;
    }

    /** `UpdateVertexBuffer`: clears the whole buffer, then fills it from the
        texture, each dispatch with one group per thread-count block. */
    method UpdateVertexBuffer(texture: TextureSize)
      requires isInitialized && Valid()
      modifies this
      ensures unchanged(this`isInitialized, this`width, this`height, this`vertexBufferMaxSize, this`vertexBufferCount)
      ensures unchanged(this`clearThreadCount, this`clearKernel, this`fillThreadCount, this`fillKernel)
      ensures dispatches == old(dispatches + RefillFor(texture))
    {
      var size := vertexBufferMaxSize;
      var clear := Dispatch(clearKernel, size.x / clearThreadCount.x, size.y / clearThreadCount.y, size.z / clearThreadCount.z);
      var fill := Dispatch(fillKernel, texture.width / fillThreadCount.x, texture.height / fillThreadCount.y, 1);
      dispatches := dispatches + [clear, fill];
    }

    /** `Update`: without both textures the renderer drops back to
        uninitialised and does nothing else; the first call with both
        initialises and fills, and later calls refill unless static. `ok` is
        false when initialisation threw. */
    method Update(vertexTexture: Option<TextureSize>, hasColorTexture: bool) returns (ok: bool)
      requires Valid()
      modifies this
      ensures Valid()
      ensures vertexTexture.None? || !hasColorTexture ==>
        ok && !isInitialized && dispatches == old(dispatches) &&
        unchanged(this`clearKernel, this`fillKernel, this`clearThreadCount, this`fillThreadCount, this`vertexBufferMaxSize) &&
        unchanged(this`width, this`height, this`vertexBufferCount)
      ensures vertexTexture.Some? && hasColorTexture && old(isInitialized) ==>
        ok && isInitialized &&
        unchanged(this`width, this`height, this`clearKernel, this`fillKernel, this`clearThreadCount, this`fillThreadCount, this`vertexBufferMaxSize) &&
        dispatches == old(dispatches) + (if isStatic then [] else RefillFor(vertexTexture.value))
      ensures vertexTexture.Some? && hasColorTexture && !old(isInitialized) ==>
        width == vertexTexture.value.width && height == vertexTexture.value.height &&
        vertexBufferMaxSize == VertexBufferMaxSize(kind, width, height) &&
        vertexBufferCount == Volume(vertexBufferMaxSize)
      ensures vertexTexture.Some? && hasColorTexture && !old(isInitialized) ==>
        var clear := ChooseKernel(kernels, ClearPrefix, ClearThreads(vertexBufferMaxSize, MaxThreadsPerGroup));
        var fill := ChooseKernel(kernels, FillPrefix, FillThreads(width, height, MaxThreadsPerGroup));
        (ok <==> clear.Some? && fill.Some?) &&
        (ok ==> (clearKernel, clearThreadCount) == clear.value && (fillKernel, fillThreadCount) == fill.value)
      ensures vertexTexture.Some? && hasColorTexture && !old(isInitialized) ==>
        isInitialized == ok &&
        (ok ==> width == vertexTexture.value.width && height == vertexTexture.value.height &&
                dispatches == old(dispatches) + RefillFor(vertexTexture.value)) &&
        (!ok ==> dispatches == old(dispatches))
    {
      if vertexTexture.None? || !hasColorTexture {
        isInitialized := false;
        return true;
      }
      if !isInitialized {
        ok := Initialize(vertexTexture.value);
        if !ok {
          return;
        }
        UpdateVertexBuffer(vertexTexture.value);
      } else {
        if !isStatic {
          UpdateVertexBuffer(vertexTexture.value);
        }
        ok := true;
      }
    }
  }

  /** Once initialised, the buffer holds as many elements as are drawn; for
      the Simple and Meshed renderers that is six per texel. */
  lemma DrawCountMatchesBuffer(r: PointCloudRenderer)
    requires r.Valid() && r.isInitialized
    ensures r.DrawCount() == r.vertexBufferCount
    ensures r.kind != Base ==> r.DrawCount() == r.width * r.height * 6
  {
  }

  /** The dispatches cover their data exactly: the clear dispatch's groups times
      threads is the buffer size on every axis, and so is the fill dispatch's
      for a texture of the size the renderer was initialised with. */
  lemma DispatchesAreExact(r: PointCloudRenderer, texture: TextureSize)
    requires r.Valid() && r.isInitialized
    requires texture.width == r.width && texture.height == r.height
    ensures var d := r.RefillFor(texture);
      d[0].groupsX * r.clearThreadCount.x == r.vertexBufferMaxSize.x &&
      d[0].groupsY * r.clearThreadCount.y == r.vertexBufferMaxSize.y &&
      d[0].groupsZ * r.clearThreadCount.z == r.vertexBufferMaxSize.z &&
      d[1].groupsX * r.fillThreadCount.x == texture.width &&
      d[1].groupsY * r.fillThreadCount.y == texture.height &&
      r.fillThreadCount.z == 1
  {
    ExactDivision(r.vertexBufferMaxSize.x, r.clearThreadCount.x);
    ExactDivision(r.vertexBufferMaxSize.y, r.clearThreadCount.y);
    ExactDivision(r.vertexBufferMaxSize.z, r.clearThreadCount.z);
    ExactDivision(texture.width, r.fillThreadCount.x);
    ExactDivision(texture.height, r.fillThreadCount.y);
  }

  lemma ExactDivision(size: int, threads: int)
    requires threads >= 1 && size % threads == 0
    ensures (size / threads) * threads == size
  {
  }
}
