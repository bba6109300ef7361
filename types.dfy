/** Types, constants and the well-formedness invariant shared by the model of
    the MSM bridge-abstraction (BA) V4L2 driver's lifecycle code.

    Kernel memory, as far as this driver touches it, is a value of type `Kernel`:
    each kind of structure the driver allocates lives in a map from its address
    to its contents, `kfree` removes the address from the map, and a pointer
    that still holds a removed address is dangling. The registries of the
    V4L2, media-controller and platform-driver cores that the driver registers
    with are sets of addresses. */
module BaTypes {

  datatype Option<+T> = None | Some(value: T)

  /** A kernel address. A pointer that may be NULL is an `Option<Ptr>`. */
  type Ptr = nat

  // errno values; the driver returns them negated.
  const ENOMEM: int := 12
  const EBUSY: int := 16
  const EINVAL: int := 22

  /** Minor number requested for the video node. */
  const BASE_DEVICE_NUMBER: int := 35
  /** The V4L2 node type of a video capture device. */
  const VFL_TYPE_GRABBER: int := 0
  /** The media-controller group id given to the video node's entity. */
  const BA_ENTITY_GROUP_ID: int := 2
  /** Size of the `name` buffer of a V4L2 `struct video_device`. */
  const VIDEO_DEVICE_NAME_SIZE: nat := 32

  /** State of a device context. The driver only ever assigns
      `BA_DEV_UNINIT`, the one value modelled. */
  datatype DevState = Uninit

  /** `struct ba_ctxt`: the driver-wide context. */
  datatype BaCtxt = BaCtxt(devCtxt: Option<Ptr>, debugfsRoot: bool)

  /** `struct msm_ba_dev`: the device context. Its embedded `v4l2_dev` and
      `mdev` are registered under the device context's own address. */
  datatype BaDev = BaDev(
    instances: seq<Ptr>,
    state: DevState,
    pdev: Ptr,            // v4l2_dev.dev, the platform device it was built for
    vdev: Option<Ptr>,    // the video_device, NULL until allocated
    debugfsRoot: bool)

  /** The fields of `struct video_device` the driver fills in. */
  datatype VideoDev = VideoDev(
    name: string,
    v4l2Dev: Ptr,         // the msm_ba_dev whose v4l2_dev it belongs to
    minor: int,
    vflType: int,
    entityGroupId: int)

  /** `struct platform_device`, owned by the platform bus. */
  datatype PlatformDev = PlatformDev(name: string, platformData: Option<Ptr>)

  /** Everything the driver's lifecycle code reads or writes. */
  datatype Kernel = Kernel(
    gpBaCtxt: Option<Ptr>,              // the file-static singleton pointer
    ctxts: map<Ptr, BaCtxt>,            // live ba_ctxt allocations
    devs: map<Ptr, BaDev>,              // live msm_ba_dev allocations
    vdevs: map<Ptr, VideoDev>,          // live video_device allocations
    pdevs: map<Ptr, PlatformDev>,       // platform devices on the bus
    v4l2Registered: set<Ptr>,           // device contexts whose v4l2_dev is registered
    mediaRegistered: set<Ptr>,          // device contexts whose mdev is registered
    nodesRegistered: set<Ptr>,          // video devices published as device nodes
    driverRegistered: bool,             // msm_ba_driver registered with the platform bus
    handedOut: set<Ptr>,                // every address the allocator has handed out
    nextAddr: Ptr)                      // the allocator's next fresh address

  /** The return code of a driver function together with the state it leaves. */
  datatype Step = Step(rc: int, k: Kernel)

  /** Outcomes of the calls `msm_ba_create` makes into the rest of the kernel. */
  datatype CreateEnv = CreateEnv(allocOk: bool, debugfsOk: bool)

  /** Outcomes of the calls `msm_ba_device_init` makes into the rest of the
      kernel; an `...Rc` is the call's return code, zero meaning success. */
  datatype InitEnv = InitEnv(
    devAllocOk: bool,
    v4l2Rc: int,
    vdevAllocOk: bool,
    mediaRc: int,
    entityRc: int,
    videoRc: int)

  /** The allocator's bookkeeping is sound: every address handed out lies
      below `nextAddr`, so `nextAddr` is fresh. */
  ghost predicate AllocatorOk(k: Kernel)
  {
    forall a :: a in k.handedOut ==> a < k.nextAddr
  }

  /** Everything allocated or registered was handed out by the allocator,
      only allocated video devices are registered as nodes, and the singleton
      points at a live context. */
  ghost predicate Wf(k: Kernel)
  {
    && AllocatorOk(k)
    && k.ctxts.Keys <= k.handedOut
    && k.devs.Keys <= k.handedOut
    && k.vdevs.Keys <= k.handedOut
    && k.v4l2Registered <= k.handedOut
    && k.mediaRegistered <= k.handedOut
    && k.nodesRegistered <= k.vdevs.Keys
    && (k.gpBaCtxt.Some? ==> k.gpBaCtxt.value in k.ctxts)
  }

  /** A successful kzalloc: the allocator hands out a fresh address. */
  function Alloc(k: Kernel): (r: (Ptr, Kernel))
    requires AllocatorOk(k)
    ensures r.0 !in k.handedOut
    ensures r.1 == k.(handedOut := k.handedOut + {r.0}, nextAddr := r.1.nextAddr)
    ensures AllocatorOk(r.1)
  {
    (k.nextAddr, k.(handedOut := k.handedOut + {k.nextAddr}, nextAddr := k.nextAddr + 1))
  }

  /** `strlcpy(dst, src, size)` as far as the destination's contents go: the
      longest prefix of `src` that leaves room for the terminating NUL. */
  function Strlcpy(src: string, size: nat): (r: string)
    requires size > 0
    ensures r <= src
    ensures |r| < size
    ensures |src| < size ==> r == src
    ensures |src| >= size ==> |r| == size - 1
  {
    if |src| < size then src else src[..size - 1]
  }
}
