/** The lifecycle functions of msm_v4l2_ba.c as transitions of the `Kernel`
    state: each takes the state before the call and the outcomes of the calls
    it makes into the rest of the kernel, and gives its return code and the
    state after the call. */
module Lifecycle {
  import opened BaTypes

  /** The device context the driver context's `dev_ctxt` slot holds, if any. */
  function DevSlot(k: Kernel): (r: Option<Ptr>)
    requires Wf(k)
  {
    if k.gpBaCtxt.None? then None else k.ctxts[k.gpBaCtxt.value].devCtxt
  }

  /** The state at module load: no driver context, nothing allocated or
      registered, and the platform devices on the bus. */
  function Boot(bus: map<Ptr, PlatformDev>): (k: Kernel)
    ensures Wf(k)
    ensures k.gpBaCtxt.None? && k.ctxts == map[] && k.devs == map[] && k.vdevs == map[]
    ensures k.v4l2Registered == {} && k.mediaRegistered == {} && k.nodesRegistered == {}
    ensures !k.driverRegistered
    ensures k.pdevs == bus
  {
    Kernel(None, map[], map[], map[], bus, {}, {}, {}, false, {}, 0)
  }

  /** msm_ba_create: allocate and publish the driver context. */
  function Create(k: Kernel, env: CreateEnv): (r: Step)
    requires Wf(k)
    ensures Wf(r.k)
    ensures r.rc == 0 <==> k.gpBaCtxt.None? && env.allocOk
    // a second create fails and changes nothing
    ensures k.gpBaCtxt.Some? ==> r == Step(-EINVAL, k)
    // allocation failure leaves the singleton absent
    ensures k.gpBaCtxt.None? && !env.allocOk ==> r == Step(-ENOMEM, k)
    // success, whatever debugfs did: a fresh context with no device is published
    ensures r.rc == 0 ==>
      && r.k.gpBaCtxt.Some?
      && r.k.gpBaCtxt.value !in k.ctxts
      && r.k.ctxts == k.ctxts[r.k.gpBaCtxt.value := BaCtxt(None, env.debugfsOk)]
      && DevSlot(r.k) == None
      && r.k.(gpBaCtxt := k.gpBaCtxt, ctxts := k.ctxts,
              handedOut := k.handedOut, nextAddr := k.nextAddr) == k
  {
    if k.gpBaCtxt.Some? then Step(-EINVAL, k)
    else if !env.allocOk then Step(-ENOMEM, k)
    else
      var (c, k1) := Alloc(k);
      Step(0, k1.(gpBaCtxt := Some(c), ctxts := k1.ctxts[c := BaCtxt(None, env.debugfsOk)]))
  }

  /** msm_ba_destroy: free the driver context unless it still holds a device. */
  function Destroy(k: Kernel): (r: Step)
    requires Wf(k)
    ensures Wf(r.k)
    ensures r.rc == 0 <==> k.gpBaCtxt.Some? && DevSlot(k).None?
    ensures k.gpBaCtxt.None? ==> r == Step(-EINVAL, k)
    ensures DevSlot(k).Some? ==> r == Step(-EBUSY, k)
    ensures r.rc == 0 ==>
      && r.k.gpBaCtxt.None?
      && r.k.ctxts == k.ctxts - {k.gpBaCtxt.value}
      && r.k.(gpBaCtxt := k.gpBaCtxt, ctxts := k.ctxts) == k
  {
    if k.gpBaCtxt.None? then Step(-EINVAL, k)
    else
      var c := k.gpBaCtxt.value;
      if k.ctxts[c].devCtxt.Some? then Step(-EBUSY, k)
      else Step(0, k.(ctxts := k.ctxts - {c}, gpBaCtxt := None))
  }

  /** The device context `msm_ba_device_init` publishes on success, with its
      video device: empty instance list, state never advanced past `Uninit`,
      minor BASE_DEVICE_NUMBER, capture node type. */
  predicate Published(k: Kernel, d: Ptr, pdev: Ptr)
    requires pdev in k.pdevs
  {
    && d in k.devs
    && k.devs[d].instances == []
    && k.devs[d].state == Uninit
    && k.devs[d].pdev == pdev
    && k.devs[d].vdev.Some?
    && var v := k.devs[d].vdev.value;
       && v in k.vdevs
       && v in k.nodesRegistered
       && k.vdevs[v].minor == BASE_DEVICE_NUMBER
       && k.vdevs[v].vflType == VFL_TYPE_GRABBER
       && k.vdevs[v].v4l2Dev == d
       && k.vdevs[v].entityGroupId == BA_ENTITY_GROUP_ID
       && k.vdevs[v].name == Strlcpy(k.pdevs[pdev].name, VIDEO_DEVICE_NAME_SIZE)
  }

  /** True when every external step `msm_ba_device_init` depends on succeeds. */
  predicate InitSucceeds(env: InitEnv)
  {
    env.devAllocOk && env.v4l2Rc == 0 && env.vdevAllocOk && env.videoRc == 0
  }

  /** The part of msm_ba_device_init after video_device_alloc returned `v`:
      the video device is filled in for the device context `d`, the media
      device is registered, the entity initialised and the video node
      registered; only the last outcome is returned, and on success `d` is
      stored in the `dev_ctxt` slot of the driver context `c`. */
  function RegisterNodes(k: Kernel, pdev: Ptr, d: Ptr, v: Ptr, c: Ptr, env: InitEnv): (r: Step)
    requires pdev in k.pdevs && d in k.devs && c in k.ctxts
    ensures r.rc == env.videoRc
    ensures v in r.k.vdevs && r.k.vdevs[v].v4l2Dev == d
    ensures (d in r.k.mediaRegistered) == (d in k.mediaRegistered || env.mediaRc == 0)
    ensures r.rc != 0 ==> r.k.nodesRegistered == k.nodesRegistered && r.k.ctxts == k.ctxts
    ensures r.rc == 0 ==> v in r.k.nodesRegistered && c in r.k.ctxts && r.k.ctxts[c].devCtxt == Some(d)
  {
    var vd := VideoDev(Strlcpy(k.pdevs[pdev].name, VIDEO_DEVICE_NAME_SIZE), d,
                       BASE_DEVICE_NUMBER, VFL_TYPE_GRABBER, BA_ENTITY_GROUP_ID);
    var k1 := k.(vdevs := k.vdevs[v := vd],
                 devs := k.devs[d := k.devs[d].(vdev := Some(v))],
                 mediaRegistered := if env.mediaRc == 0 then k.mediaRegistered + {d}
                                    else k.mediaRegistered);
    if env.videoRc != 0 then Step(env.videoRc, k1)
    else Step(0, k1.(nodesRegistered := k1.nodesRegistered + {v},
                     ctxts := k1.ctxts[c := k1.ctxts[c].(devCtxt := Some(d))]))
  }

  /** The block of msm_ba_device_init that runs on the freshly allocated
      device context `d`: v4l2_device_register, then video_device_alloc, which
      is undone by v4l2_device_unregister when it fails, then the node
      registration. The result is the code the caller's cleanup tests. */
  function InitDevice(k: Kernel, pdev: Ptr, d: Ptr, c: Ptr, env: InitEnv): (r: Step)
    requires AllocatorOk(k)
    requires pdev in k.pdevs && d in k.devs && c in k.ctxts && d !in k.v4l2Registered
    ensures r.rc == 0 <==> env.v4l2Rc == 0 && env.vdevAllocOk && env.videoRc == 0
    // a failed v4l2_device_register changes nothing
    ensures env.v4l2Rc != 0 ==> r == Step(env.v4l2Rc, k)
    // a failed video_device_alloc: the V4L2 registration is undone
    ensures env.v4l2Rc == 0 && !env.vdevAllocOk ==> r == Step(-ENOMEM, k)
  {
    if env.v4l2Rc != 0 then Step(env.v4l2Rc, k)
    else if !env.vdevAllocOk then Step(-ENOMEM, k)
    else
      var (v, k1) := Alloc(k.(v4l2Registered := k.v4l2Registered + {d}));
      RegisterNodes(k1, pdev, d, v, c, env)
  }

  /** msm_ba_device_init: build a device context and store it through the
      out-pointer `retSlot`, which is NULL or the address of the `dev_ctxt`
      field of the driver context at that address. */
  function DeviceInit(k: Kernel, pdev: Ptr, retSlot: Option<Ptr>, env: InitEnv): (r: Step)
    requires Wf(k)
    requires pdev in k.pdevs
    requires retSlot.Some? ==> retSlot.value in k.ctxts
    // a NULL out-pointer or a filled slot is rejected and nothing changes
    ensures retSlot.None? || k.ctxts[retSlot.value].devCtxt.Some? ==> r == Step(-EINVAL, k)
    ensures retSlot.Some? && k.ctxts[retSlot.value].devCtxt.None? && !env.devAllocOk ==>
      r == Step(-ENOMEM, k)
    // media registration and entity init do not decide the outcome
    ensures r.rc == 0 <==>
      retSlot.Some? && k.ctxts[retSlot.value].devCtxt.None? && InitSucceeds(env)
  {
    if retSlot.None? || k.ctxts[retSlot.value].devCtxt.Some? then Step(-EINVAL, k)
    else if !env.devAllocOk then Step(-ENOMEM, k)
    else
      var (d, k1) := Alloc(k);
      var s := InitDevice(k1.(devs := k1.devs[d := BaDev([], Uninit, pdev, None, false)]),
                          pdev, d, retSlot.value, env);
      // every failure frees the device context
      if s.rc != 0 then Step(s.rc, s.k.(devs := s.k.devs - {d})) else s
  }

  /** `msm_ba_device_init` keeps the state well formed. */
  lemma DeviceInitKeepsWf(k: Kernel, pdev: Ptr, retSlot: Option<Ptr>, env: InitEnv)
    requires Wf(k) && pdev in k.pdevs && (retSlot.Some? ==> retSlot.value in k.ctxts)
    ensures Wf(DeviceInit(k, pdev, retSlot, env).k)
  {
  }

  /** A failed `msm_ba_device_init` leaves the out-slot untouched, has freed
      its device context and published no node; when it failed before the
      video device was allocated, the V4L2 registration is undone too and
      only the allocator's bookkeeping differs. */
  lemma DeviceInitFailureFrees(k: Kernel, pdev: Ptr, retSlot: Option<Ptr>, env: InitEnv)
    requires Wf(k) && pdev in k.pdevs && (retSlot.Some? ==> retSlot.value in k.ctxts)
    requires DeviceInit(k, pdev, retSlot, env).rc != 0
    ensures var r := DeviceInit(k, pdev, retSlot, env);
      && r.k.ctxts == k.ctxts
      && r.k.devs == k.devs
      && r.k.nodesRegistered == k.nodesRegistered
      && r.k.gpBaCtxt == k.gpBaCtxt
      && r.k.pdevs == k.pdevs
      && r.k.driverRegistered == k.driverRegistered
      && (env.v4l2Rc != 0 || !env.vdevAllocOk ==>
            r.k.(handedOut := k.handedOut, nextAddr := k.nextAddr) == k)
  {
  }

  /** A successful `msm_ba_device_init` stores a fresh, published device
      context in the out-slot and changes no other slot. */
  lemma DeviceInitPublishes(k: Kernel, pdev: Ptr, c: Ptr, env: InitEnv)
    requires Wf(k) && pdev in k.pdevs && c in k.ctxts
    requires DeviceInit(k, pdev, Some(c), env).rc == 0
    ensures var r := DeviceInit(k, pdev, Some(c), env);
      && r.k.gpBaCtxt == k.gpBaCtxt
      && r.k.pdevs == k.pdevs
      && c in r.k.ctxts
      && var d := r.k.ctxts[c].devCtxt;
         && d.Some?
         && d.value !in k.devs
         && Published(r.k, d.value, pdev)
         && r.k.devs == k.devs[d.value := r.k.devs[d.value]]
         && r.k.ctxts == k.ctxts[c := BaCtxt(d, k.ctxts[c].debugfsRoot)]
         && d.value !in k.v4l2Registered
         && var v := r.k.devs[d.value].vdev.value;
            && v !in k.vdevs
            && v !in k.nodesRegistered
            && r.k.vdevs == k.vdevs[v := r.k.vdevs[v]]
            && r.k.v4l2Registered == k.v4l2Registered + {d.value}
            && r.k.nodesRegistered == k.nodesRegistered + {v}
            && r.k.mediaRegistered ==
                 k.mediaRegistered + (if env.mediaRc == 0 then {d.value} else {})
            && r.k.driverRegistered == k.driverRegistered
  {
  }

  /** The code `msm_ba_device_init` returns once its checks and the kzalloc
      passed: the first failing step's, where the results of
      media_device_register and media_entity_init are overwritten by that of
      video_register_device. */
  lemma DeviceInitFailureCode(k: Kernel, pdev: Ptr, c: Ptr, env: InitEnv)
    requires Wf(k) && pdev in k.pdevs && c in k.ctxts
    requires k.ctxts[c].devCtxt.None? && env.devAllocOk
    ensures DeviceInit(k, pdev, Some(c), env).rc ==
      (if env.v4l2Rc != 0 then env.v4l2Rc
       else if !env.vdevAllocOk then -ENOMEM
       else env.videoRc)
    ensures forall m, e :: DeviceInit(k, pdev, Some(c), env.(mediaRc := m, entityRc := e)).rc ==
                           DeviceInit(k, pdev, Some(c), env).rc
  {
  }

  /** When video_register_device fails, `msm_ba_device_init` frees the device
      context without unregistering its v4l2_dev or its media device, so the
      V4L2 registry, and the media registry when media_device_register
      succeeded, keep an address that is no longer allocated; the
      video_device it allocated is never released. */
  lemma VideoRegisterFailureLeaves(k: Kernel, pdev: Ptr, c: Ptr, env: InitEnv)
    requires Wf(k) && pdev in k.pdevs && c in k.ctxts
    requires k.ctxts[c].devCtxt.None?
    requires env.devAllocOk && env.v4l2Rc == 0 && env.vdevAllocOk && env.videoRc != 0
    ensures var r := DeviceInit(k, pdev, Some(c), env);
      && r.rc == env.videoRc
      // the freed device context stays registered
      && k.nextAddr !in k.v4l2Registered
      && k.nextAddr !in r.k.devs
      && r.k.v4l2Registered == k.v4l2Registered + {k.nextAddr}
      && r.k.mediaRegistered ==
           k.mediaRegistered + (if env.mediaRc == 0 then {k.nextAddr} else {})
      // the video device allocated next stays, pointing at the freed context
      && k.nextAddr + 1 !in k.vdevs
      && r.k.vdevs == k.vdevs[k.nextAddr + 1 := r.k.vdevs[k.nextAddr + 1]]
      && r.k.vdevs[k.nextAddr + 1].v4l2Dev == k.nextAddr
      // nothing else changes
      && r.k.(v4l2Registered := k.v4l2Registered, mediaRegistered := k.mediaRegistered,
              vdevs := k.vdevs, handedOut := k.handedOut, nextAddr := k.nextAddr) == k
      && r.k.vdevs.Keys > k.vdevs.Keys
  {
  }

  /** msm_ba_probe: attach the platform device to the driver context. */
  function Probe(k: Kernel, pdev: Ptr, env: InitEnv, debugfsOk: bool): (r: Step)
    requires Wf(k)
    requires pdev in k.pdevs
    ensures Wf(r.k)
    ensures k.gpBaCtxt.None? ==> r == Step(-EINVAL, k)
    ensures DevSlot(k).Some? ==> r == Step(-EINVAL, k)
    ensures r.rc == 0 <==> k.gpBaCtxt.Some? && DevSlot(k).None? && InitSucceeds(env)
    // the singleton and the set of live driver contexts never change
    ensures r.k.gpBaCtxt == k.gpBaCtxt && r.k.ctxts.Keys == k.ctxts.Keys
    // success: the new context is in the slot and in platform_data
    ensures r.rc == 0 ==>
      && DevSlot(r.k).Some?
      && var c, d := k.gpBaCtxt.value, DevSlot(r.k).value;
         && r.k.pdevs == k.pdevs[pdev := PlatformDev(k.pdevs[pdev].name, Some(d))]
         && d !in k.devs
         && Published(r.k, d, pdev)
         && r.k.devs[d].debugfsRoot == debugfsOk
         // nothing else changes but the new entries
         && r.k.ctxts == k.ctxts[c := k.ctxts[c].(devCtxt := Some(d))]
         && r.k.devs == k.devs[d := r.k.devs[d]]
         && var v := r.k.devs[d].vdev.value;
            && v !in k.vdevs
            && r.k.vdevs == k.vdevs[v := r.k.vdevs[v]]
            && r.k.v4l2Registered == k.v4l2Registered + {d}
            && r.k.nodesRegistered == k.nodesRegistered + {v}
            && r.k.mediaRegistered == k.mediaRegistered + (if env.mediaRc == 0 then {d} else {})
            && r.k.driverRegistered == k.driverRegistered
    // failure after the checks: exactly what device init left
    ensures k.gpBaCtxt.Some? && r.rc != 0 ==> r == DeviceInit(k, pdev, k.gpBaCtxt, env)
    // failure: neither the slot nor platform_data is set
    ensures r.rc != 0 ==> r.k.ctxts == k.ctxts && r.k.pdevs == k.pdevs && r.k.devs == k.devs
  {
    if k.gpBaCtxt.None? then Step(-EINVAL, k)
    else
      var c := k.gpBaCtxt.value;
      var s := DeviceInit(k, pdev, Some(c), env);
      DeviceInitKeepsWf(k, pdev, Some(c), env);
      if s.rc != 0 then
        DeviceInitFailureFrees(k, pdev, Some(c), env);
        s
      else
        DeviceInitPublishes(k, pdev, c, env);
        var d := s.k.ctxts[c].devCtxt.value;
        Step(0, s.k.(devs := s.k.devs[d := s.k.devs[d].(debugfsRoot := debugfsOk)],
                     pdevs := s.k.pdevs[pdev := s.k.pdevs[pdev].(platformData := Some(d))]))
  }

  /** What the kernel guarantees `msm_ba_remove` about its argument: a
      non-NULL platform device is on the bus, and a device context it points
      at has not been freed yet. */
  predicate RemoveArg(k: Kernel, pdev: Option<Ptr>)
  {
    pdev.Some? ==>
      && pdev.value in k.pdevs
      && (k.pdevs[pdev.value].platformData.Some? ==> k.pdevs[pdev.value].platformData.value in k.devs)
  }

  /** msm_ba_remove: unpublish and free the device context in platform_data. */
  function Remove(k: Kernel, pdev: Option<Ptr>): (r: Step)
    requires Wf(k)
    requires RemoveArg(k, pdev)
    ensures Wf(r.k)
    ensures r.rc == 0 <==> pdev.Some? && k.pdevs[pdev.value].platformData.Some?
    ensures r.rc != 0 ==> r == Step(-EINVAL, k)
    ensures r.rc == 0 ==>
      && var d := k.pdevs[pdev.value].platformData.value;
         && r.k.devs == k.devs - {d}
         && r.k.v4l2Registered == k.v4l2Registered - {d}
         // video_unregister_device ignores a NULL video device
         && r.k.nodesRegistered ==
              k.nodesRegistered - (if k.devs[d].vdev.Some? then {k.devs[d].vdev.value} else {})
         // nothing else changes; in particular the slot and platform_data keep
         // the freed address, and the video device and the media registration
         // are never released
         && r.k.(devs := k.devs, v4l2Registered := k.v4l2Registered,
                 nodesRegistered := k.nodesRegistered) == k
  {
    if pdev.None? then Step(-EINVAL, k)
    else
      match k.pdevs[pdev.value].platformData
      case None => Step(-EINVAL, k)
      case Some(d) =>
        // video_unregister_device ignores a NULL video device
        var node := if k.devs[d].vdev.Some? then {k.devs[d].vdev.value} else {};
        var k1 := k.(nodesRegistered := k.nodesRegistered - node);
        var k2 := k1.(v4l2Registered := k1.v4l2Registered - {d});
        Step(0, k2.(devs := k2.devs - {d}))
  }

  /** msm_ba_mod_init: create the driver context, then register the platform
      driver whose registration returns `regRc`; roll back on failure. */
  function ModInit(k: Kernel, env: CreateEnv, regRc: int): (r: Step)
    requires Wf(k)
    ensures Wf(r.k)
    ensures r.rc == 0 <==> k.gpBaCtxt.None? && env.allocOk && regRc == 0
    // create failed: its code is returned and the driver is not registered
    ensures Create(k, env).rc != 0 ==> r == Create(k, env)
    // registration failed: its code is returned and the context is gone again
    ensures Create(k, env).rc == 0 && regRc != 0 ==>
      && r.rc == regRc
      && r.k.gpBaCtxt.None?
      && r.k.(handedOut := k.handedOut, nextAddr := k.nextAddr) == k
    ensures r.rc == 0 ==> r.k.driverRegistered && r.k.gpBaCtxt.Some? && DevSlot(r.k).None?
    ensures r.rc == 0 ==>
      && r.k.gpBaCtxt.value !in k.ctxts
      && r.k.ctxts == k.ctxts[r.k.gpBaCtxt.value := BaCtxt(None, env.debugfsOk)]
    // success: only the new driver context and the registration are added
    ensures r.rc == 0 ==>
      r.k.(driverRegistered := k.driverRegistered, gpBaCtxt := k.gpBaCtxt, ctxts := k.ctxts,
           handedOut := k.handedOut, nextAddr := k.nextAddr) == k
  {
    var s := Create(k, env);
    if s.rc != 0 then s
    else if regRc != 0 then Step(regRc, Destroy(s.k).k)
    else Step(0, s.k.(driverRegistered := true))
  }

  /** msm_ba_mod_exit: unregister the platform driver, then destroy the driver
      context, ignoring the result. */
  function ModExit(k: Kernel): (r: Kernel)
    requires Wf(k)
    ensures Wf(r)
    ensures !r.driverRegistered
    ensures r.gpBaCtxt.None? <==> k.gpBaCtxt.None? || DevSlot(k).None?
    // a context that still holds a device is left allocated
    ensures DevSlot(k).Some? ==> r == k.(driverRegistered := false)
    // otherwise the driver context, if any, is freed and nothing else changes
    ensures DevSlot(k).None? ==>
      r == k.(driverRegistered := false, gpBaCtxt := None,
              ctxts := if k.gpBaCtxt.Some? then k.ctxts - {k.gpBaCtxt.value} else k.ctxts)
  {
    var unregistered := k.(driverRegistered := false);
    Destroy(unregistered).k
  }

  /** msm_v4l2_g_parm: the VIDIOC_G_PARM handler is a stub that reports
      success and fills in nothing. */
  function GParm(parm: seq<int>): (r: (int, seq<int>))
    ensures r.0 == 0 && r.1 == parm
  {
    (0, parm)
  }
}
