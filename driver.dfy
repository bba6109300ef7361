/** The lifecycle code of msm_v4l2_ba.c as it runs: the file-static singleton
    and the kernel memory the driver works on are the fields of `BaModule`,
    and each method updates them in the order the C code does. Each lifecycle
    method is proved to leave exactly the return code and state that the
    matching function of `Lifecycle` specifies. */
module BaDriver {
  import opened BaTypes
  import Lifecycle

  class BaModule {
    var gpBaCtxt: Option<Ptr>
    var ctxts: map<Ptr, BaCtxt>
    var devs: map<Ptr, BaDev>
    var vdevs: map<Ptr, VideoDev>
    var pdevs: map<Ptr, PlatformDev>
    var v4l2Registered: set<Ptr>
    var mediaRegistered: set<Ptr>
    var nodesRegistered: set<Ptr>
    var driverRegistered: bool
    ghost var handedOut: set<Ptr>
    var nextAddr: Ptr

    /** The state as a value. */
    ghost function View(): Kernel
      reads this
    {
      Kernel(gpBaCtxt, ctxts, devs, vdevs, pdevs, v4l2Registered, mediaRegistered,
             nodesRegistered, driverRegistered, handedOut, nextAddr)
    }

    ghost predicate Valid()
      reads this
    {
      Wf(View())
    }

    /** Module load: the platform devices `bus` are present, nothing else. */
    constructor (bus: map<Ptr, PlatformDev>)
      ensures Valid()
      ensures View() == Lifecycle.Boot(bus)
    {
      gpBaCtxt := None;
      ctxts, devs, vdevs, pdevs := map[], map[], map[], bus;
      v4l2Registered, mediaRegistered, nodesRegistered := {}, {}, {};
      driverRegistered := false;
      handedOut, nextAddr := {}, 0;
    }

    /** msm_ba_get_ba_context */
    method GetBaContext() returns (baCtxt: Option<Ptr>)
      ensures baCtxt == gpBaCtxt
    {
      baCtxt := gpBaCtxt;
    }

    /** msm_ba_set_ba_context */
    method SetBaContext(baCtxt: Option<Ptr>)
      modifies this`gpBaCtxt
      ensures gpBaCtxt == baCtxt
    {
      gpBaCtxt := baCtxt;
    }

    /** kzalloc and video_device_alloc: a fresh address, or NULL when the
        allocation fails (`ok` is false). */
    method Kzalloc(ok: bool) returns (p: Option<Ptr>)
      modifies this`handedOut, this`nextAddr
      ensures ok ==> && p == Some(old(nextAddr))
                     && handedOut == old(handedOut) + {old(nextAddr)}
                     && nextAddr == old(nextAddr) + 1
      ensures !ok ==> p.None? && handedOut == old(handedOut) && nextAddr == old(nextAddr)
    {
      if !ok {
        return None;
      }
      p := Some(nextAddr);
      handedOut := handedOut + {nextAddr};
      nextAddr := nextAddr + 1;
    }

    /** msm_ba_create */
    method Create(env: CreateEnv) returns (rc: int)
      requires Valid()
      modifies this
      ensures Valid()
      ensures Step(rc, View()) == Lifecycle.Create(old(View()), env)
    {
      rc := 0;
      var baCtxt := GetBaContext();
      if baCtxt.Some? {
        return -EINVAL;
      }
      baCtxt := Kzalloc(env.allocOk);
      if baCtxt.None? {
        return -ENOMEM;
      }
      var c := baCtxt.value;
      ctxts := ctxts[c := BaCtxt(None, false)];
      // a failed debugfs init is only logged
      ctxts := ctxts[c := ctxts[c].(debugfsRoot := env.debugfsOk)];
      SetBaContext(baCtxt);
      return rc;
    }

    /** msm_ba_destroy */
    method Destroy() returns (rc: int)
      requires Valid()
      modifies this
      ensures Valid()
      ensures Step(rc, View()) == Lifecycle.Destroy(old(View()))
    {
      rc := 0;
      var baCtxt := GetBaContext();
      if baCtxt.None? {
        return -EINVAL;
      }
      if ctxts[baCtxt.value].devCtxt.Some? {
        return -EBUSY;
      }
      ctxts := ctxts - {baCtxt.value};
      baCtxt := None;
      SetBaContext(baCtxt);
      return rc;
    }

    /** msm_ba_device_init; `retDevCtxt` is NULL or the address of the
        driver context whose `dev_ctxt` field is the out-slot. */
    method DeviceInit(pdev: Ptr, retDevCtxt: Option<Ptr>, env: InitEnv) returns (rc: int)
      requires Valid() && pdev in pdevs
      requires retDevCtxt.Some? ==> retDevCtxt.value in ctxts
      modifies this
      ensures Step(rc, View()) == Lifecycle.DeviceInit(old(View()), pdev, retDevCtxt, env)
      ensures Valid()
    {
      ghost var k := View();
      rc := 0;
      if retDevCtxt.None? || ctxts[retDevCtxt.value].devCtxt.Some? {
        rc := -EINVAL;
      } else {
        var devCtxt := Kzalloc(env.devAllocOk);
        if devCtxt.None? {
          rc := -ENOMEM;
        } else {
          var d := devCtxt.value;
          devs := devs[d := BaDev([], Uninit, pdev, None, false)];
          ghost var k1 := Alloc(k).1;
          assert d == Alloc(k).0 && View() == k1.(devs := k1.devs[d := BaDev([], Uninit, pdev, None, false)]);
          rc := InitDevice(pdev, d, retDevCtxt.value, env);
          ghost var s := Step(rc, View());
          if rc != 0 {
            devs := devs - {d};                            // kfree
            assert View() == s.k.(devs := s.k.devs - {d});
          }
        }
      }
      Lifecycle.DeviceInitKeepsWf(k, pdev, retDevCtxt, env);
    }

    /** The block of msm_ba_device_init from v4l2_device_register on. */
    method InitDevice(pdev: Ptr, d: Ptr, c: Ptr, env: InitEnv) returns (rc: int)
      requires AllocatorOk(View())
      requires pdev in pdevs && d in devs && c in ctxts && d !in v4l2Registered
      modifies this
      ensures Step(rc, View()) == Lifecycle.InitDevice(old(View()), pdev, d, c, env)
    {
      rc := env.v4l2Rc;                                    // v4l2_device_register
      if rc == 0 {
        v4l2Registered := v4l2Registered + {d};
        var vdev := Kzalloc(env.vdevAllocOk);              // video_device_alloc
        if vdev.None? {
          v4l2Registered := v4l2Registered - {d};          // v4l2_device_unregister
          assert v4l2Registered == old(v4l2Registered);
          rc := -ENOMEM;
        } else {
          rc := RegisterNodes(pdev, d, vdev.value, c, env);
        }
      }
    }

    /** The part of msm_ba_device_init after video_device_alloc returned `v`. */
    method RegisterNodes(pdev: Ptr, d: Ptr, v: Ptr, c: Ptr, env: InitEnv) returns (rc: int)
      requires pdev in pdevs && d in devs && c in ctxts
      modifies this`vdevs, this`devs, this`mediaRegistered, this`nodesRegistered, this`ctxts
      ensures Step(rc, View()) == Lifecycle.RegisterNodes(old(View()), pdev, d, v, c, env)
    {
      ghost var k := View();
      var name := Strlcpy(pdevs[pdev].name, VIDEO_DEVICE_NAME_SIZE);
      vdevs := vdevs[v := VideoDev(name, d, BASE_DEVICE_NUMBER, VFL_TYPE_GRABBER, 0)];
      devs := devs[d := devs[d].(vdev := Some(v))];
      rc := env.mediaRc;                                   // media_device_register
      if rc == 0 {
        mediaRegistered := mediaRegistered + {d};
      }
      rc := env.entityRc;                                  // media_entity_init
      vdevs := vdevs[v := vdevs[v].(entityGroupId := BA_ENTITY_GROUP_ID)];
      assert vdevs == k.vdevs[v := VideoDev(name, d, BASE_DEVICE_NUMBER, VFL_TYPE_GRABBER, BA_ENTITY_GROUP_ID)];
      ghost var k1 := View();
      rc := env.videoRc;                                   // video_register_device
      if rc == 0 {
        nodesRegistered := nodesRegistered + {v};
        ctxts := ctxts[c := ctxts[c].(devCtxt := Some(d))];
        assert View() == k1.(nodesRegistered := k1.nodesRegistered + {v},
                             ctxts := k1.ctxts[c := k1.ctxts[c].(devCtxt := Some(d))]);
      }
    }

    /** msm_ba_probe */
    method Probe(pdev: Ptr, env: InitEnv, debugfsOk: bool) returns (rc: int)
      requires Valid() && pdev in pdevs
      modifies this
      ensures Valid()
      ensures Step(rc, View()) == Lifecycle.Probe(old(View()), pdev, env, debugfsOk)
    {
      rc := 0;
      var baCtxt := GetBaContext();
      if baCtxt.None? {
        return -EINVAL;
      }
      rc := DeviceInit(pdev, baCtxt, env);
      if rc == 0 {
        var d := ctxts[baCtxt.value].devCtxt.value;
        devs := devs[d := devs[d].(debugfsRoot := debugfsOk)];
        pdevs := pdevs[pdev := pdevs[pdev].(platformData := Some(d))];
      }
      return rc;
    }

    /** msm_ba_remove */
    method Remove(pdev: Option<Ptr>) returns (rc: int)
      requires Valid() && Lifecycle.RemoveArg(View(), pdev)
      modifies this
      ensures Valid()
      ensures Step(rc, View()) == Lifecycle.Remove(old(View()), pdev)
    {
      rc := 0;
      if pdev.None? {
        rc := -EINVAL;
      } else {
        var devCtxt := pdevs[pdev.value].platformData;
        if devCtxt.None? {
          rc := -EINVAL;
        } else {
          var d := devCtxt.value;
          if devs[d].vdev.Some? {                                      // video_unregister_device
            nodesRegistered := nodesRegistered - {devs[d].vdev.value};
          }
          v4l2Registered := v4l2Registered - {d};                      // v4l2_device_unregister
          devs := devs - {d};                                          // kfree
        }
      }
      return rc;
    }

    /** platform_driver_register, whose outcome is `regRc` */
    method PlatformDriverRegister(regRc: int) returns (rc: int)
      modifies this`driverRegistered
      ensures rc == regRc
      ensures driverRegistered == (regRc == 0 || old(driverRegistered))
    {
      rc := regRc;
      if rc == 0 {
        driverRegistered := true;
      }
    }

    /** platform_driver_unregister */
    method PlatformDriverUnregister()
      modifies this`driverRegistered
      ensures !driverRegistered
    {
      driverRegistered := false;
    }

    /** msm_ba_mod_init */
    method ModInit(env: CreateEnv, regRc: int) returns (rc: int)
      requires Valid()
      modifies this
      ensures Valid()
      ensures Step(rc, View()) == Lifecycle.ModInit(old(View()), env, regRc)
    {
      rc := Create(env);
      if rc == 0 {
        rc := PlatformDriverRegister(regRc);
        if rc != 0 {
          var destroyed := Destroy();
        }
      }
      return rc;
    }

    /** msm_ba_mod_exit */
    method ModExit()
      requires Valid()
      modifies this
      ensures Valid()
      ensures View() == Lifecycle.ModExit(old(View()))
    {
      PlatformDriverUnregister();
      var rc := Destroy();
    }
  }
}
