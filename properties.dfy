/** Properties that relate several calls of the lifecycle functions: which
    call undoes which, and what a second call finds after the first. */
module LifecycleProperties {
  import opened BaTypes
  import opened Lifecycle

  /** msm_ba_destroy undoes a successful msm_ba_create: everything but the
      allocator's bookkeeping is as before. */
  lemma {:induction false} DestroyUndoesCreate(k: Kernel, env: CreateEnv)
    requires Wf(k)
    requires Create(k, env).rc == 0
    ensures var r := Destroy(Create(k, env).k);
      && r.rc == 0
      && r.k.(handedOut := k.handedOut, nextAddr := k.nextAddr) == k
  {
    var c := Create(k, env).k.gpBaCtxt.value;
    assert c !in k.ctxts;
    assert k.ctxts[c := BaCtxt(None, env.debugfsOk)] - {c} == k.ctxts;
  }

  /** The singleton is created at most once: a second msm_ba_create fails
      with -EINVAL and changes nothing. */
  lemma CreateTwiceFails(k: Kernel, env1: CreateEnv, env2: CreateEnv)
    requires Wf(k)
    requires Create(k, env1).rc == 0
    ensures var k1 := Create(k, env1).k;
      Create(k1, env2) == Step(-EINVAL, k1)
  {
  }

  /** msm_ba_remove after a successful msm_ba_probe of the same platform
      device undoes the device-context allocation, the V4L2 registration and
      the node registration; the media registration and the video device
      stay. The freed address remains in the driver context's `dev_ctxt`
      slot and in `platform_data`: msm_ba_destroy then fails with -EBUSY and every later
      msm_ba_probe with -EINVAL. */
  lemma {:induction false} RemoveAfterProbe(k: Kernel, pdev: Ptr, env: InitEnv, debugfsOk: bool,
                                            pdev2: Ptr, env2: InitEnv, debugfsOk2: bool)
    requires Wf(k) && pdev in k.pdevs && pdev2 in k.pdevs
    requires Probe(k, pdev, env, debugfsOk).rc == 0
    ensures var k1 := Probe(k, pdev, env, debugfsOk).k;
      && RemoveArg(k1, Some(pdev))
      && var r := Remove(k1, Some(pdev));
         && r.rc == 0
         // the allocation and the registrations probe made are undone
         && r.k.devs == k.devs
         && r.k.v4l2Registered == k.v4l2Registered
         && r.k.nodesRegistered == k.nodesRegistered
         // the media registration and the video device are never released
         && r.k.mediaRegistered == k1.mediaRegistered
         && r.k.vdevs == k1.vdevs
         // the slot still holds the freed address
         && DevSlot(r.k) == DevSlot(k1)
         && DevSlot(r.k).Some? && DevSlot(r.k).value !in r.k.devs
         && r.k.pdevs[pdev].platformData == DevSlot(r.k)
         && Destroy(r.k) == Step(-EBUSY, r.k)
         && pdev2 in r.k.pdevs
         && Probe(r.k, pdev2, env2, debugfsOk2) == Step(-EINVAL, r.k)
  {
    var c := k.gpBaCtxt.value;
    DeviceInitKeepsWf(k, pdev, Some(c), env);
    DeviceInitPublishes(k, pdev, c, env);
    var s := DeviceInit(k, pdev, Some(c), env);
    var k1 := Probe(k, pdev, env, debugfsOk).k;
    var d := DevSlot(k1).value;
    var v := k1.devs[d].vdev.value;
    // removing what probe added gives back the state before it
    assert k1.devs - {d} == k.devs;
    assert k1.v4l2Registered - {d} == k.v4l2Registered;
    assert k1.nodesRegistered - {v} == k.nodesRegistered;
  }
}
