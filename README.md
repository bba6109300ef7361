# MSM bridge-abstraction V4L2 driver: lifecycle model

This project models the lifecycle code of the Qualcomm MSM bridge-abstraction
(BA) V4L2 driver, `drivers/video/msmLA-AF-1.1.1/ba/msm_v4l2_ba.c`. It covers:

- the file-static singleton `gp_ba_ctxt`;
- the driver context (`struct ba_ctxt`) that `msm_ba_create` allocates and `msm_ba_destroy` frees;
- the device context (`struct msm_ba_dev`) that `msm_ba_probe` builds through `msm_ba_device_init` and `msm_ba_remove` frees;
- module load and unload (`msm_ba_mod_init`, `msm_ba_mod_exit`), which register and unregister the platform driver;
- the `VIDIOC_G_PARM` stub.

Kernel memory is modelled as far as this driver touches it, as a value of type `Kernel` (`types.dfy`):

- Each kind of structure lives in a map from its address to its contents.
- `kfree` removes the address from the map.
- A pointer that still holds a removed address is dangling.
- The V4L2 device registry, the media-device registry and the registered video nodes are sets of addresses.
- An allocator that never reuses an address stands in for `kzalloc` and `video_device_alloc`.

Every call the driver makes into the rest of the kernel is a parameter giving its outcome: an allocation that succeeds or returns NULL, or a return code. Examples are v4l2_device_register, media_device_register, media_entity_init, video_register_device, platform_driver_register and the debugfs helpers.

The model has three layers:

- `Lifecycle` (`lifecycle.dfy`): each lifecycle function is a transition from the state before the call to its return code and the state after it. The contracts there state what each call returns and leaves.
- `BaDriver.BaModule` (`driver.dfy`): the same code as imperative methods on a class whose fields are the kernel state. They update the fields in the order the C code does, including:
  - the `rc` variable that later calls overwrite;
  - the video device built before media_device_register, with its entity group id set after media_entity_init;
  - the `kfree` on the common error path.

  Each lifecycle method (create, destroy, device init, probe, remove, module init and exit) is proved to leave exactly the return code and state of its `Lifecycle` function; the helpers for the singleton accessors, the allocator and the platform-driver registration state their effect directly.
- `LifecycleProperties` and `Traces` (`properties.dfy`, `traces.dfy`): properties over several calls and over any sequence of calls within one load of the module.

The model follows the code as written, including four behaviours an idealised lifecycle would not have:

- The device state is set to `BA_DEV_UNINIT` and never advanced.
- The results of `media_device_register` and `media_entity_init` are overwritten by that of `video_register_device`, so they never decide the outcome.
- When `video_register_device` fails, the device context is freed without `v4l2_device_unregister`. The V4L2 registry then keeps a freed address, as does the media registry when `media_device_register` succeeded. The video device is never released.
- `msm_ba_remove` frees the device context but clears neither `ba_ctxt->dev_ctxt` nor `platform_data`. Once a device has been probed, the driver context can never be destroyed again until the module is unloaded: `msm_ba_destroy` returns -EBUSY, every later probe fails with -EINVAL, and module exit leaks the driver context (`Traces.AttachedIsPermanent`, `LifecycleProperties.RemoveAfterProbe`).

## Model

| member | source | states |
|---|---|---|
| BaTypes.Alloc | drivers/video/msmLA-AF-1.1.1/ba/msm_v4l2_ba.c:363-366 | a successful kzalloc returns an address never handed out before and changes nothing but the allocator's bookkeeping |
| BaTypes.Strlcpy | drivers/video/msmLA-AF-1.1.1/ba/msm_v4l2_ba.c:253-254 | the video device's name is a prefix of the platform device's name, shorter than the 32-byte buffer; it is the whole name when that fits, otherwise the first 31 characters |
| Lifecycle.Boot | drivers/video/msmLA-AF-1.1.1/ba/msm_v4l2_ba.c:32 | before module init the singleton is NULL, no driver context, device context or video device is allocated, the three registries are empty, the driver is not registered, and the state is well formed |
| Lifecycle.Create | drivers/video/msmLA-AF-1.1.1/ba/msm_v4l2_ba.c:352-382 | returns 0 exactly when no context exists and the allocation succeeds; -EINVAL and nothing changed when a context exists; -ENOMEM and still no context when the allocation fails; on success a fresh context with a NULL `dev_ctxt` is published whether or not debugfs init worked, and nothing else changes |
| Lifecycle.Destroy | drivers/video/msmLA-AF-1.1.1/ba/msm_v4l2_ba.c:384-407 | returns 0 exactly when a context exists and its `dev_ctxt` is NULL; -EINVAL without a context and -EBUSY with a device, both leaving the state unchanged; on success the context is freed, the singleton is NULL and nothing else changes |
| Lifecycle.RegisterNodes | drivers/video/msmLA-AF-1.1.1/ba/msm_v4l2_ba.c:253-283 | returns video_register_device's code whatever media_device_register returned; the video device belongs to the device context; the media device is registered exactly when its registration succeeded; on success the node is registered and the out-slot holds the device context, and on failure neither changes |
| Lifecycle.InitDevice | drivers/video/msmLA-AF-1.1.1/ba/msm_v4l2_ba.c:246-287 | the block after the kzalloc succeeds exactly when v4l2_device_register, video_device_alloc and video_register_device all succeed; a failed v4l2_device_register returns its code and changes nothing; a failed video_device_alloc returns -ENOMEM with the V4L2 registration undone, so nothing has changed |
| Lifecycle.DeviceInit | drivers/video/msmLA-AF-1.1.1/ba/msm_v4l2_ba.c:218-296 | a NULL out-pointer or a filled slot gives -EINVAL with nothing changed; a failed kzalloc gives -ENOMEM with nothing changed; 0 exactly when the slot is empty and the three deciding steps succeed |
| Lifecycle.DeviceInitKeepsWf | drivers/video/msmLA-AF-1.1.1/ba/msm_v4l2_ba.c:218-296 | msm_ba_device_init keeps every allocation and registration within what the allocator handed out, and keeps the singleton pointing at a live context |
| Lifecycle.DeviceInitFailureFrees | drivers/video/msmLA-AF-1.1.1/ba/msm_v4l2_ba.c:246-292 | on any failure the out-slot is untouched, the device context is freed again, no node is published, no platform device changes and the driver registration is as before; a failure before the video device exists (v4l2_device_register or video_device_alloc) leaves every part of the state but the allocator's bookkeeping as it was, the V4L2 registration included |
| Lifecycle.DeviceInitPublishes | drivers/video/msmLA-AF-1.1.1/ba/msm_v4l2_ba.c:230-279 | on success the slot holds a freshly allocated device context with no instances, state `BA_DEV_UNINIT`, the probing platform device, and a registered capture node with minor 35, group id 2 and the platform device's name; no other slot or device context changes; exactly the new device context joins the V4L2 registry (and the media registry when media_device_register succeeded), exactly the new, previously unallocated video device joins the video devices and the node registry, and the driver registration and platform devices are unchanged; neither the new device context nor the new video device was registered before |
| Lifecycle.DeviceInitFailureCode | drivers/video/msmLA-AF-1.1.1/ba/msm_v4l2_ba.c:246-275 | once the kzalloc succeeded, the result is v4l2_device_register's code, else -ENOMEM for a failed video_device_alloc, else video_register_device's code; changing the outcomes of media_device_register and media_entity_init never changes it |
| Lifecycle.VideoRegisterFailureLeaves | drivers/video/msmLA-AF-1.1.1/ba/msm_v4l2_ba.c:274-292 | when only video_register_device fails, its code is returned, the V4L2 registry gains exactly the freshly allocated device context, which was not registered before and is freed again; the media registry gains the same freed address exactly when media_device_register succeeded and is otherwise unchanged; the video device allocated after it stays allocated and points at the freed context, and nothing else changes but the allocator's bookkeeping |
| Lifecycle.Probe | drivers/video/msmLA-AF-1.1.1/ba/msm_v4l2_ba.c:298-322 | -EINVAL with nothing changed without a context or with a device already attached; 0 exactly when a context exists, its slot is empty and device init succeeds; the singleton and the set of live driver contexts never change; on success the slot and the platform device's `platform_data` hold the same new, published device context, which carries the probe's debugfs result, and nothing else changes but the new entries: the slot, the new device context, the new video device, the V4L2 and node registrations of those two, the media registration when media_device_register succeeded, with the driver registration as before; a failure after the checks leaves exactly what device init left; on failure neither the slot, `platform_data` nor any device context changes |
| Lifecycle.Remove | drivers/video/msmLA-AF-1.1.1/ba/msm_v4l2_ba.c:324-350 | -EINVAL and nothing changed for a NULL platform device or NULL `platform_data`; otherwise 0, with exactly the device context freed, exactly its V4L2 device removed from the V4L2 registry and exactly its video node (if any) unregistered, and everything else left as it was: the driver context's slot, `platform_data`, the video device, the media registration, the driver registration and the allocator |
| Lifecycle.ModInit | drivers/video/msmLA-AF-1.1.1/ba/msm_v4l2_ba.c:426-443 | 0 exactly when create and platform_driver_register both succeed, leaving the driver registered with an empty context; a failed create's result is returned as is; a failed registration returns its own code with the context destroyed again and everything but the allocator's bookkeeping as before; on success a fresh driver context with a NULL slot and the debugfs outcome joins the others, and only it, the singleton and the registration flag change |
| Lifecycle.ModExit | drivers/video/msmLA-AF-1.1.1/ba/msm_v4l2_ba.c:445-453 | the driver ends unregistered; the context is freed exactly when its slot is empty, and then nothing else changes (a missing context leaves everything but the registration as it was); with a device attached nothing but the registration changes |
| Lifecycle.GParm | drivers/video/msmLA-AF-1.1.1/ba/msm_v4l2_ba.c:167-171 | VIDIOC_G_PARM always succeeds and leaves the stream parameters untouched |
| LifecycleProperties.DestroyUndoesCreate | drivers/video/msmLA-AF-1.1.1/ba/msm_v4l2_ba.c:357-404 | destroy right after a successful create succeeds and returns every part of the state except the allocator's bookkeeping to what it was |
| LifecycleProperties.CreateTwiceFails | drivers/video/msmLA-AF-1.1.1/ba/msm_v4l2_ba.c:357-362 | after a successful create, a second create returns -EINVAL and changes nothing |
| LifecycleProperties.RemoveAfterProbe | drivers/video/msmLA-AF-1.1.1/ba/msm_v4l2_ba.c:298-350 | remove after a successful probe of the same device succeeds and undoes the device-context allocation, the V4L2 registration and the node registration, while the media registration and the video device stay; the slot and `platform_data` keep the freed address, so destroy returns -EBUSY and every further probe returns -EINVAL |
| Traces.Apply | drivers/video/msmLA-AF-1.1.1/ba/msm_v4l2_ba.c:298-453 | every lifecycle call keeps the state well formed and the set of platform devices unchanged |
| Traces.Run | drivers/video/msmLA-AF-1.1.1/ba/msm_v4l2_ba.c:298-453 | any sequence of calls the kernel can make while the module is loaded (probe and remove only while the driver is registered, nothing after module exit) keeps the state well formed and the set of platform devices unchanged |
| Traces.Load | drivers/video/msmLA-AF-1.1.1/ba/msm_v4l2_ba.c:426-456 | one load of the module (module init on the state at load, then the calls until module exit, nothing after a failed init) keeps the state well formed and the set of platform devices unchanged |
| Traces.BootInv | drivers/video/msmLA-AF-1.1.1/ba/msm_v4l2_ba.c:32 | at load, with no platform device carrying driver data, the invariant holds |
| Traces.CreateKeepsInv | drivers/video/msmLA-AF-1.1.1/ba/msm_v4l2_ba.c:352-382 | create keeps the invariant: the only live driver context is the singleton's, and `platform_data` is NULL or the device in its slot |
| Traces.DestroyKeepsInv | drivers/video/msmLA-AF-1.1.1/ba/msm_v4l2_ba.c:384-407 | destroy keeps the invariant |
| Traces.ProbeKeepsInv | drivers/video/msmLA-AF-1.1.1/ba/msm_v4l2_ba.c:298-322 | probe keeps the invariant |
| Traces.RemoveKeepsInv | drivers/video/msmLA-AF-1.1.1/ba/msm_v4l2_ba.c:324-350 | remove keeps the invariant |
| Traces.ModInitKeepsInv | drivers/video/msmLA-AF-1.1.1/ba/msm_v4l2_ba.c:426-443 | module init keeps the invariant |
| Traces.ModExitKeepsInv | drivers/video/msmLA-AF-1.1.1/ba/msm_v4l2_ba.c:445-453 | module exit keeps the invariant |
| Traces.ApplyKeepsInv | drivers/video/msmLA-AF-1.1.1/ba/msm_v4l2_ba.c:298-453 | every lifecycle call keeps the invariant |
| Traces.RunKeepsInv | drivers/video/msmLA-AF-1.1.1/ba/msm_v4l2_ba.c:298-453 | every sequence of calls keeps the invariant: the driver context is a singleton and at most one device context is ever recorded in `platform_data` |
| Traces.LoadKeepsInv | drivers/video/msmLA-AF-1.1.1/ba/msm_v4l2_ba.c:426-456 | every state of every load of the module satisfies the invariant when no platform device carries driver data at load |
| Traces.AttachedIsPermanent | drivers/video/msmLA-AF-1.1.1/ba/msm_v4l2_ba.c:324-407 | once a device context is in the slot, it stays there through any sequence of calls until the module is unloaded; destroy then returns -EBUSY, and module exit leaves the driver context allocated and the singleton set |
| Traces.SingleBinding | drivers/video/msmLA-AF-1.1.1/ba/msm_v4l2_ba.c:298-322 | in a reachable state, while any platform device carries driver data, probing any platform device returns -EINVAL and changes nothing |
| BaDriver.BaModule.constructor | drivers/video/msmLA-AF-1.1.1/ba/msm_v4l2_ba.c:32 | the driver's state at load is `Lifecycle.Boot` |
| BaDriver.BaModule.GetBaContext | drivers/video/msmLA-AF-1.1.1/ba/msm_v4l2_ba.c:34-37 | returns the singleton and changes nothing |
| BaDriver.BaModule.SetBaContext | drivers/video/msmLA-AF-1.1.1/ba/msm_v4l2_ba.c:39-42 | sets the singleton and nothing else |
| BaDriver.BaModule.Kzalloc | drivers/video/msmLA-AF-1.1.1/ba/msm_v4l2_ba.c:363-366 | a successful allocation returns the allocator's next fresh address; a failed one returns NULL and changes nothing |
| BaDriver.BaModule.Create | drivers/video/msmLA-AF-1.1.1/ba/msm_v4l2_ba.c:352-382 | returns the code and leaves the state `Lifecycle.Create` specifies, keeping the state well formed |
| BaDriver.BaModule.Destroy | drivers/video/msmLA-AF-1.1.1/ba/msm_v4l2_ba.c:384-407 | returns the code and leaves the state `Lifecycle.Destroy` specifies |
| BaDriver.BaModule.DeviceInit | drivers/video/msmLA-AF-1.1.1/ba/msm_v4l2_ba.c:218-296 | returns the code and leaves the state `Lifecycle.DeviceInit` specifies, keeping the state well formed |
| BaDriver.BaModule.InitDevice | drivers/video/msmLA-AF-1.1.1/ba/msm_v4l2_ba.c:246-287 | registering the V4L2 device and allocating the video device, then undoing the registration when the allocation fails, has the effect `Lifecycle.InitDevice` specifies |
| BaDriver.BaModule.RegisterNodes | drivers/video/msmLA-AF-1.1.1/ba/msm_v4l2_ba.c:253-283 | building the video device, registering the media device, initialising the entity and registering the node, with `rc` overwritten by each call, has the effect `Lifecycle.RegisterNodes` specifies |
| BaDriver.BaModule.Probe | drivers/video/msmLA-AF-1.1.1/ba/msm_v4l2_ba.c:298-322 | returns the code and leaves the state `Lifecycle.Probe` specifies |
| BaDriver.BaModule.Remove | drivers/video/msmLA-AF-1.1.1/ba/msm_v4l2_ba.c:324-350 | returns the code and leaves the state `Lifecycle.Remove` specifies |
| BaDriver.BaModule.PlatformDriverRegister | drivers/video/msmLA-AF-1.1.1/ba/msm_v4l2_ba.c:433 | returns the registration's code and marks the driver registered on success |
| BaDriver.BaModule.PlatformDriverUnregister | drivers/video/msmLA-AF-1.1.1/ba/msm_v4l2_ba.c:450 | the driver is no longer registered |
| BaDriver.BaModule.ModInit | drivers/video/msmLA-AF-1.1.1/ba/msm_v4l2_ba.c:426-443 | returns the code and leaves the state `Lifecycle.ModInit` specifies |
| BaDriver.BaModule.ModExit | drivers/video/msmLA-AF-1.1.1/ba/msm_v4l2_ba.c:445-453 | leaves the state `Lifecycle.ModExit` specifies: unregistered first, then the ignored destroy |

## Left out

- The ioctl wrappers (`msm_v4l2_querycap` to `msm_v4l2_s_parm`), `msm_v4l2_open`, `msm_v4l2_close` and `msm_v4l2_poll`: each only forwards to a `msm_ba_*` function defined in files that are not part of this model.
- BaTypes.Strlcpy: counts characters rather than bytes, so platform device names are taken as ASCII; a multi-byte name would be cut at a different point.
- `get_ba_inst`: `container_of` arithmetic on the file's private data, with no state of its own.
- `msm_ba_release_video_device` and `msm_ba_subdev_event_hndlr`: callbacks installed in the video device and the V4L2 device, never called from this code.
- The internals of the V4L2, media-controller and platform-bus cores: each call is a parameter giving its outcome. The registries record only which addresses are registered.
- Debugfs: only whether `msm_ba_debugfs_init_drv` and `msm_ba_debugfs_init_dev` returned a directory is kept, as a boolean.
- Logging (`dprintk`, `pr_err`), mutexes (`mutex_init`/`mutex_destroy`, never locked here), the `of_device_id` match table and the `MODULE_*` macros: no effect on the state or the return codes.
- The V4L2 device's and the media device's `name`/`model` strings (`MSM_BA_DRV_NAME`), the file and ioctl operation tables, the release callback and the media entity's `type` and `name`: they are stored but never read by this code. `msm_ba_internal.h` is not part of this model: of the device states it declares, only `BA_DEV_UNINIT`, the one this code assigns, is modelled.
- `video_set_drvdata(dev_ctxt->vdev, &dev_ctxt)` stores the address of a local variable; the model has no stack, so this driver data is not modelled.
- platform_driver_register and platform_driver_unregister only register and unregister the driver. Binding a device during registration, which calls `msm_ba_probe`, is a separate `ProbeOp` in a trace. Unbinding a bound device during unregistration, which calls `msm_ba_remove` before the destroy of `msm_ba_mod_exit`, is a separate `RemoveOp` just before the `ModExitOp`; the effect is the same, since `msm_ba_remove` does not read the driver's registration. `Traces.Run` does not require that `RemoveOp`, so the traces also include loads that end with a device still bound; this only adds traces, and the invariants are proved for all of them.
- A trace covers one load of the module. A later reload starts again from a NULL singleton, while memory leaked by the previous load (a driver context left by module exit, a stale `platform_data`) stays allocated; reloads are not modelled.
- Lifecycle.Remove: requires that a non-NULL `platform_data` points at a device context that is still allocated, because the platform bus calls remove once per bound device and a second kfree of the same address is undefined behaviour.
- BaDriver.BaModule.Remove: the same requirement as `Lifecycle.Remove`.
- Lifecycle.Probe: takes a non-NULL platform device on the bus, since the function dereferences it before any check and the bus never passes NULL; the same holds for `BaDriver.BaModule.Probe` and `Traces.Allowed`.
- Allocation is never reused: an address freed by kfree is never handed out again, so the model cannot show a later allocation landing on a dangling `dev_ctxt`.
