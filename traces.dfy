/** Sequences of lifecycle calls within one load of the module, as the
    module loader, the platform bus and the BA library's clients make them,
    and what holds along every such sequence. */
module Traces {
  import opened BaTypes
  import opened Lifecycle

  /** One call into the lifecycle code after module init, with the outcomes
      of the calls it makes into the rest of the kernel. Module init runs
      once, at load (see `Load`). */
  datatype Op =
    | CreateOp(env: CreateEnv)
    | DestroyOp
    | ProbeOp(pdev: Ptr, init: InitEnv, debugfsOk: bool)
    | RemoveOp(dev: Option<Ptr>)
    | ModExitOp

  /** What the kernel guarantees about a call: the platform bus calls probe
      and remove only while the driver is registered, probe with a device on
      the bus, remove with one whose device context is still allocated. */
  predicate Allowed(k: Kernel, op: Op)
  {
    match op
    case ProbeOp(pdev, _, _) => k.driverRegistered && pdev in k.pdevs
    case RemoveOp(pdev) => k.driverRegistered && RemoveArg(k, pdev)
    case _ => true
  }

  /** The return code and state a call leaves. */
  function Apply(k: Kernel, op: Op): (r: Step)
    requires Wf(k) && Allowed(k, op)
    ensures Wf(r.k)
    ensures r.k.pdevs.Keys == k.pdevs.Keys
  {
    match op
    case CreateOp(env) => Create(k, env)
    case DestroyOp => Destroy(k)
    case ProbeOp(pdev, init, debugfsOk) => Probe(k, pdev, init, debugfsOk)
    case RemoveOp(pdev) => Remove(k, pdev)
    case ModExitOp => Step(0, ModExit(k))
  }

  /** The state after the calls `ops`, or None when one of them is given
      arguments the kernel never passes, or when a call follows module exit:
      after unloading, the module's code and its static singleton are gone. */
  function Run(k: Kernel, ops: seq<Op>): (r: Option<Kernel>)
    requires Wf(k)
    ensures r.Some? ==> Wf(r.value) && r.value.pdevs.Keys == k.pdevs.Keys
    decreases |ops|
  {
    if ops == [] then Some(k)
    else if !Allowed(k, ops[0]) || (ops[0].ModExitOp? && |ops| > 1) then None
    else Run(Apply(k, ops[0]).k, ops[1..])
  }

  /** One load of the module with the platform devices `bus`: module init on
      the state at load; a failed init fails the load and nothing follows,
      otherwise the calls `ops` until module exit. */
  function Load(bus: map<Ptr, PlatformDev>, env: CreateEnv, regRc: int, ops: seq<Op>): (r: Option<Kernel>)
    ensures r.Some? ==> Wf(r.value) && r.value.pdevs.Keys == bus.Keys
  {
    var s := ModInit(Boot(bus), env, regRc);
    if s.rc != 0 then (if ops == [] then Some(s.k) else None)
    else Run(s.k, ops)
  }

  /** The invariant of every reachable state: the only live driver context is
      the one the singleton points at, and a platform device's
      `platform_data` is either NULL or the device context in its slot. */
  ghost predicate Inv(k: Kernel)
  {
    && Wf(k)
    && k.ctxts.Keys == (if k.gpBaCtxt.Some? then {k.gpBaCtxt.value} else {})
    && forall p :: p in k.pdevs && k.pdevs[p].platformData.Some? ==>
         k.pdevs[p].platformData == DevSlot(k)
  }

  /** The state at module load satisfies the invariant when no platform
      device carries driver data yet. */
  lemma BootInv(bus: map<Ptr, PlatformDev>)
    requires forall p :: p in bus ==> bus[p].platformData.None?
    ensures Inv(Boot(bus))
  {
  }

  /** msm_ba_create keeps the invariant. */
  lemma CreateKeepsInv(k: Kernel, env: CreateEnv)
    requires Inv(k)
    ensures Inv(Create(k, env).k)
  {
  }

  /** msm_ba_destroy keeps the invariant. */
  lemma DestroyKeepsInv(k: Kernel)
    requires Inv(k)
    ensures Inv(Destroy(k).k)
  {
  }

  /** msm_ba_probe keeps the invariant: it binds a platform device only when
      the slot was empty, and then no platform device carried driver data. */
  lemma {:induction false} ProbeKeepsInv(k: Kernel, pdev: Ptr, env: InitEnv, debugfsOk: bool)
    requires Inv(k) && pdev in k.pdevs
    ensures Inv(Probe(k, pdev, env, debugfsOk).k)
  {
    var r := Probe(k, pdev, env, debugfsOk);
    if r.rc == 0 {
      assert forall p :: p in k.pdevs ==> k.pdevs[p].platformData.None?;
    } else {
      assert DevSlot(r.k) == DevSlot(k);
    }
  }

  /** msm_ba_remove keeps the invariant. */
  lemma RemoveKeepsInv(k: Kernel, pdev: Option<Ptr>)
    requires Inv(k) && RemoveArg(k, pdev)
    ensures Inv(Remove(k, pdev).k)
  {
  }

  /** msm_ba_mod_init keeps the invariant. */
  lemma {:induction false} ModInitKeepsInv(k: Kernel, env: CreateEnv, regRc: int)
    requires Inv(k)
    ensures Inv(ModInit(k, env, regRc).k)
  {
    CreateKeepsInv(k, env);
    var s := Create(k, env);
    if s.rc == 0 && regRc != 0 {
      DestroyKeepsInv(s.k);
    }
  }

  /** msm_ba_mod_exit keeps the invariant. */
  lemma {:induction false} ModExitKeepsInv(k: Kernel)
    requires Inv(k)
    ensures Inv(ModExit(k))
  {
    DestroyKeepsInv(k.(driverRegistered := false));
  }

  /** Every call keeps the invariant. */
  lemma {:induction false} ApplyKeepsInv(k: Kernel, op: Op)
    requires Inv(k) && Allowed(k, op)
    ensures Inv(Apply(k, op).k)
  {
    match op
    case CreateOp(env) => CreateKeepsInv(k, env);
    case DestroyOp => DestroyKeepsInv(k);
    case ProbeOp(pdev, init, debugfsOk) => ProbeKeepsInv(k, pdev, init, debugfsOk);
    case RemoveOp(pdev) => RemoveKeepsInv(k, pdev);
    case ModExitOp => ModExitKeepsInv(k);
  }

  /** Every sequence of calls from an invariant state keeps it. */
  lemma {:induction false} RunKeepsInv(k: Kernel, ops: seq<Op>)
    requires Inv(k)
    requires Run(k, ops).Some?
    ensures Inv(Run(k, ops).value)
    decreases |ops|
  {
    if ops != [] {
      ApplyKeepsInv(k, ops[0]);
      RunKeepsInv(Apply(k, ops[0]).k, ops[1..]);
    }
  }

  /** Every state of every load of the module satisfies the invariant, when
      no platform device carries driver data at load. */
  lemma {:induction false} LoadKeepsInv(bus: map<Ptr, PlatformDev>, env: CreateEnv, regRc: int,
                                        ops: seq<Op>)
    requires forall p :: p in bus ==> bus[p].platformData.None?
    requires Load(bus, env, regRc, ops).Some?
    ensures Inv(Load(bus, env, regRc, ops).value)
  {
    BootInv(bus);
    ModInitKeepsInv(Boot(bus), env, regRc);
    if ModInit(Boot(bus), env, regRc).rc == 0 {
      RunKeepsInv(ModInit(Boot(bus), env, regRc).k, ops);
    }
  }

  /** Once a device context sits in the driver context's slot, no call ever
      clears it: msm_ba_remove frees the device context but not the slot.
      Whatever calls follow until the module is unloaded, the driver context
      can no longer be destroyed and module exit leaves it allocated. */
  lemma {:induction false} AttachedIsPermanent(k: Kernel, ops: seq<Op>, d: Ptr)
    requires Wf(k) && DevSlot(k) == Some(d)
    requires Run(k, ops).Some?
    ensures var k' := Run(k, ops).value;
      && DevSlot(k') == Some(d)
      && Destroy(k') == Step(-EBUSY, k')
      && ModExit(k').gpBaCtxt == k'.gpBaCtxt
      && ModExit(k').ctxts == k'.ctxts
    decreases |ops|
  {
    if ops != [] {
      var k1 := Apply(k, ops[0]).k;
      AttachedIsPermanent(k1, ops[1..], d);
    }
  }

  /** In a reachable state at most one platform device is bound: while one
      carries driver data, probing any platform device fails with -EINVAL
      and changes nothing. */
  lemma SingleBinding(k: Kernel, bound: Ptr, pdev: Ptr, env: InitEnv, debugfsOk: bool)
    requires Inv(k)
    requires bound in k.pdevs && k.pdevs[bound].platformData.Some?
    requires pdev in k.pdevs
    ensures Probe(k, pdev, env, debugfsOk) == Step(-EINVAL, k)
  {
  }
}
