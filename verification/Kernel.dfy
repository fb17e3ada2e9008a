/** Constants and small things that several parts of the kernel share. */
module Kernel {

  /** RUNTIME_INF: "runtime == period", a 64-bit word of ones. */
  const RUNTIME_INF: nat := 0xFFFF_FFFF_FFFF_FFFF

  const NSEC_PER_USEC: nat := 1000
  const EINVAL: int := 22
  const EBUSY: int := 16
  const MAX_RT_PRIO: nat := 100

  /** 1ULL << 20, the ratio of a whole CPU. */
  const ONE: nat := 0x10_0000

  datatype Option<T> = None | Some(value: T)

  /** to_ratio.  A zero period would trap in the original. */
  function ToRatio(period: nat, runtime: nat): nat {
    if runtime == RUNTIME_INF then ONE else if period == 0 then 0 else runtime * ONE / period
  }
}
