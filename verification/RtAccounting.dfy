/** What one round of real-time accounting does to a queue's throttle flag and used time. */
module RtAccounting {
  import opened Kernel

  /** sched_rt_runtime_exceeded, when there is no other CPU to borrow from. */
  function Exceed(throttled: bool, time: nat, runtime: nat, bwRuntime: nat, bwPeriod: nat): (bool, nat) {
    if throttled || runtime >= bwPeriod || runtime == RUNTIME_INF || time <= runtime then (throttled, time)
    else if bwRuntime != 0 then (true, time)
    else (false, 0)
  }

  /** The used time after `overrun` periods have been paid back. */
  function Replenished(time: nat, overrun: nat, runtime: nat): (r: nat)
    ensures r <= time <= r + overrun * runtime
    ensures r > 0 ==> time == r + overrun * runtime
  {
    assert overrun * runtime >= 0;
    if time <= overrun * runtime then 0 else time - overrun * runtime
  }
}
