/** The objects of the hierarchical real-time run queue (CONFIG_RT_GROUP_SCHED, one CPU).

    Every task group owns an `RtRq`, a priority array of FIFO lists.  A list holds entities:
    tasks, and the entities that stand for child groups.
  */
module RtTypes {
  import opened Kernel

  /** struct sched_rt_entity, with the priorities of the task it is embedded in when it is one. */
  class RtEntity {
    const parent: RtEntity?   // the entity of the group this entity belongs to
    const rtRq: RtRq          // the queue this entity is (to be) queued on
    const myQ: RtRq?          // the queue owned by this entity; null for a task
    var back: RtEntity?       // scratch link of dequeue_rt_stack
    var linked: bool          // run_list is on a list
    var prio: nat             // task only: effective priority
    var normalPrio: nat       // task only: priority without boosting

    constructor (rtRq: RtRq, parent: RtEntity?, myQ: RtRq?, prio: nat, normalPrio: nat)
      ensures this.rtRq == rtRq && this.parent == parent && this.myQ == myQ
      ensures !linked && this.prio == prio && this.normalPrio == normalPrio
    {
      this.rtRq, this.parent, this.myQ := rtRq, parent, myQ;
      this.prio, this.normalPrio := prio, normalPrio;
      linked, back := false, null;
    }
  }

  /** struct rt_rq, with the bandwidth settings of its group. */
  class RtRq {
    var bitmap: seq<bool>          // MAX_RT_PRIO + 1 bits, the last one a delimiter
    var queue: seq<seq<RtEntity>>  // one FIFO list for each priority
    var nrRunning: int
    var highestPrio: nat
    var nrBoosted: int
    var throttled: bool
    var rtTime: nat
    var rtRuntime: nat
    const bwRuntime: nat           // rt_bandwidth.rt_runtime of the group
    const bwPeriod: nat            // rt_bandwidth.rt_period; both are fixed while the group is scheduled

    /** init_rt_rq. */
    constructor (runtime: nat, period: nat)
      ensures bitmap == seq(MAX_RT_PRIO + 1, p => p == MAX_RT_PRIO)
      ensures queue == seq(MAX_RT_PRIO, p => [])
      ensures nrRunning == nrBoosted == 0 && highestPrio == MAX_RT_PRIO
      ensures rtTime == 0 && !throttled && rtRuntime == bwRuntime == runtime && bwPeriod == period
    {
      bitmap := seq(MAX_RT_PRIO + 1, p => p == MAX_RT_PRIO);
      queue := seq(MAX_RT_PRIO, p => []);
      nrRunning, nrBoosted, rtTime, highestPrio := 0, 0, 0, MAX_RT_PRIO;
      throttled, rtRuntime, bwRuntime, bwPeriod := false, runtime, runtime, period;
    }
  }
}
