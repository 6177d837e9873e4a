/** The kernel records the mutex code updates in place (`struct rt_thread`, `struct rt_mutex`). */
module Objects {
  /** `thread->error`: RT_EOK, -RT_ETIMEOUT, -RT_ERROR. `Closing` marks a thread that rt_thread_detach has
      taken off the scheduler's lists: it returns from no call any more. */
  datatype Error = Ok | TimedOut | Failed | Closing

  class Thread {
    const initPriority: int          // init_priority
    var currentPriority: int         // current_priority
    var suspended: bool              // stat & RT_THREAD_SUSPEND_MASK
    var error: Error
    var pending: Mutex?              // pending_object
    var taken: seq<Mutex>            // taken_object_list
    var call: Mutex?                 // the `mutex` argument of a take this thread is still inside

    constructor (priority: int)
      ensures initPriority == currentPriority == priority
      ensures !suspended && error == Ok && pending == null && taken == [] && call == null
    {
      initPriority, currentPriority := priority, priority;
      suspended, error, pending, taken, call := false, Ok, null, [], null;
    }
  }

  class Mutex {
    var owner: Thread?
    var hold: int
    var priority: int                // most urgent waiter, 0xff without waiters
    var ceiling: int                 // ceiling_priority, 0xff when unset
    var waiters: seq<Thread>         // parent.suspend_thread

    /** `rt_mutex_init` */
    constructor ()
      ensures owner == null && hold == 0 && priority == ceiling == 0xff && waiters == []
    {
      owner, hold, priority, ceiling, waiters := null, 0, 0xff, 0xff, [];
    }
  }
}
