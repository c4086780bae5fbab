/**
 * The browser's interval timers as the page sees them: `setInterval` hands
 * out a fresh handle and starts a periodic task, `clearInterval` stops the
 * task with that handle and does nothing for a handle that is not live
 * (src/Components/wow.tsx:127-133, 148-150, 160-162, 198-200, 207-209).
 * Handles start at 1, so clearing the refs' initial value 0 is a no-op.
 */
module Intervals {

  type Handle = nat

  /** What a live interval runs on each firing. */
  datatype Task =
    | ColorCycle            // generateRGBColor, every 25 ms
    | QuoteRotation         // generateFunnyQuote, every 6000 ms
    | PollJob(token: string) // pollWowifiedAPI(token), every 5000 ms

  /** The live intervals, by handle, and the next handle to hand out. */
  datatype Registry = Registry(tasks: map<Handle, Task>, next: Handle)
  {
    /** Every live handle was handed out earlier, and none is 0. */
    ghost predicate Valid()
    {
      0 < next && forall h :: h in tasks ==> 0 < h < next
    }

    function Live(): set<Handle>
    {
      tasks.Keys
    }

    /**
     * `setInterval(task)`: the new handle was not live before and is now;
     * handles are handed out in increasing order.
     */
    function Set(task: Task): (result: (Registry, Handle))
      requires Valid()
      ensures result.0.Valid()
      ensures result.1 == next && result.0.next == next + 1
      ensures result.1 != 0 && result.1 !in Live()
      ensures result.0.Live() == Live() + {result.1}
      ensures result.0.tasks[result.1] == task
      ensures forall h :: h in tasks ==> result.0.tasks[h] == tasks[h]
    {
      (Registry(tasks[next := task], next + 1), next)
    }

    /** `clearInterval(h)`: h is no longer live; nothing else changes. */
    function Clear(h: Handle): (result: Registry)
      ensures result.Live() == Live() - {h}
      ensures forall k :: k in result.tasks ==> result.tasks[k] == tasks[k]
      ensures h !in Live() ==> result == this
      ensures Valid() ==> result.Valid()
    {
      Registry(tasks - {h}, next)
    }
  }

  /** No interval is running and none has been handed out. */
  const NoIntervals: Registry := Registry(map[], 1)

  /** Clearing is idempotent: a second clear of the same handle is a no-op. */
  lemma ClearTwice(reg: Registry, h: Handle)
    ensures reg.Clear(h).Clear(h) == reg.Clear(h)
  {
  }
}
