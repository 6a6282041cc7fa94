/**
 * `setTimeout` / `clearTimeout`: the browser's table of armed timers. A timer
 * records its delay and the job it will run; firing one removes it and hands
 * the job back to the caller, which performs it.
 */
module Timers {
  import opened Wrappers

  datatype Timer<T> = Timer(delay: nat, task: T)

  class TimerQueue<T> {
    var armed: map<nat, Timer<T>>
    var nextId: nat

    /** Every armed timer has a positive id below `nextId`, so ids are truthy and never reused. */
    ghost predicate Valid()
      reads this
    {
      nextId >= 1 && forall id :: id in armed ==> 1 <= id < nextId
    }

    constructor ()
      ensures Valid() && armed == map[]
    {
      armed := map[];
      nextId := 1;
    }

    /** `setTimeout(task, delay)`: arms a new timer and returns its fresh, positive id. */
    method SetTimeout(delay: nat, task: T) returns (id: nat)
      requires Valid()
      modifies this
      ensures Valid()
      ensures id >= 1 && id !in old(armed)
      ensures id == old(nextId) && nextId == old(nextId) + 1
      ensures armed == old(armed)[id := Timer(delay, task)]
    {
      id := nextId;
      armed := armed[id := Timer(delay, task)];
      nextId := nextId + 1;
    }

    /** `clearTimeout(id)`: disarms that timer, if it is still armed. */
    method ClearTimeout(id: nat)
      requires Valid()
      modifies this
      ensures Valid()
      ensures armed == old(armed) - {id} && nextId == old(nextId)
    {
      armed := armed - {id};
    }

    /** The runtime fires timer `id`: it is disarmed and its task is returned. */
    method Fire(id: nat) returns (task: Option<T>)
      requires Valid()
      modifies this
      ensures Valid()
      ensures id in old(armed) ==> task == Some(old(armed)[id].task)
      ensures id !in old(armed) ==> task == None
      ensures armed == old(armed) - {id}
    {
      if id in armed {
        task := Some(armed[id].task);
      } else {
        task := None;
      }
      armed := armed - {id};
    }
  }
}
