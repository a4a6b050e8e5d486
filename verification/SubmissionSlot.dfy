/** The single submission slot of a worker (hornlab_beat_bem/submission.py).

    Every public method of the slot is one critical section of a non-reentrant mutex, except
    that `acquire` may give the mutex up in the middle (to wait) and `retire` keeps it while a
    caller-supplied action runs. The functions below are those critical sections as values; the
    class is the slot itself, with the fields the source has, proved against the functions.
    `SlotMachine` interleaves the sections of any number of threads. */
module SubmissionSlots {
  import opened Prelude

  type Tid = nat

  /** A submission is an identity and nothing else. Serials are drawn from a counter that never
      goes back, so the serial stands for the object; anything that is not the holder's serial
      is a stale or foreign object, and `None` is Python's None. */
  type Serial = nat

  /** The fields the mutex protects. `waiters` is the condition's own FIFO of parked threads. */
  datatype Core = Core(
    holder: Option<Serial>,
    closed: bool,
    waiting: int,
    nextSerial: Serial,
    waiters: seq<Tid>)

  const INITIAL := Core(None, false, 0, 1, [])

  datatype Pass = Refused | Admitted(serial: Serial) | Parked

  /** One pass of `acquire`'s loop by thread `t`, up to leaving the mutex. */
  function AcquirePass(c: Core, t: Tid): (Core, Pass) {
    if c.closed then (c, Refused)
    else if c.holder.None? then (c.(holder := Some(c.nextSerial), nextSerial := c.nextSerial + 1),
                                 Admitted(c.nextSerial))
    else (c.(waiting := c.waiting + 1, waiters := c.waiters + [t]), Parked)
  }

  predicate Owns(c: Core, submission: Option<Serial>) {
    submission.Some? && c.holder == submission
  }

  /** `release` inside the mutex: the holder's own submission frees the slot and notifies the
      thread that has been parked longest; any other submission changes nothing. */
  function ReleaseSection(c: Core, submission: Option<Serial>): (Core, bool) {
    if !Owns(c, submission) then (c, false)
    else (c.(holder := None, waiters := if c.waiters == [] then [] else c.waiters[1..]), true)
  }

  /** `close` inside the mutex: the holder keeps the slot, and everybody parked is woken. */
  function CloseSection(c: Core): Core {
    c.(closed := true, waiters := [])
  }

  class SubmissionSlot {
    var mutex: Option<Tid>
    var holder: Option<Serial>
    var closed: bool
    var waiting: int
    var nextSerial: Serial
    var waiters: seq<Tid>
    /** The threads whose thread-local "may not block" flag is on. */
    var bestEffort: set<Tid>

    ghost function View(): Core
      reads this
    {
      Core(holder, closed, waiting, nextSerial, waiters)
    }

    constructor ()
      ensures View() == INITIAL && mutex == None && bestEffort == {}
    {
      mutex, holder, closed, waiting, nextSerial, waiters, bestEffort := None, None, false, 0, 1, [], {};
    }

    /** One pass of `acquire`'s loop. A parked thread has given the mutex up; `Rewake` is how
        it comes back, and a further pass follows. */
    method Acquire(t: Tid) returns (pass: Pass)
      requires mutex == None || mutex == Some(t)
      modifies this
      ensures (View(), pass) == AcquirePass(old(View()), t)
      ensures mutex == None && bestEffort == old(bestEffort)
      ensures pass.Refused? <==> old(closed)
      ensures pass.Admitted? <==> !old(closed) && old(holder).None?
      ensures holder == if pass.Admitted? then Some(pass.serial) else old(holder)
      ensures pass.Admitted? ==> pass.serial == old(nextSerial) < nextSerial
    {
      mutex := Some(t);
      if closed {
        pass := Refused;
      } else if holder.None? {
        holder := Some(nextSerial);
        nextSerial := nextSerial + 1;
        pass := Admitted(holder.value);
      } else {
        waiting := waiting + 1;
        waiters := waiters + [t];
        pass := Parked;
      }
      mutex := None;
    }

    /** A notified thread takes the mutex back and leaves the waiting count; the caller goes
        round `acquire`'s loop again still inside the mutex. */
    method Rewake(t: Tid)
      requires mutex == None
      modifies this
      ensures View() == old(View()).(waiting := old(waiting) - 1)
      ensures mutex == Some(t) && bestEffort == old(bestEffort)
    {
      mutex := Some(t);
      waiting := waiting - 1;
    }

    /** `release`. Where blocking is allowed the call starts once the mutex is free; under
        best effort it starts at once, and a mutex in anybody's hands -- this very thread's
        included -- means it gives up. */
    method Release(t: Tid, submission: Option<Serial>) returns (released: bool)
      requires t !in bestEffort ==> mutex == None
      modifies this
      ensures mutex == old(mutex) && bestEffort == old(bestEffort)
      ensures old(mutex) != None ==> !released && View() == old(View())
      ensures old(mutex) == None ==> (View(), released) == ReleaseSection(old(View()), submission)
      ensures released <==> old(mutex) == None && submission.Some? && old(holder) == submission
      ensures holder == if released then None else old(holder)
    {
      if mutex != None {
        return false;
      }
      mutex := Some(t);
      if submission.None? || holder != submission {
        released := false;
      } else {
        holder := None;
        if waiters != [] {
          waiters := waiters[1..];
        }
        released := true;
      }
      mutex := None;
    }

    method Close(t: Tid)
      requires mutex == None
      modifies this
      ensures View() == CloseSection(old(View())) && mutex == None && bestEffort == old(bestEffort)
      ensures closed && waiters == [] && holder == old(holder)
    {
      mutex := Some(t);
      closed := true;
      waiters := [];
      mutex := None;
    }

    /** The first half of `retire`: the identity check. On success the mutex stays with the
        caller, whose action now runs, until `EndRetire`. */
    method BeginRetire(t: Tid, submission: Option<Serial>) returns (owned: bool)
      requires mutex == None
      modifies this`mutex
      ensures owned == Owns(View(), submission)
      ensures owned <==> submission.Some? && holder == submission
      ensures mutex == if owned then Some(t) else None
    {
      owned := submission.Some? && holder == submission;
      mutex := if owned then Some(t) else None;
    }

    method EndRetire(t: Tid)
      requires mutex == Some(t)
      modifies this`mutex
      ensures mutex == None
    {
      mutex := None;
    }

    /** `best_effort_release`'s entry and exit; `previous` is what the exit restores. */
    method EnterBestEffort(t: Tid) returns (previous: bool)
      modifies this`bestEffort
      ensures previous == (t in old(bestEffort)) && bestEffort == old(bestEffort) + {t}
    {
      previous := t in bestEffort;
      bestEffort := bestEffort + {t};
    }

    method ExitBestEffort(t: Tid, previous: bool)
      modifies this`bestEffort
      ensures bestEffort == if previous then old(bestEffort) + {t} else old(bestEffort) - {t}
    {
      bestEffort := if previous then bestEffort + {t} else bestEffort - {t};
    }

    /** A finalizer: `SubmissionStream.__del__`, with the release of the generator's `finally`
        nested inside the stream's own. Whatever the state of the mutex it finishes, the flag
        comes back as it was, and it either frees the finalized submission exactly as a
        blocking release would or changes nothing. */
    method Finalize(t: Tid, submission: Option<Serial>)
      modifies this
      ensures mutex == old(mutex) && bestEffort == old(bestEffort)
      ensures View() == if old(mutex) == None then ReleaseSection(old(View()), submission).0 else old(View())
    {
      var previous := EnterBestEffort(t);
      var generatorReleased := Release(t, submission);
      var streamReleased := Release(t, submission);
      ExitBestEffort(t, previous);
    }
  }
}
