/** The invariant of `SlotMachine` holds in every reachable state, and what follows from it. */
module SlotMachineProofs {
  import opened Prelude
  import opened SubmissionSlots
  import opened SlotHistory
  import opened SlotMachine

  /* ---------- Stacks ---------- */

  lemma {:induction false} OutsideHasNoAction(st: Stack)
    requires InsideCount(st) == 0
    ensures ActionOf(st).None?
    ensures Base(st) != Some(AcquireCheck(true))
  {
    if st.Push? {
      OutsideHasNoAction(st.below);
    }
  }

  /** Above the bottom of a well-formed stack there is always a finalizer, so its thread may
      not block. */
  lemma {:induction false} AboveIsBestEffort(st: Stack)
    requires WellFormed(st) && st.Push? && st.below.Push?
    ensures HasFinalizer(st)
    ensures !st.top.AcquireWant? && !st.top.AcquireWoken? && !st.top.AcquireParked? && !st.top.CloseWant?
        && !st.top.RetireWant?
  {
  }

  /* ---------- Steps that touch one thread only ---------- */

  /** Between `s` and `s'` only thread `t` moved, in or out of the mutex, and nobody was
      parked or woken by it. */
  ghost predicate OnlyMoved(s: State, s': State, t: Tid) {
    && t in s.threads
    && t in s'.threads
    && s'.threads == s.threads[t := s'.threads[t]]
    && (s.mutex == s'.mutex || (s.mutex == None && s'.mutex == Some(t)) || (s.mutex == Some(t) && s'.mutex == None))
    && s'.core.waiters == s.core.waiters
  }

  lemma MoveThreads(s: State, s': State, t: Tid)
    requires ThreadsInv(s) && OnlyMoved(s, s', t) && ThreadInv(s', t)
    ensures ThreadsInv(s')
  {
  }

  lemma MoveWoken(s: State, s': State, t: Tid)
    requires OnlyMoved(s, s', t)
    ensures Woken(s') == if Base(s'.threads[t].stack) == Some(AcquireWoken) then Woken(s) + {t} else Woken(s) - {t}
  {
  }

  lemma MoveRecheck(s: State, s': State, t: Tid)
    requires OnlyMoved(s, s', t)
    requires exists u :: YetToRecheck(s, u)
    requires YetToRecheck(s, t) ==> YetToRecheck(s', t)
    ensures exists u :: YetToRecheck(s', u)
  {
    var u :| YetToRecheck(s, u);
    assert YetToRecheck(s', u);
  }

  lemma PutKeeps(s: State, t: Tid, thread: Thread)
    requires Inv(s) && t in s.threads
    requires WellFormed(thread.stack) && thread.bestEffort == HasFinalizer(thread.stack)
    requires InsideCount(thread.stack) == InsideCount(s.threads[t].stack)
    requires t !in s.core.waiters && thread.stack != Push(AcquireParked, Bottom)
    requires Base(thread.stack) == Base(s.threads[t].stack)
             || (Base(thread.stack) != Some(AcquireWoken) && Base(s.threads[t].stack) != Some(AcquireWoken)
                 && Base(s.threads[t].stack) != Some(AcquireCheck(true)))
    requires ActionOf(thread.stack) == ActionOf(s.threads[t].stack)
    ensures Inv(Put(s, t, thread))
  {
    var s' := Put(s, t, thread);
    assert ThreadInv(s, t);
    MoveThreads(s, s', t);
    MoveWoken(s, s', t);
    if Stranded(s') {
      MoveRecheck(s, s', t);
    }
  }

  lemma LocalKeeps(s: State, t: Tid, a: Action)
    requires Inv(s) && Enabled(s, t, a)
    requires a.Start? || a.Collect? || a.FinalizerRelease? || a.FinalizerExit? || a.GiveUp?
    ensures Inv(Apply(s, t, a))
  {
    assert ThreadInv(s, t);
    match a
    case Start(f) => PutKeeps(s, t, s.threads[t].(stack := Push(f, Bottom)));
    case Collect(k) => PutKeeps(s, t, Thread(Push(Finalizer(k, s.threads[t].bestEffort), s.threads[t].stack), true));
    case FinalizerRelease =>
      var stack := s.threads[t].stack;
      PutKeeps(s, t, s.threads[t].(stack := Push(ReleaseWant(stack.top.stream), stack)));
    case FinalizerExit => PutKeeps(s, t, Thread(s.threads[t].stack.below, s.threads[t].stack.top.previous));
    case GiveUp => PutKeeps(s, t, s.threads[t].(stack := s.threads[t].stack.below));
  }

  /* ---------- Taking and leaving the mutex ---------- */

  lemma LockKeeps(s: State, t: Tid)
    requires Inv(s) && Enabled(s, t, Lock)
    ensures Inv(LockStep(s, t))
  {
    assert ThreadInv(s, t);
    var s' := LockStep(s, t);
    OutsideHasNoAction(s.threads[t].stack);
    MoveThreads(s, s', t);
    MoveWoken(s, s', t);
    if s.threads[t].stack.top.AcquireWoken? {
      assert t in Woken(s);
      assert YetToRecheck(s', t);
    } else if Stranded(s') {
      MoveRecheck(s, s', t);
    }
  }

  lemma {:induction false} LeaveIsNotWoken(st: Stack)
    requires WellFormed(st) && st.Push?
    requires st.top.Inside()
    ensures Base(st.below) == Some(AcquireWoken) <==> Base(st) == Some(AcquireWoken)
    ensures st.below.Push? ==> Base(st.below) == Base(st)
  {
  }

  /** A thread leaves the mutex having changed nothing that anybody is waiting for. */
  lemma LeaveKeeps(s: State, t: Tid, a: Action)
    requires Inv(s) && Enabled(s, t, a)
    requires a.ActionEnd? || (a.Section? && match s.threads[t].stack.top {
                                case AcquireCheck(_) => s.core.closed
                                case ReleaseHeld(k) => !Owns(s.core, k)
                                case RetireCheck(k) => !Owns(s.core, k)
                                case _ => false })
    ensures Inv(Apply(s, t, a))
  {
    assert ThreadInv(s, t);
    var s' := Apply(s, t, a);
    var st := s.threads[t].stack;
    OutsideHasNoAction(st.below);
    MoveThreads(s, s', t);
    LeaveIsNotWoken(st);
    MoveWoken(s, s', t);
    if a.ActionEnd? {
      ReplayAppend(s.history, Event.RetireEnd(st.top.serial));
      FreesAppend(s.history, Event.RetireEnd(st.top.serial));
    }
    if Stranded(s') {
      MoveRecheck(s, s', t);
    }
  }

  lemma RetireBeginKeeps(s: State, t: Tid)
    requires Inv(s) && Enabled(s, t, Section)
    requires s.threads[t].stack.top.RetireCheck? && Owns(s.core, s.threads[t].stack.top.submission)
    ensures Inv(Apply(s, t, Section))
  {
    assert ThreadInv(s, t);
    var s' := Apply(s, t, Section);
    var st := s.threads[t].stack;
    OutsideHasNoAction(st.below);
    assert s.mutex == Some(t) && ActionOf(st) == None;
    MoveThreads(s, s', t);
    MoveWoken(s, s', t);
    ReplayAppend(s.history, Event.RetireBegin(st.top.submission.value));
    FreesAppend(s.history, Event.RetireBegin(st.top.submission.value));
  }

  lemma AcquireKeeps(s: State, t: Tid)
    requires Inv(s) && Enabled(s, t, Section)
    requires s.threads[t].stack.top.AcquireCheck? && !s.core.closed
    ensures Inv(Apply(s, t, Section))
  {
    assert ThreadInv(s, t);
    var s' := Apply(s, t, Section);
    var st := s.threads[t].stack;
    assert st.below.Bottom?;
    forall u | u in s'.threads
      ensures ThreadInv(s', u)
    {
      assert ThreadInv(s, u);
    }
    assert Woken(s') == Woken(s);
    if s.core.holder.None? {
      ReplayAppend(s.history, Admit(s.core.nextSerial));
      FreesAppend(s.history, Admit(s.core.nextSerial));
    } else {
      assert t !in s.core.waiters;
      assert Members(s'.core.waiters) == Members(s.core.waiters) + {t};
    }
  }

  /** Who moves when the slot is freed: the releasing thread, and the longest-parked one. */
  lemma FreeEffect(s: State, t: Tid)
    requires Inv(s) && Enabled(s, t, Section)
    requires s.threads[t].stack.top.ReleaseHeld? && Owns(s.core, s.threads[t].stack.top.submission)
    ensures var s' := Apply(s, t, Section);
            && s'.threads.Keys == s.threads.Keys
            && s'.threads[t] == s.threads[t].(stack := s.threads[t].stack.below)
            && forall u :: u in s.threads && u != t ==>
                 s'.threads[u] == if s.core.waiters != [] && u == s.core.waiters[0]
                                  then s.threads[u].(stack := Push(AcquireWoken, Bottom)) else s.threads[u]
    ensures t !in s.core.waiters
    ensures s.core.waiters != [] ==>
        s.core.waiters[0] in s.threads && s.threads[s.core.waiters[0]].stack == Push(AcquireParked, Bottom)
  {
  }

  lemma FreeThread(s: State, t: Tid, u: Tid)
    requires Inv(s) && Enabled(s, t, Section)
    requires s.threads[t].stack.top.ReleaseHeld? && Owns(s.core, s.threads[t].stack.top.submission)
    requires u in s.threads
    ensures u in Apply(s, t, Section).threads && ThreadInv(Apply(s, t, Section), u)
  {
    FreeEffect(s, t);
    assert ThreadInv(s, t) && ThreadInv(s, u);
  }

  lemma FreeThreads(s: State, t: Tid)
    requires Inv(s) && Enabled(s, t, Section)
    requires s.threads[t].stack.top.ReleaseHeld? && Owns(s.core, s.threads[t].stack.top.submission)
    ensures ThreadsInv(Apply(s, t, Section))
  {
    FreeEffect(s, t);
    var s' := Apply(s, t, Section);
    forall u | u in s'.threads
      ensures ThreadInv(s', u)
    {
      FreeThread(s, t, u);
    }
  }

  lemma FreeWakes(s: State, t: Tid)
    requires Inv(s) && Enabled(s, t, Section)
    requires s.threads[t].stack.top.ReleaseHeld? && Owns(s.core, s.threads[t].stack.top.submission)
    ensures s.core.waiters == [] ==> Woken(Apply(s, t, Section)) == Woken(s)
    ensures s.core.waiters != [] ==>
        s.core.waiters[0] !in Woken(s) && Woken(Apply(s, t, Section)) == Woken(s) + {s.core.waiters[0]}
  {
    FreeEffect(s, t);
    assert ThreadInv(s, t);
    var s' := Apply(s, t, Section);
    forall u | u in s.threads
      ensures u in Woken(s') <==> u in Woken(s) || (s.core.waiters != [] && u == s.core.waiters[0])
    {
    }
  }

  lemma FreeHistory(s: State, t: Tid)
    requires Inv(s) && Enabled(s, t, Section)
    requires s.threads[t].stack.top.ReleaseHeld? && Owns(s.core, s.threads[t].stack.top.submission)
    ensures HistoryInv(Apply(s, t, Section))
  {
    assert ThreadInv(s, t);
    OutsideHasNoAction(s.threads[t].stack.below);
    ReplayAppend(s.history, Free(s.threads[t].stack.top.submission.value));
    FreesAppend(s.history, Free(s.threads[t].stack.top.submission.value));
  }

  lemma FreeWaking(s: State, t: Tid)
    requires Inv(s) && Enabled(s, t, Section)
    requires s.threads[t].stack.top.ReleaseHeld? && Owns(s.core, s.threads[t].stack.top.submission)
    ensures WakeInv(Apply(s, t, Section))
  {
    FreeEffect(s, t);
    FreeWakes(s, t);
    var s' := Apply(s, t, Section);
    if Stranded(s') {
      assert YetToRecheck(s', s.core.waiters[0]);
    }
  }

  lemma FreeKeeps(s: State, t: Tid)
    requires Inv(s) && Enabled(s, t, Section)
    requires s.threads[t].stack.top.ReleaseHeld? && Owns(s.core, s.threads[t].stack.top.submission)
    ensures Inv(Apply(s, t, Section))
  {
    FreeThreads(s, t);
    FreeHistory(s, t);
    FreeWaking(s, t);
  }

  lemma {:induction false} DistinctCount(waiters: seq<Tid>)
    requires forall i, j :: 0 <= i < j < |waiters| ==> waiters[i] != waiters[j]
    ensures |Members(waiters)| == |waiters|
  {
    if waiters != [] {
      DistinctCount(waiters[1..]);
      assert Members(waiters) == Members(waiters[1..]) + {waiters[0]};
    }
  }

  /** Who moves when the slot is closed: the closing thread, and everybody parked. */
  lemma CloseEffect(s: State, t: Tid)
    requires Inv(s) && Enabled(s, t, Section)
    requires s.threads[t].stack.top.CloseHeld?
    ensures var s' := Apply(s, t, Section);
            && s'.threads.Keys == s.threads.Keys
            && s'.threads[t] == s.threads[t].(stack := Bottom)
            && forall u :: u in s.threads && u != t ==>
                 s'.threads[u] == if u in s.core.waiters then s.threads[u].(stack := Push(AcquireWoken, Bottom))
                     else s.threads[u]
    ensures s.threads[t].stack == Push(CloseHeld, Bottom) && t !in s.core.waiters
    ensures forall u :: u in s.core.waiters ==> u in s.threads && s.threads[u].stack == Push(AcquireParked, Bottom)
  {
  }

  lemma CloseThreads(s: State, t: Tid)
    requires Inv(s) && Enabled(s, t, Section)
    requires s.threads[t].stack.top.CloseHeld?
    ensures ThreadsInv(Apply(s, t, Section))
  {
  }

  lemma CloseWakes(s: State, t: Tid)
    requires Inv(s) && Enabled(s, t, Section)
    requires s.threads[t].stack.top.CloseHeld?
    ensures Woken(s) !! Members(s.core.waiters)
    ensures Woken(Apply(s, t, Section)) == Woken(s) + Members(s.core.waiters)
  {
    CloseEffect(s, t);
    var s' := Apply(s, t, Section);
    forall u | u in s.threads
      ensures u in Woken(s') <==> u in Woken(s) || u in s.core.waiters
      ensures u in s.core.waiters ==> u !in Woken(s)
    {
    }
  }

  lemma CloseKeeps(s: State, t: Tid)
    requires Inv(s) && Enabled(s, t, Section)
    requires s.threads[t].stack.top.CloseHeld?
    ensures Inv(Apply(s, t, Section))
  {
    CloseThreads(s, t);
    CloseWakes(s, t);
    assert ThreadInv(s, t);
    OutsideHasNoAction(s.threads[t].stack.below);
    DistinctCount(s.core.waiters);
    ReplayAppend(s.history, Shut);
    FreesAppend(s.history, Shut);
  }

  /** Every step of every thread keeps the invariant. */
  lemma StepKeeps(s: State, t: Tid, a: Action)
    requires Inv(s) && Enabled(s, t, a)
    ensures Inv(Apply(s, t, a))
  {
    assert ThreadInv(s, t);
    match a
    case Lock => LockKeeps(s, t);
    case ActionEnd => LeaveKeeps(s, t, a);
    case Section =>
      var f := s.threads[t].stack.top;
      if f.CloseHeld? {
        CloseKeeps(s, t);
      } else if f.AcquireCheck? && !s.core.closed {
        AcquireKeeps(s, t);
      } else if f.ReleaseHeld? && Owns(s.core, f.submission) {
        FreeKeeps(s, t);
      } else if f.RetireCheck? && Owns(s.core, f.submission) {
        RetireBeginKeeps(s, t);
      } else {
        LeaveKeeps(s, t, a);
      }
    case _ => LocalKeeps(s, t, a);
  }

  /* ---------- Every run ---------- */

  ghost predicate Next(s: State, s': State) {
    exists t, a :: Enabled(s, t, a) && Members(s.core.waiters) <= s.threads.Keys && s' == Apply(s, t, a)
  }

  ghost predicate Steps(run: seq<State>) {
    |run| > 0 && forall i :: 0 <= i < |run| - 1 ==> Next(run[i], run[i + 1])
  }

  ghost predicate IsRun(run: seq<State>) {
    Steps(run) && Init(run[0])
  }

  lemma {:induction false} RunKeeps(run: seq<State>, i: nat)
    requires Steps(run) && Inv(run[0]) && i < |run|
    ensures Inv(run[i])
  {
    if i > 0 {
      RunKeeps(run, i - 1);
      assert Next(run[i - 1], run[i - 1 + 1]);
      var t, a :| Enabled(run[i - 1], t, a) && run[i] == Apply(run[i - 1], t, a);
      StepKeeps(run[i - 1], t, a);
    }
  }

  /** No lost wake-up and no wake-up storm, in every state of every run: while the slot is free
      and open with somebody parked, a notified thread has yet to look again; the waiting count
      is the parked plus the notified; nobody is parked in a closed slot; and there were no
      more wake-ups than releases plus the threads a close found parked. */
  lemma NoLostWakeUp(run: seq<State>, i: nat)
    requires IsRun(run) && i < |run|
    ensures Stranded(run[i]) ==> exists t :: YetToRecheck(run[i], t)
    ensures run[i].core.waiting == |Members(run[i].core.waiters)| + |Woken(run[i])|
    ensures run[i].core.closed ==> forall t :: t in run[i].threads ==>
        Base(run[i].threads[t].stack) != Some(AcquireParked)
    ensures run[i].wakes <= Frees(run[i].history) + run[i].parkedAtClose
  {
    InitInv(run[0]);
    RunKeeps(run, i);
    DistinctCount(run[i].core.waiters);
    forall t | t in run[i].threads
      ensures ThreadInv(run[i], t)
    {
    }
    if run[i].core.closed {
      forall t | t in run[i].threads
        ensures Base(run[i].threads[t].stack) != Some(AcquireParked)
      {
        assert ThreadInv(run[i], t);
        if Base(run[i].threads[t].stack) == Some(AcquireParked) {
          ParkedIsAlone(run[i].threads[t].stack);
        }
      }
    }
  }

  /** A parked thread runs nothing, so nothing is stacked on top of it. */
  lemma {:induction false} ParkedIsAlone(st: Stack)
    requires WellFormed(st) && Base(st) == Some(AcquireParked)
    ensures st == Push(AcquireParked, Bottom)
  {
    if st.below.Push? {
      ParkedIsAlone(st.below);
    }
  }

  /** Somebody is parked although the slot could be taken, and nobody has yet to look again. */
  ghost predicate Forgotten(s: State) {
    Stranded(s) && !exists u :: YetToRecheck(s, u)
  }

  /** A notified thread is thrown an exception: once it has the mutex back it leaves the waiting
      count and the slot. */
  function Interrupted(s: State, t: Tid): State
    requires t in s.threads && s.mutex.None?
  {
    Leave(s, t, Bottom).(core := s.core.(waiting := s.core.waiting - 1))
  }

  /** It takes its wake-up with it. The slot is then left with nobody to look again exactly if it
      is free and open, somebody is still parked, and no other notified thread has yet to look. */
  lemma InterruptedWakeUp(s: State, t: Tid)
    requires Inv(s) && s.mutex.None? && t in s.threads && s.threads[t].stack == Push(AcquireWoken, Bottom)
    ensures Forgotten(Interrupted(s, t)) <==> Stranded(s) && forall u :: YetToRecheck(s, u) ==> u == t
  {
    var s' := Interrupted(s, t);
    assert forall u :: YetToRecheck(s', u) <==> YetToRecheck(s, u) && u != t;
  }

  /* ---------- It happens ---------- */

  lemma Extend(run: seq<State>, t: Tid, a: Action) returns (run': seq<State>)
    requires IsRun(run) && Enabled(run[|run| - 1], t, a)
    requires Members(run[|run| - 1].core.waiters) <= run[|run| - 1].threads.Keys
    ensures IsRun(run') && run'[|run'| - 1] == Apply(run[|run| - 1], t, a)
  {
    var next := Apply(run[|run| - 1], t, a);
    run' := run + [next];
    assert Next(run[|run| - 1], next);
    forall k | 0 <= k < |run'| - 1 ensures Next(run'[k], run'[k + 1]) {
      assert k < |run| - 1 ==> Next(run[k], run[k + 1]);
    }
  }

  /** The thread is outside the slot, and so is everybody else. */
  predicate Rests(s: State, t: Tid) {
    && s.mutex.None? && t in s.threads && s.threads[t] == Thread(Bottom, false)
    && Members(s.core.waiters) <= s.threads.Keys
  }

  /** An `acquire` up to where it is admitted, or parked. */
  lemma Acquires(run: seq<State>, t: Tid) returns (run': seq<State>)
    requires IsRun(run) && Rests(run[|run| - 1], t) && !run[|run| - 1].core.closed
    ensures IsRun(run')
    ensures var s, s' := run[|run| - 1], run'[|run'| - 1];
            s' == if s.core.holder.None?
                  then s.(core := AcquirePass(s.core, t).0, history := s.history + [Admit(s.core.nextSerial)])
                  else Put(s, t, Thread(Push(AcquireParked, Bottom), false)).(core := AcquirePass(s.core, t).0)
  {
    run' := Extend(run, t, Start(AcquireWant));
    run' := Extend(run', t, Lock);
    run' := Extend(run', t, Section);
    var s, s' := run[|run| - 1], run'[|run'| - 1];
    assert s.core.holder.None? ==> s'.threads == s.threads;
    assert s.core.holder.Some? ==> s'.threads == s.threads[t := Thread(Push(AcquireParked, Bottom), false)];
  }

  lemma Releases(run: seq<State>, t: Tid, k: Serial) returns (run': seq<State>)
    requires IsRun(run) && Rests(run[|run| - 1], t) && Owns(run[|run| - 1].core, Some(k))
    ensures IsRun(run')
    ensures var s, s' := run[|run| - 1], run'[|run'| - 1];
            && s'.core == ReleaseSection(s.core, Some(k)).0 && s'.mutex == None
            && s'.threads == Wake(s.threads, if s.core.waiters == [] then {} else {s.core.waiters[0]})
  {
    run' := Extend(run, t, Start(ReleaseWant(Some(k))));
    run' := Extend(run', t, Lock);
    run' := Extend(run', t, Section);
  }

  /** A run to a state in which the interruption of a notified waiter leaves another one parked on
      a free, open slot, with nobody to look again. */
  lemma WaiterIsStranded() returns (run: seq<State>, t: Tid)
    ensures IsRun(run) && t in run[|run| - 1].threads && run[|run| - 1].mutex.None?
    ensures run[|run| - 1].threads[t].stack == Push(AcquireWoken, Bottom)
    ensures Forgotten(Interrupted(run[|run| - 1], t))
  {
    var rest := Thread(Bottom, false);
    run := [State(SubmissionSlots.INITIAL, None, map[0 := rest, 1 := rest, 2 := rest], [], 0, 0, 0)];
    run := Acquires(run, 0);
    run := Acquires(run, 1);
    run := Acquires(run, 2);
    assert run[|run| - 1].core == Core(Some(1), false, 2, 2, [1, 2]);
    run := Releases(run, 0, 1);
    t := 1;
  }

  /** What every run's history satisfies: serials grow and no two submissions own the slot
      without a release in between; a release is of a submission that was admitted, and final;
      nothing happens between a retirement's identity check and the end of its action; and a
      closed slot admits nobody. */
  lemma OwnershipHistory(run: seq<State>, n: nat)
    requires IsRun(run) && n < |run|
    ensures var h := run[n].history;
            && (forall i, j :: 0 <= i < j < |h| && h[i].Admit? && h[j].Admit? ==>
                  h[i].serial < h[j].serial && exists k :: i < k < j && h[k] == Free(h[i].serial))
            && (forall j :: 0 <= j < |h| && h[j].Free? ==> exists i :: 0 <= i < j && h[i] == Admit(h[j].serial))
            && (forall i, j :: 0 <= i < j < |h| && h[i].Free? ==>
                  h[j] != Free(h[i].serial) && h[j] != Admit(h[i].serial) && h[j] != Event.RetireBegin(h[i].serial))
            && (forall i :: 0 <= i < |h| - 1 && h[i].RetireBegin? ==> h[i + 1] == Event.RetireEnd(h[i].serial))
            && (forall i, j :: 0 <= i < j < |h| && h[i].Shut? ==> !h[j].Admit?)
    ensures Replay(run[n].history) == Some(Abs(run[n].core.holder, run[n].core.nextSerial, run[n].core.closed,
                                               Retiring(run[n])))
  {
    InitInv(run[0]);
    RunKeeps(run, n);
    var h := run[n].history;
    forall i, j | 0 <= i < j < |h| && h[i].Admit? && h[j].Admit?
      ensures h[i].serial < h[j].serial && exists k :: i < k < j && h[k] == Free(h[i].serial)
    {
      AdmissionsAreSeparated(h, i, j);
    }
    forall j | 0 <= j < |h| && h[j].Free?
      ensures exists i :: 0 <= i < j && h[i] == Admit(h[j].serial)
    {
      FreedWasAdmitted(h, j);
    }
    forall i, j | 0 <= i < j < |h| && h[i].Free?
      ensures h[j] != Free(h[i].serial) && h[j] != Admit(h[i].serial) && h[j] != Event.RetireBegin(h[i].serial)
    {
      FreedIsFinal(h, i, j);
    }
    forall i | 0 <= i < |h| - 1 && h[i].RetireBegin?
      ensures h[i + 1] == Event.RetireEnd(h[i].serial)
    {
      RetirementIsExclusive(h, i);
    }
    forall i, j | 0 <= i < j < |h| && h[i].Shut?
      ensures !h[j].Admit?
    {
      ClosedAdmitsNobody(h, i, j);
    }
  }

  /** While a retirement's action runs its submission owns the slot, whatever every other
      thread and every finalizer does, and no other thread is inside the mutex. */
  lemma RetirementOwnsTheSlot(run: seq<State>, n: nat, t: Tid, k: Serial)
    requires IsRun(run) && n < |run|
    requires t in run[n].threads && ActionOf(run[n].threads[t].stack) == Some(k)
    ensures run[n].core.holder == Some(k) && run[n].mutex == Some(t)
    ensures forall u :: u in run[n].threads && u != t ==> InsideCount(run[n].threads[u].stack) == 0
  {
    InitInv(run[0]);
    RunKeeps(run, n);
    assert ThreadInv(run[n], t);
    if run[n].mutex != Some(t) {
      OutsideHasNoAction(run[n].threads[t].stack);
    }
    var h := run[n].history;
    assert h[..|h|] == h;
    StateBetween(h, |h|, |h|);
    forall u | u in run[n].threads && u != t
      ensures InsideCount(run[n].threads[u].stack) == 0
    {
      assert ThreadInv(run[n], u);
    }
  }

  /* ---------- Finalizers ---------- */

  /** A release inside a finalizer never waits. Either the mutex is free and the two steps of
      the release do to the slot what a blocking release does, or somebody has the mutex --
      possibly this very thread, inside a retirement -- and the release is over at once with
      nothing changed. */
  lemma FinalizerReleaseNeverWaits(s: State, t: Tid)
    requires Inv(s) && t in s.threads
    requires s.threads[t].stack.Push? && s.threads[t].stack.top.ReleaseWant? && s.threads[t].stack.below.Push?
    ensures s.mutex.Some? ==>
              && Enabled(s, t, GiveUp)
              && Apply(s, t, GiveUp) == Put(s, t, Thread(s.threads[t].stack.below, true))
    ensures s.mutex.None? ==>
              && Enabled(s, t, Lock)
              && Enabled(Apply(s, t, Lock), t, Section)
              && Members(Apply(s, t, Lock).core.waiters) <= Apply(s, t, Lock).threads.Keys
              && var after := Apply(Apply(s, t, Lock), t, Section);
                 after.core == ReleaseSection(s.core, s.threads[t].stack.top.submission).0 && after.mutex == None
  {
    assert ThreadInv(s, t);
    AboveIsBestEffort(s.threads[t].stack);
  }

  /** A finalizer leaves the thread's flag as it found it, however deeply finalizers nest and
      however they end: entering from a thread state and leaving again gives that state back. */
  lemma FinalizerRestoresTheFlag(s: State, t: Tid)
    requires Inv(s) && Enabled(s, t, FinalizerExit)
    ensures var below := s.threads[t].stack.below;
            Apply(s, t, FinalizerExit).threads[t] == Thread(below, HasFinalizer(below))
    ensures forall k, before: State :: Inv(before) && Enabled(before, t, Collect(k))
              && before.threads[t].stack == s.threads[t].stack.below
              ==> Apply(s, t, FinalizerExit).threads[t] == before.threads[t]
  {
  }

  /** The instruction the thread inside the mutex can always execute next. */
  function OwnMove(f: Frame): Action {
    match f
    case Finalizer(_, _) => FinalizerExit
    case ReleaseWant(_) => GiveUp
    case RetireAction(_) => ActionEnd
    case _ => Section
  }

  lemma OwnMoveIsEnabled(s: State, t: Tid)
    requires Inv(s) && s.mutex == Some(t) && t in s.threads
    ensures s.threads[t].stack.Push? && Enabled(s, t, OwnMove(s.threads[t].stack.top))
    ensures !s.threads[t].stack.top.Inside() ==> s.threads[t].stack.below.Push?
  {
    assert ThreadInv(s, t);
    var st := s.threads[t].stack;
    if !st.top.Inside() {
      assert InsideCount(st.below) == 1;
      AboveIsBestEffort(st);
    }
  }

  lemma OwnMoveMakesProgress(s: State, t: Tid)
    requires Inv(s) && s.mutex == Some(t) && t in s.threads
    requires Enabled(s, t, OwnMove(s.threads[t].stack.top))
    ensures var st := s.threads[t].stack;
            var s' := Apply(s, t, OwnMove(st.top));
            || s'.mutex == None
            || (s'.mutex == Some(t) && t in s'.threads
                && s'.threads[t].stack
                   == if st.top.RetireCheck? then Push(RetireAction(st.top.submission.value), st.below) else st.below)
  {
  }

  function Measure(st: Stack): nat {
    if st.Bottom? then 0 else (if st.top.RetireCheck? then 2 else 1) + Measure(st.below)
  }

  /** The thread inside the mutex is never the one that waits for it: by its own steps alone,
      through any finalizers stacked on it, it gets out again. */
  lemma {:induction false} OwnerCanAlwaysLeave(s: State, t: Tid) returns (run: seq<State>)
    requires Inv(s) && s.mutex == Some(t) && t in s.threads
    ensures Steps(run) && run[0] == s && run[|run| - 1].mutex == None
    decreases Measure(s.threads[t].stack)
  {
    OwnMoveIsEnabled(s, t);
    OwnMoveMakesProgress(s, t);
    var a := OwnMove(s.threads[t].stack.top);
    var s' := Apply(s, t, a);
    StepKeeps(s, t, a);
    assert Next(s, s');
    if s'.mutex == None {
      run := [s, s'];
    } else {
      var rest := OwnerCanAlwaysLeave(s', t);
      run := [s] + rest;
    }
  }
}
