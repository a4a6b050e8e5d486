/** Every interleaving of any number of threads over one submission slot.

    A thread is a stack of frames. The bottom frame is the slot operation it is in; the
    collector may push a finalizer on top of any running frame -- also one that is inside the
    mutex, also another finalizer -- and a finalizer releases its stream's submission, any
    number of times, in best-effort mode. Taking the mutex, each critical section, and the end
    of a retirement's action are separate steps, so a retirement's action can be interrupted by
    everything that is not excluded by the mutex itself. */
module SlotMachine {
  import opened Prelude
  import opened SubmissionSlots
  import opened SlotHistory

  datatype Frame =
    | AcquireWant
    | AcquireCheck(rechecking: bool)
    | AcquireParked
    | AcquireWoken
    | ReleaseWant(submission: Option<Serial>)
    | ReleaseHeld(submission: Option<Serial>)
    | CloseWant
    | CloseHeld
    | RetireWant(submission: Option<Serial>)
    | RetireCheck(submission: Option<Serial>)
    | RetireAction(serial: Serial)
    | Finalizer(stream: Option<Serial>, previous: bool)
  {
    /** Frames at which the thread has the mutex. */
    predicate Inside() {
      AcquireCheck? || ReleaseHeld? || CloseHeld? || RetireCheck? || RetireAction?
    }

    /** Frames whose next instruction takes the mutex. */
    predicate Wants() {
      AcquireWant? || AcquireWoken? || ReleaseWant? || CloseWant? || RetireWant?
    }

    predicate Starts() {
      AcquireWant? || ReleaseWant? || CloseWant? || RetireWant?
    }
  }

  datatype Stack = Bottom | Push(top: Frame, below: Stack)

  datatype Thread = Thread(stack: Stack, bestEffort: bool)

  datatype State = State(
    core: Core,
    mutex: Option<Tid>,
    threads: map<Tid, Thread>,
    history: seq<Event>,
    wakes: nat,
    frees: nat,
    parkedAtClose: nat)

  datatype Action =
    | Start(frame: Frame)
    | Collect(stream: Option<Serial>)
    | FinalizerRelease
    | FinalizerExit
    | Lock
    | GiveUp
    | Section
    | ActionEnd

  /* ---------- Steps ---------- */

  predicate Enabled(s: State, t: Tid, a: Action) {
    t in s.threads &&
    var thread := s.threads[t];
    match a
    case Start(f) => thread.stack.Bottom? && f.Starts()
    case Collect(_) => thread.stack.Push? ==> !thread.stack.top.AcquireParked?
    case FinalizerRelease => thread.stack.Push? && thread.stack.top.Finalizer?
    case FinalizerExit => thread.stack.Push? && thread.stack.top.Finalizer?
    case Lock => thread.stack.Push? && thread.stack.top.Wants() && s.mutex.None?
    case GiveUp => thread.stack.Push? && thread.stack.top.ReleaseWant? && thread.bestEffort && s.mutex.Some?
    case Section => thread.stack.Push? && thread.stack.top.Inside() && !thread.stack.top.RetireAction?
    case ActionEnd => thread.stack.Push? && thread.stack.top.RetireAction?
  }

  /** The frame a thread is at once it has taken the mutex. */
  function Entered(f: Frame): Frame
    requires f.Wants()
  {
    match f
    case AcquireWant => AcquireCheck(false)
    case AcquireWoken => AcquireCheck(true)
    case ReleaseWant(k) => ReleaseHeld(k)
    case CloseWant => CloseHeld
    case RetireWant(k) => RetireCheck(k)
  }

  function Put(s: State, t: Tid, thread: Thread): State {
    s.(threads := s.threads[t := thread])
  }

  /** Thread `t` with a new stack, out of the mutex. */
  function Leave(s: State, t: Tid, stack: Stack): State
    requires t in s.threads
  {
    Put(s, t, s.threads[t].(stack := stack)).(mutex := None)
  }

  function Wake(threads: map<Tid, Thread>, woken: set<Tid>): map<Tid, Thread>
    requires woken <= threads.Keys
  {
    map t | t in threads :: if t in woken then threads[t].(stack := Push(AcquireWoken, Bottom)) else threads[t]
  }

  function Members(waiters: seq<Tid>): set<Tid> {
    set t | t in waiters
  }

  function AcquireSection(s: State, t: Tid): State
    requires t in s.threads && s.threads[t].stack.Push?
  {
    var (core, pass) := AcquirePass(s.core, t);
    match pass
    case Refused => Leave(s, t, s.threads[t].stack.below)
    case Admitted(k) => Leave(s, t, s.threads[t].stack.below).(core := core, history := s.history + [Admit(k)])
    case Parked => Leave(s, t, Push(AcquireParked, s.threads[t].stack.below)).(core := core)
  }

  function ReleaseStep(s: State, t: Tid, submission: Option<Serial>): State
    requires t in s.threads && s.threads[t].stack.Push?
    requires Members(s.core.waiters) <= s.threads.Keys
  {
    var (core, released) := ReleaseSection(s.core, submission);
    var left := Leave(s, t, s.threads[t].stack.below);
    if !released then left
    else
      var woken := if s.core.waiters == [] then {} else {s.core.waiters[0]};
      left.(core := core, threads := Wake(left.threads, woken), history := s.history + [Free(submission.value)],
            frees := s.frees + 1, wakes := s.wakes + |woken|)
  }

  function CloseStep(s: State, t: Tid): State
    requires t in s.threads && s.threads[t].stack.Push?
    requires Members(s.core.waiters) <= s.threads.Keys
  {
    var left := Leave(s, t, s.threads[t].stack.below);
    var woken := Members(s.core.waiters);
    left.(core := CloseSection(s.core), threads := Wake(left.threads, woken), history := s.history + [Shut],
          wakes := s.wakes + |woken|, parkedAtClose := s.parkedAtClose + |woken|)
  }

  function RetireStep(s: State, t: Tid, submission: Option<Serial>): State
    requires t in s.threads && s.threads[t].stack.Push?
  {
    var below := s.threads[t].stack.below;
    if Owns(s.core, submission) then
      Put(s, t, s.threads[t].(stack := Push(RetireAction(submission.value), below)))
        .(history := s.history + [RetireBegin(submission.value)])
    else Leave(s, t, below)
  }

  function LockStep(s: State, t: Tid): State
    requires t in s.threads && s.threads[t].stack.Push? && s.threads[t].stack.top.Wants()
  {
    var thread := s.threads[t];
    var rewoken := if thread.stack.top.AcquireWoken? then 1 else 0;
    Put(s, t, thread.(stack := Push(Entered(thread.stack.top), thread.stack.below)))
      .(mutex := Some(t), core := s.core.(waiting := s.core.waiting - rewoken))
  }

  function Apply(s: State, t: Tid, a: Action): State
    requires Enabled(s, t, a) && Members(s.core.waiters) <= s.threads.Keys
  {
    var thread := s.threads[t];
    match a
    case Start(f) => Put(s, t, thread.(stack := Push(f, Bottom)))
    case Collect(k) => Put(s, t, Thread(Push(Finalizer(k, thread.bestEffort), thread.stack), true))
    case FinalizerRelease => Put(s, t, thread.(stack := Push(ReleaseWant(thread.stack.top.stream), thread.stack)))
    case FinalizerExit => Put(s, t, Thread(thread.stack.below, thread.stack.top.previous))
    case Lock => LockStep(s, t)
    case GiveUp => Put(s, t, thread.(stack := thread.stack.below))
    case Section =>
      (match thread.stack.top
       case AcquireCheck(_) => AcquireSection(s, t)
       case ReleaseHeld(k) => ReleaseStep(s, t, k)
       case CloseHeld => CloseStep(s, t)
       case RetireCheck(k) => RetireStep(s, t, k)
       case _ => s)
    case ActionEnd =>
      Leave(s, t, thread.stack.below).(history := s.history + [Event.RetireEnd(thread.stack.top.serial)])
  }

  /* ---------- The invariant ---------- */

  predicate HasFinalizer(st: Stack) {
    st.Push? && (st.top.Finalizer? || HasFinalizer(st.below))
  }

  function InsideCount(st: Stack): nat {
    if st.Bottom? then 0 else (if st.top.Inside() then 1 else 0) + InsideCount(st.below)
  }

  /** The retirement whose action this thread is in, if any. */
  function ActionOf(st: Stack): Option<Serial> {
    if st.Bottom? then None else if st.top.RetireAction? then Some(st.top.serial) else ActionOf(st.below)
  }

  /** The slot operation at the bottom of the stack, under any finalizers. */
  function Base(st: Stack): Option<Frame> {
    if st.Bottom? then None else if st.below.Bottom? then Some(st.top) else Base(st.below)
  }

  /** Only a finalizer sits on top of a running frame, only its own releases sit on top of a
      finalizer, and each finalizer remembers whether there was one below it. */
  predicate WellFormed(st: Stack) {
    st.Push? ==>
      && WellFormed(st.below)
      && (st.top.Finalizer? ==> st.top.previous == HasFinalizer(st.below))
      && (st.below.Push? ==>
            || (st.top.Finalizer? && !st.below.top.AcquireParked?)
            || ((st.top.ReleaseWant? || st.top.ReleaseHeld?) && st.below.top.Finalizer?))
  }

  ghost predicate ThreadInv(s: State, t: Tid)
    requires t in s.threads
  {
    var thread := s.threads[t];
    && WellFormed(thread.stack)
    && thread.bestEffort == HasFinalizer(thread.stack)
    && InsideCount(thread.stack) == (if s.mutex == Some(t) then 1 else 0)
    && (t in s.core.waiters <==> thread.stack == Push(AcquireParked, Bottom))
  }

  ghost predicate ThreadsInv(s: State) {
    && (forall t :: t in s.threads ==> ThreadInv(s, t))
    && (s.mutex.Some? ==> s.mutex.value in s.threads)
    && Members(s.core.waiters) <= s.threads.Keys
    && (forall i, j :: 0 <= i < j < |s.core.waiters| ==> s.core.waiters[i] != s.core.waiters[j])
  }

  function Retiring(s: State): Option<Serial> {
    if s.mutex.Some? && s.mutex.value in s.threads then ActionOf(s.threads[s.mutex.value].stack) else None
  }

  ghost predicate HistoryInv(s: State) {
    && Replay(s.history) == Some(Abs(s.core.holder, s.core.nextSerial, s.core.closed, Retiring(s)))
    && s.frees == Frees(s.history)
  }

  /** Threads that were notified and have not taken the mutex back. */
  function Woken(s: State): set<Tid> {
    set t | t in s.threads && Base(s.threads[t].stack) == Some(AcquireWoken)
  }

  /** Threads that were notified and have yet to decide again whether the slot is free. */
  ghost predicate YetToRecheck(s: State, t: Tid) {
    t in s.threads && (Base(s.threads[t].stack) == Some(AcquireWoken)
                       || Base(s.threads[t].stack) == Some(AcquireCheck(true)))
  }

  /** Somebody is parked although the slot could be taken. */
  predicate Stranded(s: State) {
    s.core.holder.None? && !s.core.closed && s.core.waiters != []
  }

  ghost predicate WakeInv(s: State) {
    && s.core.waiting == |s.core.waiters| + |Woken(s)|
    && (s.core.closed ==> s.core.waiters == [])
    && (!s.core.closed ==> s.parkedAtClose == 0)
    && s.wakes <= s.frees + s.parkedAtClose
    && (Stranded(s) ==> exists t :: YetToRecheck(s, t))
  }

  ghost predicate Inv(s: State) {
    ThreadsInv(s) && HistoryInv(s) && WakeInv(s)
  }

  /** Any set of threads, none of them in the slot. */
  ghost predicate Init(s: State) {
    && s.core == SubmissionSlots.INITIAL && s.mutex == None && s.history == []
    && s.wakes == s.frees == s.parkedAtClose == 0
    && forall t :: t in s.threads ==> s.threads[t] == Thread(Bottom, false)
  }

  lemma InitInv(s: State)
    requires Init(s)
    ensures Inv(s)
  {
  }
}
