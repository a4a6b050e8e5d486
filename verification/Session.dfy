/** One solve session against a persistent worker (hornlab_beat_bem/worker.py,
    `BeatSolveSession`): construction that may fail at any instruction, and the unwind and the
    `close` that give everything back. Between any two instructions the rest of the process may
    do anything to the worker that the slot allows it; `Worker.Others` stands for that. */
module Sessions {
  import opened Prelude
  import opened SubmissionSlots

  /** What a session did to the worker it shares, in order. */
  datatype Deed = AskedToCancel | Killed | Freed

  datatype CloseStep = RetireSubmission | CloseEvents | ReleaseSubmission | TerminateProcess | CleanupTempDir

  const CLOSE_STEPS: seq<CloseStep> := [RetireSubmission, CloseEvents, ReleaseSubmission, TerminateProcess,
                                        CleanupTempDir]

  datatype Failure =
    | AtLine(line: Line)
    | NotAdmitted
    | InCallback
    | InStream
    | EndedEarly
    | WhileClosing(step: CloseStep)

  /** How things stood when the five steps began. */
  datatype Plan = Plan(
    mine: bool, stored: bool, condemned: bool, tempDir: bool, deeds: seq<Deed>, steps: seq<CloseStep>)

  /** Where `__init__` can be left by an exception. `OnAdmission` lies inside `submit`, between
      the slot's admission and the `try` that would give it back; `AfterSubmit` between the
      return of `submit` and the first store; `BetweenStores` between storing the submission
      and storing the stream. */
  datatype Line =
    | Project
    | Staging
    | LookUp
    | OnAdmission
    | InSubmit
    | AfterSubmit
    | BetweenStores
    | BeforeFlag
    | AfterFlag
    | Nowhere

  /** The two places where the session owns the worker and has nothing that says so. */
  predicate Unowned(line: Line) {
    line == OnAdmission || line == AfterSubmit
  }

  predicate Early(line: Line) {
    line == Project || line == Staging || line == LookUp
  }

  /** The places at which the submission has been stored. */
  predicate Stored(line: Line) {
    line == BetweenStores || line == BeforeFlag || line == AfterFlag || line == Nowhere
  }

  datatype Kind = Status | Initialized | Failed | Completed | Cancelled | Other

  /** How the events of a job end for the code that reads them. */
  datatype Verdict = Began | CallbackRaised | SolverFailed | OverEarly | StreamOver | Abandoned

  /** `_consume_until_initialized` over what the stream delivers before it ends, when the status
      callback raises on the event at `raiseAt`. */
  function StartVerdict(script: seq<Kind>, raiseAt: int): (v: Verdict)
    ensures !v.Abandoned?
  {
    if script == [] then StreamOver
    else match script[0]
      case Status => if raiseAt == 0 then CallbackRaised else StartVerdict(script[1..], raiseAt - 1)
      case Initialized => Began
      case Failed => SolverFailed
      case Completed => OverEarly
      case Cancelled => OverEarly
      case Other => StartVerdict(script[1..], raiseAt - 1)
  }

  /** `events()` over what the stream delivers, when its consumer takes `patience` events and no
      more, and the status callback raises on the event at `raiseAt`. Status events go to the
      callback and not to the consumer. */
  function JobVerdict(script: seq<Kind>, patience: nat, raiseAt: int): (v: Verdict)
    requires patience > 0
    ensures !v.Began?
  {
    if script == [] then StreamOver
    else match script[0]
      case Status => if raiseAt == 0 then CallbackRaised else JobVerdict(script[1..], patience, raiseAt - 1)
      case Failed => SolverFailed
      case Completed => OverEarly
      case Cancelled => OverEarly
      case _ => if patience == 1 then Abandoned else JobVerdict(script[1..], patience - 1, raiseAt - 1)
  }

  /* ---------- Which event decides ---------- */

  /** How many of the first `n` events the consumer is given. */
  function Yielded(script: seq<Kind>, n: nat): nat
    requires n <= |script|
  {
    if n == 0 then 0 else (if script[0].Status? then 0 else 1) + Yielded(script[1..], n - 1)
  }

  /** The event at `k` ends `events()`: it ends the job, or the callback raises on it, or it is the
      last that the consumer takes. */
  predicate EndsEvents(script: seq<Kind>, k: nat, patience: nat, raiseAt: int)
    requires k < |script|
  {
    match script[k]
    case Status => raiseAt == k
    case Failed => true
    case Completed => true
    case Cancelled => true
    case _ => Yielded(script, k + 1) == patience
  }

  /** ... and it is the first that does. */
  ghost predicate EventsEndAt(script: seq<Kind>, k: nat, patience: nat, raiseAt: int) {
    && k < |script| && EndsEvents(script, k, patience, raiseAt)
    && forall j :: 0 <= j < k ==> !EndsEvents(script, j, patience, raiseAt)
  }

  /** The same for the constructor, which reads up to `Initialized`. */
  predicate EndsStart(script: seq<Kind>, k: nat, raiseAt: int)
    requires k < |script|
  {
    if script[k].Status? then raiseAt == k else !script[k].Other?
  }

  ghost predicate StartEndsAt(script: seq<Kind>, k: nat, raiseAt: int) {
    k < |script| && EndsStart(script, k, raiseAt) && forall j :: 0 <= j < k ==> !EndsStart(script, j, raiseAt)
  }

  /** Some event is the first that ends it, unless none does. */
  lemma {:induction false} SomeEventEnds(script: seq<Kind>, patience: nat, raiseAt: int, k: nat)
    requires k < |script| && EndsEvents(script, k, patience, raiseAt)
    ensures exists j :: EventsEndAt(script, j, patience, raiseAt)
    decreases k
  {
    if !EventsEndAt(script, k, patience, raiseAt) {
      var j :| 0 <= j < k && EndsEvents(script, j, patience, raiseAt);
      SomeEventEnds(script, patience, raiseAt, j);
    }
  }

  lemma {:induction false} SomeEventEndsStart(script: seq<Kind>, raiseAt: int, k: nat)
    requires k < |script| && EndsStart(script, k, raiseAt)
    ensures exists j :: StartEndsAt(script, j, raiseAt)
    decreases k
  {
    if !StartEndsAt(script, k, raiseAt) {
      var j :| 0 <= j < k && EndsStart(script, j, raiseAt);
      SomeEventEndsStart(script, raiseAt, j);
    }
  }

  /** After an event that does not end it, the rest is as from the start. */
  lemma EventsLater(script: seq<Kind>, patience: nat, raiseAt: int, j: nat)
    requires 1 <= j < |script| && patience > 0 && !EndsEvents(script, 0, patience, raiseAt)
    ensures script[0].Status? || patience > 1
    ensures EndsEvents(script[1..], j - 1, if script[0].Status? then patience else patience - 1, raiseAt - 1)
            == EndsEvents(script, j, patience, raiseAt)
  {
    assert Yielded(script, 1) == if script[0].Status? then 0 else 1;
    assert script[1..][j - 1] == script[j];
    assert Yielded(script, j + 1) == (if script[0].Status? then 0 else 1) + Yielded(script[1..], j);
  }

  /** What `events()` comes to by the event that ends it ... */
  lemma {:induction false} JobEndsAt(script: seq<Kind>, k: nat, patience: nat, raiseAt: int)
    requires patience > 0 && EventsEndAt(script, k, patience, raiseAt)
    ensures JobVerdict(script, patience, raiseAt)
            == match script[k]
               case Status => CallbackRaised
               case Failed => SolverFailed
               case Completed => OverEarly
               case Cancelled => OverEarly
               case _ => Abandoned
    decreases k
  {
    assert Yielded(script, 1) == if script[0].Status? then 0 else 1;
    if k > 0 {
      var rest, at, left := script[1..], raiseAt - 1, if script[0].Status? then patience else patience - 1;
      assert !EndsEvents(script, 0, patience, raiseAt);
      EventsLater(script, patience, raiseAt, k);
      forall j | 0 <= j < k - 1 ensures !EndsEvents(rest, j, left, at) {
        EventsLater(script, patience, raiseAt, j + 1);
      }
      JobEndsAt(rest, k - 1, left, at);
    }
  }

  /** ... and by none. */
  lemma {:induction false} JobRunsOut(script: seq<Kind>, patience: nat, raiseAt: int)
    requires patience > 0 && forall k :: 0 <= k < |script| ==> !EndsEvents(script, k, patience, raiseAt)
    ensures JobVerdict(script, patience, raiseAt) == StreamOver
    decreases |script|
  {
    if script != [] {
      assert Yielded(script, 1) == if script[0].Status? then 0 else 1;
      assert !EndsEvents(script, 0, patience, raiseAt);
      var rest, at, left := script[1..], raiseAt - 1, if script[0].Status? then patience else patience - 1;
      forall j | 0 <= j < |rest| ensures !EndsEvents(rest, j, left, at) {
        EventsLater(script, patience, raiseAt, j + 1);
      }
      JobRunsOut(rest, left, at);
    }
  }

  lemma {:induction false} StartsAt(script: seq<Kind>, k: nat, raiseAt: int)
    requires StartEndsAt(script, k, raiseAt)
    ensures StartVerdict(script, raiseAt)
            == match script[k]
               case Status => CallbackRaised
               case Initialized => Began
               case Failed => SolverFailed
               case _ => OverEarly
    decreases k
  {
    if k > 0 {
      var rest, at := script[1..], raiseAt - 1;
      assert !EndsStart(script, 0, raiseAt);
      forall j | 0 <= j < k - 1 ensures !EndsStart(rest, j, at) {
        assert !EndsStart(script, j + 1, raiseAt);
      }
      StartsAt(rest, k - 1, at);
    }
  }

  lemma {:induction false} StartRunsOut(script: seq<Kind>, raiseAt: int)
    requires forall k :: 0 <= k < |script| ==> !EndsStart(script, k, raiseAt)
    ensures StartVerdict(script, raiseAt) == StreamOver
    decreases |script|
  {
    if script != [] {
      var rest, at := script[1..], raiseAt - 1;
      assert !EndsStart(script, 0, raiseAt);
      forall j | 0 <= j < |rest| ensures !EndsStart(rest, j, at) {
        assert !EndsStart(script, j + 1, raiseAt);
      }
      StartRunsOut(rest, at);
    }
  }

  lemma JobEnds(script: seq<Kind>, patience: nat, raiseAt: int)
    requires patience > 0
    ensures forall k: nat :: EventsEndAt(script, k, patience, raiseAt) ==>
              JobVerdict(script, patience, raiseAt)
              == match script[k]
                 case Status => CallbackRaised
                 case Failed => SolverFailed
                 case Completed => OverEarly
                 case Cancelled => OverEarly
                 case _ => Abandoned
    ensures (forall k: nat :: !EventsEndAt(script, k, patience, raiseAt)) ==>
              JobVerdict(script, patience, raiseAt) == StreamOver
  {
    forall k: nat | EventsEndAt(script, k, patience, raiseAt)
      ensures JobVerdict(script, patience, raiseAt) == match script[k]
                                                       case Status => CallbackRaised
                                                       case Failed => SolverFailed
                                                       case Completed => OverEarly
                                                       case Cancelled => OverEarly
                                                       case _ => Abandoned
    {
      JobEndsAt(script, k, patience, raiseAt);
    }
    if forall k: nat :: !EventsEndAt(script, k, patience, raiseAt) {
      forall k | 0 <= k < |script| ensures !EndsEvents(script, k, patience, raiseAt) {
        if EndsEvents(script, k, patience, raiseAt) {
          SomeEventEnds(script, patience, raiseAt, k);
        }
      }
      JobRunsOut(script, patience, raiseAt);
    }
  }

  lemma StartEnds(script: seq<Kind>, raiseAt: int)
    ensures forall k: nat :: StartEndsAt(script, k, raiseAt) ==>
              StartVerdict(script, raiseAt)
              == match script[k]
                 case Status => CallbackRaised
                 case Initialized => Began
                 case Failed => SolverFailed
                 case _ => OverEarly
    ensures (forall k: nat :: !StartEndsAt(script, k, raiseAt)) ==> StartVerdict(script, raiseAt) == StreamOver
  {
    forall k: nat | StartEndsAt(script, k, raiseAt)
      ensures StartVerdict(script, raiseAt) == match script[k]
                                               case Status => CallbackRaised
                                               case Initialized => Began
                                               case Failed => SolverFailed
                                               case _ => OverEarly
    {
      StartsAt(script, k, raiseAt);
    }
    if forall k: nat :: !StartEndsAt(script, k, raiseAt) {
      forall k | 0 <= k < |script| ensures !EndsStart(script, k, raiseAt) {
        if EndsStart(script, k, raiseAt) {
          SomeEventEndsStart(script, raiseAt, k);
        }
      }
      StartRunsOut(script, raiseAt);
    }
  }

  /** What the end of a submitted job makes the session do to the worker, in this order. A job
      left running is cancelled and its runtime killed before the slot is freed; a failed one is
      not cancelled but its runtime is killed; a finished one leaves the runtime warm; and a
      stream that ended by itself had freed the slot already, so nothing is killed. */
  function EndingDeeds(v: Verdict): seq<Deed> {
    match v
    case Began => []
    case CallbackRaised => [AskedToCancel, Killed, Freed]
    case Abandoned => [AskedToCancel, Killed, Freed]
    case SolverFailed => [Killed, Freed]
    case OverEarly => [Freed]
    case StreamOver => [Freed, AskedToCancel]
  }

  function StartOutcome(v: Verdict): Outcome<Failure> {
    match v
    case CallbackRaised => Raised(InCallback)
    case SolverFailed => Raised(InStream)
    case OverEarly => Raised(EndedEarly)
    case StreamOver => Raised(EndedEarly)
    case _ => Done
  }

  function JobOutcome(v: Verdict): Outcome<Failure> {
    match v
    case CallbackRaised => Raised(InCallback)
    case SolverFailed => Raised(InStream)
    case StreamOver => Raised(EndedEarly)
    case _ => Done
  }

  /** Whether a step of the unwind raises. Only a kill that takes place, a stream that is there
      and a directory that is there can fail. */
  predicate Raises(step: CloseStep, faults: set<CloseStep>, kills: bool, streamed: bool, tempDir: bool) {
    && step in faults
    && match step
       case RetireSubmission => kills
       case CloseEvents => streamed
       case ReleaseSubmission => false
       case TerminateProcess => true
       case CleanupTempDir => tempDir
  }

  /** The steps from `first` on that raise, in order. */
  function Failing(first: nat, faults: set<CloseStep>, kills: bool, streamed: bool, tempDir: bool): seq<CloseStep>
    decreases 5 - first
  {
    if first >= 5 then []
    else
      var rest := Failing(first + 1, faults, kills, streamed, tempDir);
      if Raises(CLOSE_STEPS[first], faults, kills, streamed, tempDir) then [CLOSE_STEPS[first]] + rest else rest
  }

  function Closing(failing: seq<CloseStep>): Outcome<Failure> {
    if failing == [] then Done else Raised(WhileClosing(failing[0]))
  }

  /** It is a failure exactly if some step raises, and then it is the first of them. */
  lemma {:induction false} FirstFailure(
    first: nat, faults: set<CloseStep>, kills: bool, streamed: bool, tempDir: bool, k: nat)
    requires first <= k < 5
    requires forall j :: first <= j < k ==> !Raises(CLOSE_STEPS[j], faults, kills, streamed, tempDir)
    requires Raises(CLOSE_STEPS[k], faults, kills, streamed, tempDir)
    ensures Closing(Failing(first, faults, kills, streamed, tempDir)) == Raised(WhileClosing(CLOSE_STEPS[k]))
    decreases k - first
  {
    if first < k {
      FirstFailure(first + 1, faults, kills, streamed, tempDir, k);
    }
  }

  lemma {:induction false} NoFailure(first: nat, faults: set<CloseStep>, kills: bool, streamed: bool, tempDir: bool)
    requires first <= 5
    ensures Failing(first, faults, kills, streamed, tempDir) == []
            <==> forall j :: first <= j < 5 ==> !Raises(CLOSE_STEPS[j], faults, kills, streamed, tempDir)
    decreases 5 - first
  {
    if first < 5 {
      NoFailure(first + 1, faults, kills, streamed, tempDir);
    }
  }

  /** So the retirement's failure comes first if the runtime is this session's to kill, then the
      stream's if there is one, then the process's, whatever it is, then the directory's; releasing
      the submission never fails. */
  lemma WhatIsRaised(faults: set<CloseStep>, kills: bool, streamed: bool, tempDir: bool)
    ensures Closing(Failing(0, faults, kills, streamed, tempDir))
            == if RetireSubmission in faults && kills then Raised(WhileClosing(RetireSubmission))
               else if CloseEvents in faults && streamed then Raised(WhileClosing(CloseEvents))
               else if TerminateProcess in faults then Raised(WhileClosing(TerminateProcess))
               else if CleanupTempDir in faults && tempDir then Raised(WhileClosing(CleanupTempDir))
               else Done
  {
    if RetireSubmission in faults && kills {
      FirstFailure(0, faults, kills, streamed, tempDir, 0);
    } else if CloseEvents in faults && streamed {
      FirstFailure(0, faults, kills, streamed, tempDir, 1);
    } else if TerminateProcess in faults {
      FirstFailure(0, faults, kills, streamed, tempDir, 3);
    } else if CleanupTempDir in faults && tempDir {
      FirstFailure(0, faults, kills, streamed, tempDir, 4);
    } else {
      NoFailure(0, faults, kills, streamed, tempDir);
    }
  }

  class Worker {
    const slot: SubmissionSlot
    /** The runtime, as the worker knows it. */
    var process: Option<nat>

    constructor ()
      ensures fresh(this) && fresh(slot) && slot.View() == SubmissionSlots.INITIAL && slot.mutex == None
    {
      slot := new SubmissionSlot();
      process := None;
    }

    /** No holder was never issued. */
    ghost predicate Sound()
      reads this, slot
    {
      slot.holder.Some? ==> slot.holder.value < slot.nextSerial
    }

    /** ... and nobody is inside the slot's mutex. */
    ghost predicate Valid()
      reads this, slot
    {
      Sound() && slot.mutex == None
    }

    /** Submission `k` was issued by this worker's slot. */
    ghost predicate Issued(k: Serial)
      reads this, slot
    {
      k < slot.nextSerial
    }

    /** Any number of steps of other threads: they acquire, release what is not `mine`, close the
        slot, and start, lose or terminate the runtime. */
    method Others(mine: Option<Serial>)
      requires Valid() && (mine.Some? ==> Issued(mine.value))
      modifies this, slot
      ensures Valid() && (mine.Some? ==> Issued(mine.value))
      ensures mine.Some? ==> (slot.holder == mine <==> old(slot.holder) == mine)
    {
      var n: nat := *;
      while n > 0
        invariant Valid() && (mine.Some? ==> Issued(mine.value))
        invariant mine.Some? ==> (slot.holder == mine <==> old(slot.holder) == mine)
      {
        var other: Tid, what: nat := *, *;
        if what == 0 {
          var pass := slot.Acquire(other);
        } else if what == 1 && slot.holder != mine {
          var released := slot.Release(other, slot.holder);
        } else if what == 2 {
          slot.Close(other);
        } else {
          process := *;
        }
        n := n - 1;
      }
    }

    /** `retire`: the kill runs inside the slot, for its holder only; it may raise after the
        worker has forgotten the runtime. */
    method Retire(t: Tid, submission: Option<Serial>, fails: bool) returns (acted: bool, raised: bool)
      requires Valid()
      modifies this`process, slot`mutex
      ensures Valid() && slot.View() == old(slot.View())
      ensures acted == Owns(slot.View(), submission)
      ensures raised == (acted && fails)
      ensures process == if acted then None else old(process)
    {
      acted := slot.BeginRetire(t, submission);
      raised := false;
      if acted {
        process := None;
        raised := fails;
        slot.EndRetire(t);
      }
    }

    method ReleaseSubmission(t: Tid, submission: Option<Serial>) returns (released: bool)
      requires Valid()
      modifies slot
      ensures Valid() && slot.nextSerial == old(slot.nextSerial) && process == old(process)
      ensures released == Owns(old(slot.View()), submission)
      ensures slot.holder == if released then None else old(slot.holder)
    {
      released := slot.Release(t, submission);
    }
  }

  class BeatSolveSession {
    const worker: Worker
    const thread: Tid

    var workerKnown: bool
    var submission: Option<Serial>
    /** The stream over the session's events carries the submission it releases when closed. */
    var events: Option<Serial>
    var submitted: bool
    var finished: bool
    var retireWorker: bool
    var closed: bool
    var tempDir: bool

    /** The submission `submit` issued to this session, whatever became of it. */
    var issued: Option<Serial>
    ghost var deeds: seq<Deed>
    ghost var steps: seq<CloseStep>

    ghost predicate Sound()
      reads this, worker, worker.slot
    {
      && worker.Sound()
      && (issued.Some? ==> worker.Issued(issued.value))
      && (submission.Some? ==> submission == issued && workerKnown)
      && (events.Some? ==> events == issued)
      && (Mine() ==> workerKnown)
    }

    ghost predicate Valid()
      reads this, worker, worker.slot
    {
      Sound() && worker.Valid()
    }

    /** This session's submission owns the worker. */
    ghost predicate Mine()
      reads this, worker, worker.slot
    {
      issued.Some? && worker.slot.holder == issued
    }

    constructor (w: Worker, t: Tid)
      requires w.Valid()
      ensures Valid() && worker == w && thread == t
      ensures !workerKnown && submission == None && events == None && issued == None
      ensures !submitted && !finished && !retireWorker && !closed && !tempDir && deeds == [] && steps == []
    {
      worker, thread := w, t;
      workerKnown, submitted, finished, retireWorker, closed, tempDir := false, false, false, false, false, false;
      submission, events, issued := None, None, None;
      deeds, steps := [], [];
    }

    method Others()
      requires Valid()
      modifies worker, worker.slot
      ensures Valid() && Mine() == old(Mine())
    {
      worker.Others(issued);
    }

    /** `request_cancel`: a flag file in the job directory, whose write errors are swallowed. */
    method RequestCancel()
      requires Valid()
      modifies this`deeds
      ensures Valid() && deeds == old(deeds) + [AskedToCancel]
    {
      deeds := deeds + [AskedToCancel];
    }

    /** Give the slot back if this session still has it. */
    method GiveBack(given: Option<Serial>)
      requires Valid() && (given.Some? ==> given == issued)
      modifies this`deeds, worker.slot
      ensures Valid() && worker.process == old(worker.process)
      ensures deeds == old(deeds) + if old(Mine()) && given.Some? then [Freed] else []
      ensures Mine() == (old(Mine()) && given.None?)
    {
      var released := worker.ReleaseSubmission(thread, given);
      if released {
        deeds := deeds + [Freed];
      }
    }

    /* ---------- The five steps of `close` ---------- */

    method StepRetire(fails: bool) returns (raised: bool)
      requires Valid()
      modifies this`retireWorker, this`deeds, worker`process, worker.slot`mutex
      ensures Valid() && Mine() == old(Mine()) && !retireWorker
      ensures deeds == old(deeds) + if old(retireWorker) && old(Mine()) && submission.Some? then [Killed] else []
      ensures raised <==> fails && old(retireWorker) && old(Mine()) && submission.Some?
    {
      raised := false;
      if !retireWorker {
        return;
      }
      retireWorker := false;
      if !workerKnown {
        return;
      }
      var acted;
      acted, raised := worker.Retire(thread, submission, fails);
      if acted {
        deeds := deeds + [Killed];
      }
    }

    /** Closing the stream releases its submission even when closing its generator raises. */
    method StepCloseEvents(stream: Option<Serial>, fails: bool) returns (raised: bool)
      requires Valid() && (stream.Some? ==> stream == issued)
      modifies this`deeds, worker.slot
      ensures Valid() && Mine() == (old(Mine()) && stream.None?)
      ensures deeds == old(deeds) + if old(Mine()) && stream.Some? then [Freed] else []
      ensures raised <==> fails && stream.Some?
    {
      raised := false;
      if stream.None? {
        return;
      }
      GiveBack(stream);
      raised := fails;
    }

    method StepRelease()
      requires Valid()
      modifies this`submission, this`deeds, worker.slot
      ensures Valid() && submission == None
      ensures Mine() == (old(Mine()) && old(submission).None?)
      ensures deeds == old(deeds) + if old(Mine()) && old(submission).Some? then [Freed] else []
    {
      var given := submission;
      submission := None;
      if workerKnown {
        GiveBack(given);
      }
    }

    method StepCleanup(fails: bool) returns (raised: bool)
      requires Valid()
      modifies this`tempDir
      ensures Valid() && Mine() == old(Mine()) && !tempDir && (raised <==> fails && old(tempDir))
    {
      raised := tempDir && fails;
      tempDir := false;
    }

    /** What the steps have done so far to a worker that was, or was not, this session's. */
    static ghost function DeedsAfter(done: nat, p: Plan, streamed: bool): seq<Deed> {
      (if done >= 1 && Kills(p) then [Killed] else [])
      + (if p.mine && !Keeps(done, p, streamed) then [Freed] else [])
    }

    static lemma OneMoreStep(done: nat, before: seq<CloseStep>)
      requires done < 5
      ensures before + CLOSE_STEPS[..done + 1] == before + CLOSE_STEPS[..done] + [CLOSE_STEPS[done]]
    {
    }

    static lemma OneMoreDeed(done: nat, p: Plan, streamed: bool)
      requires done < 5
      ensures p.deeds + DeedsAfter(done + 1, p, streamed)
              == p.deeds + DeedsAfter(done, p, streamed) + (if done == 0 && Kills(p) then [Killed] else [])
                 + (if p.mine && Keeps(done, p, streamed) && !Keeps(done + 1, p, streamed) then [Freed] else [])
    {
    }

    /** The retirement is this session's to make. */
    static ghost predicate Kills(p: Plan) {
      p.mine && p.stored && p.condemned
    }

    /** Nothing has given the slot back yet: no stream was closed and no submission released. */
    static ghost predicate Keeps(done: nat, p: Plan, streamed: bool) {
      !(done >= 2 && streamed) && !(done >= 3 && p.stored)
    }

    /** `done` of the five steps have run since things stood as `p` says. */
    ghost predicate Progress(done: nat, stream: Option<Serial>, p: Plan)
      reads this, worker, worker.slot
    {
      && done <= 5
      && Valid()
      && (stream.Some? ==> stream == issued)
      && retireWorker == (done == 0 && p.condemned)
      && submission.Some? == (done < 3 && p.stored)
      && tempDir == (done < 5 && p.tempDir)
      && Mine() == (p.mine && Keeps(done, p, stream.Some?))
      && steps == p.steps + CLOSE_STEPS[..done]
      && deeds == p.deeds + DeedsAfter(done, p, stream.Some?)
    }

    lemma Begins()
      requires Valid()
      ensures Progress(0, events, Now())
    {
    }

    /** All five have run, and the stream is no longer in the session. */
    ghost predicate Gone(stream: Option<Serial>, p: Plan)
      reads this, worker, worker.slot
    {
      && submission == None && events == None && !tempDir
      && steps == p.steps + CLOSE_STEPS
      && Mine() == (p.mine && stream.None? && !p.stored)
      && deeds == p.deeds + (if Kills(p) then [Killed] else []) + if p.mine && !Mine() then [Freed] else []
    }

    lemma AllDone(stream: Option<Serial>, p: Plan)
      requires Progress(5, stream, p) && events == None
      ensures Gone(stream, p)
    {
      assert CLOSE_STEPS[..5] == CLOSE_STEPS;
    }

    ghost function Now(): Plan
      reads this, worker, worker.slot
    {
      Plan(Mine(), submission.Some?, retireWorker, tempDir, deeds, steps)
    }

    method Perform(step: CloseStep, stream: Option<Serial>, fails: bool) returns (raised: bool)
      requires Valid() && (stream.Some? ==> stream == issued)
      modifies this`retireWorker, this`submission, this`tempDir, this`deeds, worker`process, worker.slot
      ensures Valid()
      ensures retireWorker == (old(retireWorker) && step != RetireSubmission)
      ensures submission == if step == ReleaseSubmission then None else old(submission)
      ensures tempDir == (old(tempDir) && step != CleanupTempDir)
      ensures Mine() == (old(Mine()) && (step == CloseEvents ==> stream.None?)
                         && (step == ReleaseSubmission ==> old(submission).None?))
      ensures var kills := old(retireWorker) && old(Mine()) && old(submission).Some?;
              && deeds == old(deeds) + (if step == RetireSubmission && kills then [Killed] else [])
                          + (if old(Mine()) && !Mine() then [Freed] else [])
              && (raised <==> fails && Raises(step, {step}, kills, stream.Some?, old(tempDir)))
    {
      match step {
        case RetireSubmission => raised := StepRetire(fails);
        case CloseEvents => raised := StepCloseEvents(stream, fails);
        case ReleaseSubmission => StepRelease(); raised := false;
        case TerminateProcess => raised := fails;
        case CleanupTempDir => raised := StepCleanup(fails);
      }
    }

    method RunStep(stream: Option<Serial>, faults: set<CloseStep>, done: nat, ghost p: Plan) returns (raised: bool)
      requires done < 5 && Progress(done, stream, p)
      modifies this, worker, worker.slot
      ensures Progress(done + 1, stream, p)
      ensures raised <==> Raises(CLOSE_STEPS[done], faults, Kills(p), stream.Some?, p.tempDir)
      ensures finished == old(finished) && closed == old(closed) && issued == old(issued) && events == old(events)
    {
      var step := CLOSE_STEPS[done];
      OneMoreStep(done, p.steps);
      OneMoreDeed(done, p, stream.Some?);
      steps := steps + [step];
      raised := Perform(step, stream, step in faults);
      Pause(stream, done + 1, p);
    }

    /** What others do between two steps does not matter to them. */
    method Pause(stream: Option<Serial>, done: nat, ghost p: Plan)
      requires Progress(done, stream, p)
      modifies worker, worker.slot
      ensures Progress(done, stream, p)
    {
      Others();
    }

    /** The steps from `first` on, in order, each run whatever the earlier ones raised. */
    method RunSteps(first: nat, stream: Option<Serial>, faults: set<CloseStep>, ghost p: Plan)
      returns (r: Outcome<Failure>)
      requires Progress(first, stream, p)
      modifies this, worker, worker.slot
      ensures Progress(5, stream, p)
      ensures r == Closing(Failing(first, faults, Kills(p), stream.Some?, p.tempDir))
      ensures finished == old(finished) && closed == old(closed) && issued == old(issued) && events == old(events)
    {
      r := Done;
      for done := first to 5
        invariant Progress(done, stream, p)
        invariant Closing(Failing(first, faults, Kills(p), stream.Some?, p.tempDir))
                  == if r.Raised? then r else Closing(Failing(done, faults, Kills(p), stream.Some?, p.tempDir))
        invariant finished == old(finished) && closed == old(closed) && issued == old(issued) && events == old(events)
      {
        var raised := RunStep(stream, faults, done, p);
        if raised && r.Done? {
          r := Raised(WhileClosing(CLOSE_STEPS[done]));
        }
      }
    }

    /** `close`. The first call asks an unfinished job to cancel, runs the five steps in order
        whichever of them raise, raises the first failure, kills the runtime -- if it condemned
        it and still owned the worker -- before it frees the slot, and gives the slot back if it
        has anything to give it back with; a second call does nothing. */
    method Close(faults: set<CloseStep>) returns (r: Outcome<Failure>)
      requires Valid()
      modifies this, worker, worker.slot
      ensures Valid() && closed
      ensures old(closed) ==>
                r == Done && steps == old(steps) && deeds == old(deeds) && Mine() == old(Mine())
                && submission == old(submission) && events == old(events) && tempDir == old(tempDir)
      ensures !old(closed) ==>
                && steps == old(steps) + CLOSE_STEPS && submission == None && events == None && !tempDir
                && Mine() == (old(Mine()) && old(submission).None? && old(events).None?)
      ensures !old(closed) ==>
                var kills := old(Mine()) && old(submission).Some? && (old(retireWorker) || !old(finished));
                && deeds == old(deeds) + (if old(finished) then [] else [AskedToCancel])
                            + (if kills then [Killed] else []) + (if old(Mine()) && !Mine() then [Freed] else [])
                && r == Closing(Failing(0, faults, kills, old(events).Some?, old(tempDir)))
    {
      if closed {
        Others();
        return Done;
      }
      closed := true;
      if !finished {
        RequestCancel();
        retireWorker := true;
      }
      Begins();
      r := CloseAll(faults, Now());
    }

    /** The five steps, with the stream taken out of the session first. */
    method CloseAll(faults: set<CloseStep>, ghost p: Plan) returns (r: Outcome<Failure>)
      requires Progress(0, events, p)
      modifies this, worker, worker.slot
      ensures Valid() && Gone(old(events), p)
      ensures r == Closing(Failing(0, faults, Kills(p), old(events).Some?, p.tempDir))
      ensures finished == old(finished) && closed == old(closed) && issued == old(issued)
    {
      var stream := events;
      events := None;
      r := RunSteps(0, stream, faults, p);
      AllDone(stream, p);
    }

    /** `_abort_start`: the unwind of a constructor that failed. Nothing it does can raise. It
        leaves the slot with this session exactly if it had it and had stored neither its
        submission nor its stream; then it has also cancelled nothing and killed nothing. */
    method AbortStart(faults: set<CloseStep>)
      requires Valid()
      modifies this, worker, worker.slot
      ensures Valid() && closed && submission == None && events == None && !tempDir
      ensures finished == old(finished) && issued == old(issued)
      ensures steps == old(steps) + CLOSE_STEPS
      ensures Mine() == (old(Mine()) && old(submission).None? && old(events).None?)
      ensures var cancel := (old(submitted) || old(submission).Some?) && !old(finished);
              var kills := old(Mine()) && old(submission).Some? && (old(retireWorker) || cancel);
              deeds == old(deeds) + (if cancel then [AskedToCancel] else [])
                       + (if kills then [Killed] else []) + (if old(Mine()) && !Mine() then [Freed] else [])
    {
      closed := true;
      if (submitted || submission.Some?) && !finished {
        RequestCancel();
        retireWorker := true;
      }
      Begins();
      Unwind(faults, Now());
    }

    /** The five steps, with the stream taken out of the session after the first. */
    method Unwind(faults: set<CloseStep>, ghost p: Plan)
      requires Progress(0, events, p)
      modifies this, worker, worker.slot
      ensures Valid() && Gone(old(events), p)
      ensures finished == old(finished) && closed == old(closed) && issued == old(issued)
    {
      var stream := events;
      var suppressed := RunStep(stream, faults, 0, p);
      events := None;
      var alsoSuppressed := RunSteps(1, stream, faults, p);
      AllDone(stream, p);
    }

    /** The stream's generator comes to its end and, in its `finally`, frees the slot. */
    method StreamEnds()
      requires Valid() && events.Some?
      modifies this`deeds, worker.slot
      ensures Valid() && !Mine()
      ensures deeds == old(deeds) + if old(Mine()) then [Freed] else []
    {
      GiveBack(events);
    }

    method ConsumeUntilInitialized(script: seq<Kind>, raiseAt: int) returns (r: Outcome<Failure>)
      requires Valid() && Mine() && events.Some? && submission == events && !finished && !retireWorker
      modifies this`finished, this`retireWorker, this`deeds, worker, worker.slot
      ensures Valid()
      ensures var v := StartVerdict(script, raiseAt);
              && r == StartOutcome(v)
              && (Mine() <==> !v.StreamOver?)
              && (finished <==> v.SolverFailed? || v.OverEarly?)
              && (retireWorker <==> v.SolverFailed?)
              && deeds == old(deeds) + if v.StreamOver? then [Freed] else []
      ensures forall k: nat :: StartEndsAt(script, k, raiseAt) ==>
                && r == (match script[k]
                         case Status => Raised(InCallback)
                         case Initialized => Done
                         case Failed => Raised(InStream)
                         case _ => Raised(EndedEarly))
                && Mine() && (retireWorker <==> script[k].Failed?)
                && (finished <==> script[k].Failed? || script[k].Completed? || script[k].Cancelled?)
      ensures (forall k: nat :: !StartEndsAt(script, k, raiseAt)) ==>
                r == Raised(EndedEarly) && !Mine() && !finished && !retireWorker
    {
      StartEnds(script, raiseAt);
      for k := 0 to |script|
        invariant Valid() && Mine() && !finished && !retireWorker && deeds == old(deeds)
        invariant StartVerdict(script, raiseAt) == StartVerdict(script[k..], raiseAt - k)
      {
        Others();
        assert script[k..][1..] == script[k + 1..];
        match script[k] {
          case Status => if raiseAt == k { return Raised(InCallback); }
          case Initialized => return Done;
          case Failed =>
            finished := true;
            retireWorker := true;
            return Raised(InStream);
          case Completed =>
            finished := true;
            return Raised(EndedEarly);
          case Cancelled =>
            finished := true;
            return Raised(EndedEarly);
          case Other =>
        }
      }
      StreamEnds();
      r := Raised(EndedEarly);
    }

    /** `submit`: takes the slot, waiting as long as `patience` lasts, and gives it back itself
        if anything after that raises -- except for an exception `OnAdmission`, which finds
        nobody to give it back. */
    method Submit(line: Line, patience: nat) returns (r: Outcome<Failure>)
      requires Valid() && issued == None && workerKnown
      modifies this`issued, this`deeds, worker, worker.slot
      ensures Valid()
      ensures issued.None? ==> r == Raised(NotAdmitted) && deeds == old(deeds)
      ensures issued.Some? ==>
                && r == (if line == OnAdmission || line == InSubmit then Raised(AtLine(line)) else Done)
                && (Mine() <==> line != InSubmit)
                && deeds == old(deeds) + if line == InSubmit then [Freed] else []
    {
      Others();
      var pass := worker.slot.Acquire(thread);
      var left := patience;
      while pass.Parked? && left > 0
        invariant Valid() && issued == None && deeds == old(deeds)
        invariant pass.Admitted? ==> worker.Issued(pass.serial) && worker.slot.holder == Some(pass.serial)
      {
        Others();
        worker.slot.Rewake(thread);
        pass := worker.slot.Acquire(thread);
        left := left - 1;
      }
      if !pass.Admitted? {
        return Raised(NotAdmitted);
      }
      issued := Some(pass.serial);
      Others();
      if line == OnAdmission {
        return Raised(AtLine(line));
      }
      if line == InSubmit {
        GiveBack(issued);
        return Raised(AtLine(line));
      }
      r := Done;
    }

    /** The lines of `__init__` from the first store on. */
    method StoreAndBegin(line: Line, script: seq<Kind>, raiseAt: int) returns (r: Outcome<Failure>)
      requires Valid() && Mine() && workerKnown && submission == None && events == None
      requires !submitted && !finished && !retireWorker && deeds == [] && Stored(line)
      modifies this`submission, this`events, this`submitted, this`finished, this`retireWorker, this`deeds
      modifies worker, worker.slot
      ensures Valid() && submission == issued
      ensures line != Nowhere ==> r == Raised(AtLine(line)) && Mine() && !finished && !retireWorker && deeds == []
      ensures line == Nowhere ==>
          r == StartOutcome(StartVerdict(script, raiseAt)) && HasRead(StartVerdict(script, raiseAt))
    {
      submission := issued;
      Others();
      if line == BetweenStores {
        return Raised(AtLine(line));
      }
      events := issued;
      Others();
      if line == BeforeFlag {
        return Raised(AtLine(line));
      }
      submitted := true;
      Others();
      if line == AfterFlag {
        return Raised(AtLine(line));
      }
      r := ConsumeUntilInitialized(script, raiseAt);
    }

    /** What the first decisive event of a submitted job leaves behind. */
    ghost predicate HasRead(v: Verdict)
      reads this, worker, worker.slot
    {
      && submitted && events == issued
      && (Mine() <==> !v.StreamOver?)
      && (finished <==> v.SolverFailed? || v.OverEarly?)
      && (retireWorker <==> v.SolverFailed?)
      && deeds == if v.StreamOver? then [Freed] else []
    }

    /** A session that `__init__` has just been entered for. */
    ghost predicate Blank()
      reads this
    {
      && !workerKnown && submission == None && events == None && issued == None
      && !submitted && !finished && !retireWorker && !closed && deeds == []
    }

    /** What is stored, held and done where the constructor's body is left, once it has got as far
        as being admitted. */
    ghost predicate LeftAt(line: Line, v: Verdict, r: Outcome<Failure>)
      reads this, worker, worker.slot
    {
      && (submission.Some? <==> Stored(line))
      && (submission.Some? ==> submission == issued)
      && (line != Nowhere ==> r == Raised(AtLine(line)) && !finished && !retireWorker)
      && (submission.None? ==>
            && events == None && !submitted && (Unowned(line) || line == InSubmit) && (Mine() <==> Unowned(line))
            && deeds == if line == InSubmit then [Freed] else [])
      && (submission.Some? && line != Nowhere ==> Mine() && deeds == [])
      && (line == Nowhere ==> r == StartOutcome(v) && HasRead(v))
    }

    /** Nothing of the worker was taken or stored. */
    ghost predicate Untouched()
      reads this
    {
      && issued == None && submission == None && events == None && !submitted && !finished && !retireWorker
      && deeds == []
    }

    /** The body of `__init__`, left by an exception at `line` or while the first events are
        read. */
    method TryStart(line: Line, patience: nat, script: seq<Kind>, raiseAt: int) returns (r: Outcome<Failure>)
      requires Valid() && Blank()
      modifies this, worker, worker.slot
      ensures Valid() && !closed && steps == old(steps)
      ensures issued.None? ==> Untouched() && r == Raised(if Early(line) then AtLine(line) else NotAdmitted)
      ensures issued.Some? ==> !Early(line) && LeftAt(line, StartVerdict(script, raiseAt), r)
    {
      if line == Project {
        return Raised(AtLine(line));
      }
      tempDir := true;
      Others();
      if line == Staging || line == LookUp {
        return Raised(AtLine(line));
      }
      workerKnown := true;
      r := SubmitAndBegin(line, patience, script, raiseAt);
    }

    method SubmitAndBegin(line: Line, patience: nat, script: seq<Kind>, raiseAt: int) returns (r: Outcome<Failure>)
      requires Valid() && Untouched() && workerKnown && !closed && !Early(line)
      modifies this, worker, worker.slot
      ensures Valid() && !closed && steps == old(steps)
      ensures issued.None? ==> Untouched() && r == Raised(NotAdmitted)
      ensures issued.Some? ==> LeftAt(line, StartVerdict(script, raiseAt), r)
    {
      r := Submit(line, patience);
      if r.Done? {
        Others();
        if line == AfterSubmit {
          return Raised(AtLine(line));
        }
        r := StoreAndBegin(line, script, raiseAt);
      }
    }

    /** What a constructor that raised at `line` has done to the worker. */
    ghost function StartDeeds(line: Line, v: Verdict): seq<Deed>
      reads this
    {
      if issued.None? || Unowned(line) then []
      else if line == InSubmit then [Freed]
      else if line == Nowhere then EndingDeeds(v)
      else EndingDeeds(CallbackRaised)
    }

    /** `__init__`. If it raises -- wherever that happens, and whatever the unwind runs into --
        the failure is the one that left it, the session has dropped what it had stored, a job it
        knew it had submitted and had not seen finish was asked to cancel, and the runtime was
        killed only while the session still owned the worker, before the slot was freed. The slot
        is not this session's, exactly unless the exception came after the admission and before
        the first store: then it still is, and nothing was cancelled or killed. */
    method Start(line: Line, patience: nat, script: seq<Kind>, raiseAt: int, faults: set<CloseStep>)
      returns (r: Outcome<Failure>)
      requires Valid() && Blank() && steps == []
      modifies this, worker, worker.slot
      ensures Valid()
      ensures r == (if issued.None? then Raised(if Early(line) then AtLine(line) else NotAdmitted)
                    else if line == Nowhere then StartOutcome(StartVerdict(script, raiseAt))
                    else Raised(AtLine(line)))
      ensures r.Done? <==> issued.Some? && line == Nowhere && StartVerdict(script, raiseAt) == Began
      ensures r.Done? ==> Mine() && submission == events == issued && submitted && !closed && deeds == []
      ensures r.Raised? ==> closed && submission == None && events == None && !tempDir && steps == CLOSE_STEPS
      ensures r.Raised? ==> (Mine() <==> issued.Some? && Unowned(line))
      ensures r.Raised? ==> deeds == StartDeeds(line, StartVerdict(script, raiseAt))
      ensures issued.Some? && line == Nowhere ==>
                && (forall k: nat :: StartEndsAt(script, k, raiseAt) ==>
                      match script[k]
                      case Status => r == Raised(InCallback) && deeds == [AskedToCancel, Killed, Freed]
                      case Initialized => r == Done && deeds == []
                      case Failed => r == Raised(InStream) && deeds == [Killed, Freed]
                      case _ => r == Raised(EndedEarly) && deeds == [Freed])
                && ((forall k: nat :: !StartEndsAt(script, k, raiseAt)) ==>
                      r == Raised(EndedEarly) && deeds == [Freed, AskedToCancel])
      ensures issued.Some? && line in {BetweenStores, BeforeFlag, AfterFlag} ==>
                r == Raised(AtLine(line)) && deeds == [AskedToCancel, Killed, Freed]
      ensures issued.Some? && line in {OnAdmission, AfterSubmit} ==> r == Raised(AtLine(line)) && deeds == [] && Mine()
      ensures issued.Some? && line == InSubmit ==> r == Raised(AtLine(line)) && deeds == [Freed] && !Mine()
    {
      StartEnds(script, raiseAt);
      r := TryStart(line, patience, script, raiseAt);
      if r.Raised? {
        AbortStart(faults);
      }
    }

    /** The finalizer of a stream nobody stored, run by the collector on any thread at any time
        after the constructor raised `AfterSubmit`. With the slot's mutex free the slot is given
        back -- with no job cancelled and no runtime killed, so that the next session finds what
        `WorkerLapses.DroppedStream` says; with the mutex taken it stays held for good. (After an
        exception `OnAdmission` there is no stream, so that it always does.) */
    method StreamCollected(t: Tid)
      requires Sound() && issued.Some?
      modifies this`deeds, worker.slot
      ensures Sound() && worker.slot.mutex == old(worker.slot.mutex)
      ensures Mine() == (old(Mine()) && old(worker.slot.mutex) != None)
      ensures deeds == old(deeds) + if old(Mine()) && !Mine() then [Freed] else []
    {
      ghost var held := Mine();
      worker.slot.Finalize(t, issued);
      if held && !Mine() {
        deeds := deeds + [Freed];
      }
    }

    /** `events()`, of which its consumer takes `patience` events: the loop, and the `close` in its
        `finally`, whose failure takes the place of the loop's. A consumer that takes none has not
        started it, and nothing happens, not even the `close`. */
    method Events(script: seq<Kind>, patience: nat, raiseAt: int, faults: set<CloseStep>) returns (r: Outcome<Failure>)
      requires Valid() && Mine() && events.Some? && submission == events && !finished && !retireWorker && !closed
      modifies this, worker, worker.slot
      ensures Valid()
      ensures patience == 0 ==>
                r == Done && Mine() && !closed && submission == old(submission) && events == old(events)
                && deeds == old(deeds) && steps == old(steps)
      ensures patience > 0 ==> closed && !Mine() && submission == None && events == None
      ensures patience > 0 ==> steps == old(steps) + CLOSE_STEPS
      ensures patience > 0 ==> deeds == old(deeds) + EndingDeeds(JobVerdict(script, patience, raiseAt))
      ensures patience > 0 ==>
                var v := JobVerdict(script, patience, raiseAt);
                var failing := Failing(0, faults, !v.OverEarly? && !v.StreamOver?, true, old(tempDir));
                r == if failing != [] then Raised(WhileClosing(failing[0])) else JobOutcome(v)
      ensures forall k: nat :: EventsEndAt(script, k, patience, raiseAt) && patience > 0 ==>
                && deeds == old(deeds) + (match script[k]
                                          case Failed => [Killed, Freed]
                                          case Completed => [Freed]
                                          case Cancelled => [Freed]
                                          case _ => [AskedToCancel, Killed, Freed])
                && (r.Done? || !r.error.WhileClosing? ==>
                      r == match script[k]
                           case Status => Raised(InCallback)
                           case Failed => Raised(InStream)
                           case _ => Done)
      ensures patience > 0 && (forall k: nat :: !EventsEndAt(script, k, patience, raiseAt)) ==>
                && deeds == old(deeds) + [Freed, AskedToCancel]
                && (r.Done? || !r.error.WhileClosing? ==> r == Raised(EndedEarly))
      ensures r.Raised? && r.error.WhileClosing? ==> r.error.step in faults
      ensures patience > 0 && TerminateProcess in faults ==> r.Raised? && r.error.WhileClosing?
    {
      if patience == 0 {
        return Done;
      }
      JobEnds(script, patience, raiseAt);
      r := ReadAndClose(script, patience, raiseAt, faults);
    }

    method ReadAndClose(script: seq<Kind>, patience: nat, raiseAt: int, faults: set<CloseStep>)
      returns (r: Outcome<Failure>)
      requires Valid() && Mine() && events.Some? && submission == events && !finished && !retireWorker && !closed
      requires patience > 0
      modifies this, worker, worker.slot
      ensures Valid() && closed && !Mine() && submission == None && events == None
      ensures steps == old(steps) + CLOSE_STEPS
      ensures var v := JobVerdict(script, patience, raiseAt);
              var failing := Failing(0, faults, !v.OverEarly? && !v.StreamOver?, true, old(tempDir));
              && deeds == old(deeds) + EndingDeeds(v)
              && r == if failing != [] then Raised(WhileClosing(failing[0])) else JobOutcome(v)
    {
      r := ReadJob(script, patience, raiseAt);
      var closing := Close(faults);
      if closing.Raised? {
        r := closing;
      }
    }

    method ReadJob(script: seq<Kind>, patience: nat, raiseAt: int) returns (r: Outcome<Failure>)
      requires Valid() && Mine() && events.Some? && submission == events && !finished && !retireWorker && !closed
      requires patience > 0
      modifies this`finished, this`retireWorker, this`deeds, worker, worker.slot
      ensures Valid()
      ensures var v := JobVerdict(script, patience, raiseAt);
              && r == JobOutcome(v)
              && (Mine() <==> !v.StreamOver?)
              && (finished <==> v.SolverFailed? || v.OverEarly?)
              && (retireWorker <==> v.SolverFailed?)
              && deeds == old(deeds) + if v.StreamOver? then [Freed] else []
      ensures forall k: nat :: EventsEndAt(script, k, patience, raiseAt) ==>
                && r == (match script[k]
                         case Status => Raised(InCallback)
                         case Failed => Raised(InStream)
                         case _ => Done)
                && Mine() && (retireWorker <==> script[k].Failed?)
                && (finished <==> script[k].Failed? || script[k].Completed? || script[k].Cancelled?)
      ensures (forall k: nat :: !EventsEndAt(script, k, patience, raiseAt)) ==>
                r == Raised(EndedEarly) && !Mine() && !finished && !retireWorker
    {
      JobEnds(script, patience, raiseAt);
      var left := patience;
      for k := 0 to |script|
        invariant Valid() && Mine() && !finished && !retireWorker && deeds == old(deeds) && left > 0
        invariant JobVerdict(script, patience, raiseAt) == JobVerdict(script[k..], left, raiseAt - k)
      {
        Others();
        assert script[k..][1..] == script[k + 1..];
        match script[k] {
          case Status => if raiseAt == k { return Raised(InCallback); }
          case Failed =>
            finished := true;
            retireWorker := true;
            return Raised(InStream);
          case Completed =>
            finished := true;
            return Done;
          case Cancelled =>
            finished := true;
            return Done;
          case _ =>
            if left == 1 {
              return Done;
            }
            left := left - 1;
        }
      }
      StreamEnds();
      r := Raised(EndedEarly);
    }
  }
}
