/** Provisioning runs racing for one runtime directory (hornlab_beat_bem/provision.py,
    `provision_cpu` and `provision_gpu` over `_provisioning_lock` and `_write_state`).

    Each run looks for a ready record, takes the directory's lock, looks again, and only then
    resolves Julia, instantiates and probes, recording its progress in the store of
    `StateStore`. A run may be killed at any instant, also between two replaces of one write;
    the kernel then frees its lock. Runs for every backend are mixed; the counts are kept for
    one of them, `tracked`, whose runs are not forced. A run that cannot have the lock at all --
    no locking on this file system -- records its failure without it. */
module Provisioning {
  import opened Prelude
  import opened StateStore

  type RunId = nat

  datatype Pc =
    | Arrived
    | Waiting
    | Holding
    | Marking
    | Resolving
    | Instantiating
    | Probing
    | Succeeding
    | Announcing
    | Failing
    | Returned
    | Killed

  datatype Run = Run(backend: Backend, forced: bool, pc: Pc)

  /** `attempts`, `spoiled` and `completed` count the instantiate-and-probe attempts for the tracked
      backend, those of them that failed or were killed, and those that went through; `forgotten`
      counts the times its ready record was overwritten from outside the lock. */
  datatype State = State(
    disk: Disk,
    lock: Option<RunId>,
    runs: map<RunId, Run>,
    tracked: Backend,
    attempts: nat,
    spoiled: nat,
    completed: nat,
    forgotten: nat)

  datatype Move =
    | FirstLook(r: RunId, missed: bool)
    | TakeLock(r: RunId)
    | SecondLook(r: RunId)
    | Mark(r: RunId, now: int)
    | Resolve(r: RunId, now: int)
    | Instantiate(r: RunId, now: int)
    | Probe(r: RunId)
    | RecordReady(r: RunId, now: int)
    | Announce(r: RunId)
    | Fail(r: RunId)
    | RecordFailed(r: RunId, now: int)
    | FailLock(r: RunId, now: int)
    | Kill(r: RunId, now: int, budget: nat)

  /** The identity -- project, fingerprint, a Julia that exists -- a ready record must have. */
  const CURRENT := 0

  /** `_ready_for`. */
  predicate ReadyFor(record: Option<Record>, b: Backend) {
    record.Some? && record.value.status == "ready" && record.value.backend == Some(b) && record.value.body == CURRENT
  }

  predicate Ready(s: State, b: Backend) {
    ReadyFor(ReadState(s.disk, b), b)
  }

  /** What a directory must hold for a run to have nothing to do: the record of its backend -- in
      the backend's own file, or, where that cannot be read, in the mirror, which must name the
      backend -- says "ready", names that backend, and has the current identity. */
  predicate OnRecord(d: Disk, b: Backend) {
    if b in d.own && d.own[b].Valid? then
      var record := d.own[b].record;
      record.status == "ready" && record.backend == Some(b) && record.body == CURRENT
    else
      && d.legacy.Valid? && d.legacy.record.backend == Some(b) && d.legacy.record.status == "ready"
      && d.legacy.record.body == CURRENT
  }

  predicate InSection(pc: Pc) {
    !pc.Arrived? && !pc.Waiting? && !pc.Returned? && !pc.Killed?
  }

  /** Past the start of an instantiate-and-probe attempt and not yet past its outcome. */
  predicate Attempting(pc: Pc) {
    pc.Instantiating? || pc.Probing? || pc.Succeeding? || pc.Announcing?
  }

  function Note(run: Run, status: string): Record {
    Record(Some(run.backend), 1, 0, status, CURRENT)
  }

  /** What the run is about to write where it is, if it writes there. */
  function Pending(run: Run): Option<Record> {
    match run.pc
    case Marking => Some(Note(run, "in_progress"))
    case Resolving => Some(Note(run, "in_progress"))
    case Instantiating => Some(Note(run, "in_progress"))
    case Succeeding => Some(Note(run, "ready"))
    case Failing => Some(Note(run, "failed"))
    case _ => None
  }

  predicate Is(s: State, r: RunId, pc: Pc) {
    r in s.runs && s.runs[r].pc == pc
  }

  predicate Enabled(s: State, m: Move) {
    match m
    case FirstLook(r, _) => Is(s, r, Arrived)
    case TakeLock(r) => Is(s, r, Waiting) && s.lock.None?
    case SecondLook(r) => Is(s, r, Holding)
    case Mark(r, _) => Is(s, r, Marking)
    case Resolve(r, _) => Is(s, r, Resolving)
    case Instantiate(r, _) => Is(s, r, Instantiating)
    case Probe(r) => Is(s, r, Probing)
    case RecordReady(r, _) => Is(s, r, Succeeding)
    case Announce(r) => Is(s, r, Announcing)
    case Fail(r) => Is(s, r, Resolving) || Is(s, r, Instantiating) || Is(s, r, Probing) || Is(s, r, Succeeding)
        || Is(s, r, Announcing)
    case RecordFailed(r, _) => Is(s, r, Failing)
    case FailLock(r, _) => Is(s, r, Waiting)
    case Kill(r, _, _) => r in s.runs
  }

  function At(s: State, r: RunId, pc: Pc): State
    requires r in s.runs
  {
    s.(runs := s.runs[r := s.runs[r].(pc := pc)])
  }

  function Unlock(s: State, r: RunId): State {
    if s.lock == Some(r) then s.(lock := None) else s
  }

  function Tracks(s: State, r: RunId): nat
    requires r in s.runs
  {
    if s.runs[r].backend == s.tracked then 1 else 0
  }

  /** The run's pending write, all of it. */
  function Recorded(s: State, r: RunId, now: int): State
    requires r in s.runs && Pending(s.runs[r]).Some?
  {
    s.(disk := Written(s.disk, Pending(s.runs[r]).value, now, 3))
  }

  /** `_lock_failure_state`. */
  function FailLockStep(s: State, r: RunId, now: int): State
    requires r in s.runs
  {
    At(s, r, Returned).(disk := Written(s.disk, Note(s.runs[r], "failed"), now, 3),
                        forgotten := s.forgotten + if Ready(s, s.tracked) then Tracks(s, r) else 0)
  }

  function KillStep(s: State, r: RunId, now: int, budget: nat): State
    requires r in s.runs
  {
    var cut := if Pending(s.runs[r]).Some? then s.(disk := Written(s.disk, Pending(s.runs[r]).value, now, budget))
               else s;
    Unlock(At(cut, r, Pc.Killed), r).(spoiled := s.spoiled + if Attempting(s.runs[r].pc) then Tracks(s, r) else 0)
  }

  function Apply(s: State, m: Move): State
    requires Enabled(s, m)
  {
    match m
    case FirstLook(r, missed) =>
      At(s, r, if !missed && !s.runs[r].forced && Ready(s, s.runs[r].backend) then Returned else Waiting)
    case TakeLock(r) => At(s, r, Holding).(lock := Some(r))
    case SecondLook(r) =>
      if !s.runs[r].forced && Ready(s, s.runs[r].backend) then Unlock(At(s, r, Returned), r) else At(s, r, Marking)
    case Mark(r, now) => At(Recorded(s, r, now), r, Resolving)
    case Resolve(r, now) => At(Recorded(s, r, now), r, Instantiating).(attempts := s.attempts + Tracks(s, r))
    case Instantiate(r, now) => At(Recorded(s, r, now), r, Probing)
    case Probe(r) => At(s, r, Succeeding)
    case RecordReady(r, now) => At(Recorded(s, r, now), r, Announcing)
    case Announce(r) => Unlock(At(s, r, Returned), r).(completed := s.completed + Tracks(s, r))
    case Fail(r) => At(s, r, Failing).(spoiled := s.spoiled + if Attempting(s.runs[r].pc) then Tracks(s, r) else 0)
    case RecordFailed(r, now) => Unlock(At(Recorded(s, r, now), r, Returned), r)
    case FailLock(r, now) => FailLockStep(s, r, now)
    case Kill(r, now, budget) =>
      if s.runs[r].pc.Returned? || s.runs[r].pc.Killed? then s else KillStep(s, r, now, budget)
  }

  /* ---------- The invariant ---------- */

  /** The attempt now running, if it is for the tracked backend. */
  function Active(s: State): nat {
    if s.lock.Some? && s.lock.value in s.runs && s.runs[s.lock.value].backend == s.tracked
        && Attempting(s.runs[s.lock.value].pc)
    then 1 else 0
  }

  /** A run for the tracked backend that has looked under the lock and not found it ready. */
  predicate Working(s: State) {
    s.lock.Some? && s.lock.value in s.runs && s.runs[s.lock.value].backend == s.tracked
        && !s.runs[s.lock.value].pc.Holding?
  }

  ghost predicate LockInv(s: State) {
    && (forall r :: r in s.runs ==> (InSection(s.runs[r].pc) <==> s.lock == Some(r)))
    && (s.lock.Some? ==> s.lock.value in s.runs)
  }

  ghost predicate RunsInv(s: State) {
    && s.tracked in BACKENDS
    && forall r :: r in s.runs ==>
        s.runs[r].backend in BACKENDS && (s.runs[r].backend == s.tracked ==> !s.runs[r].forced)
  }

  ghost predicate CountInv(s: State) {
    && WellFormed(s.disk)
    && s.attempts == s.spoiled + s.completed + Active(s)
    && Accounted(s)
  }

  /** Every attempt that went through is still on record, or was forgotten; a run that works found
      no record under the lock; and its own success, once recorded, is there or forgotten too. */
  ghost predicate Accounted(s: State) {
    if !Working(s) then s.completed <= s.forgotten + (if Ready(s, s.tracked) then 1 else 0)
    else if s.runs[s.lock.value].pc.Announcing? then s.completed + (if Ready(s, s.tracked) then 0 else 1) <= s.forgotten
    else s.completed <= s.forgotten
  }

  ghost predicate Inv(s: State) {
    LockInv(s) && RunsInv(s) && CountInv(s)
  }

  ghost predicate Init(s: State) {
    && WellFormed(s.disk) && s.lock == None && s.attempts == s.spoiled == s.completed == s.forgotten == 0
    && RunsInv(s)
    && forall r :: r in s.runs ==> s.runs[r].pc == Arrived
  }

  lemma WriteEffect(s: State, r: RunId, now: int, budget: nat)
    requires Inv(s) && r in s.runs && Pending(s.runs[r]).Some?
    ensures var disk := Written(s.disk, Pending(s.runs[r]).value, now, budget);
            && WellFormed(disk)
            && (s.runs[r].backend != s.tracked ==> ReadState(disk, s.tracked) == ReadState(s.disk, s.tracked))
            && (s.runs[r].backend == s.tracked && budget == 3 && s.runs[r].pc.Succeeding? ==>
                ReadyFor(ReadState(disk, s.tracked), s.tracked))
  {
    var note := Pending(s.runs[r]).value;
    assert s.runs[r].backend != "";
    WriteKeepsWellFormed(s.disk, note, now, budget);
    WriteIsAtomic(s.disk, note, now, budget, s.tracked);
  }

  /** Run `r` went on to another place in its code, and the counts still add up. */
  lemma MoveKeeps(s: State, s': State, r: RunId)
    requires Inv(s) && r in s.runs && r in s'.runs && s'.tracked == s.tracked && WellFormed(s'.disk)
    requires s'.runs == s.runs[r := s.runs[r].(pc := s'.runs[r].pc)]
    requires s'.lock == if InSection(s'.runs[r].pc) then Some(r) else if s.lock == Some(r) then None else s.lock
    requires InSection(s'.runs[r].pc) ==> s.lock == Some(r) || s.lock.None?
    requires s'.attempts == s'.spoiled + s'.completed + Active(s') && Accounted(s')
    ensures Inv(s')
  {
  }

  lemma LookKeeps(s: State, m: Move)
    requires Inv(s) && Enabled(s, m)
    requires m.FirstLook? || m.TakeLock? || m.SecondLook?
    ensures Inv(Apply(s, m))
  {
    MoveKeeps(s, Apply(s, m), m.r);
  }

  lemma WorkKeeps(s: State, m: Move)
    requires Inv(s) && Enabled(s, m)
    requires m.Probe? || m.Announce? || m.Fail?
    ensures Inv(Apply(s, m))
  {
    MoveKeeps(s, Apply(s, m), m.r);
  }

  lemma ProgressKeeps(s: State, m: Move)
    requires Inv(s) && Enabled(s, m)
    requires m.Mark? || m.Resolve? || m.Instantiate?
    ensures Inv(Apply(s, m))
  {
    WriteEffect(s, m.r, m.now, 3);
    MoveKeeps(s, Apply(s, m), m.r);
  }

  lemma OutcomeKeeps(s: State, m: Move)
    requires Inv(s) && Enabled(s, m)
    requires m.RecordReady? || m.RecordFailed?
    ensures Inv(Apply(s, m))
  {
    WriteEffect(s, m.r, m.now, 3);
    MoveKeeps(s, Apply(s, m), m.r);
  }

  lemma FailLockEffect(s: State, r: RunId, now: int)
    requires Inv(s) && Is(s, r, Waiting)
    ensures var s' := FailLockStep(s, r, now);
            && WellFormed(s'.disk)
            && (Ready(s', s.tracked) <==> Ready(s, s.tracked) && s.runs[r].backend != s.tracked)
  {
    var note := Note(s.runs[r], "failed");
    assert s.runs[r].backend != "";
    WriteKeepsWellFormed(s.disk, note, now, 3);
    WriteIsAtomic(s.disk, note, now, 3, s.tracked);
  }

  lemma FailLockKeeps(s: State, r: RunId, now: int)
    requires Inv(s) && Is(s, r, Waiting)
    ensures Inv(FailLockStep(s, r, now))
  {
    FailLockEffect(s, r, now);
    MoveKeeps(s, FailLockStep(s, r, now), r);
  }

  lemma KillKeeps(s: State, r: RunId, now: int, budget: nat)
    requires Inv(s) && r in s.runs
    ensures Inv(Apply(s, Kill(r, now, budget)))
  {
    if !s.runs[r].pc.Returned? && !s.runs[r].pc.Killed? {
      if Pending(s.runs[r]).Some? {
        WriteEffect(s, r, now, budget);
      }
      MoveKeeps(s, Apply(s, Kill(r, now, budget)), r);
    }
  }

  lemma StepKeeps(s: State, m: Move)
    requires Inv(s) && Enabled(s, m)
    ensures Inv(Apply(s, m))
  {
    if m.Kill? {
      KillKeeps(s, m.r, m.now, m.budget);
    } else if m.Mark? || m.Resolve? || m.Instantiate? {
      ProgressKeeps(s, m);
    } else if m.RecordReady? || m.RecordFailed? {
      OutcomeKeeps(s, m);
    } else if m.FailLock? {
      FailLockKeeps(s, m.r, m.now);
    } else if m.Probe? || m.Announce? || m.Fail? {
      WorkKeeps(s, m);
    } else {
      LookKeeps(s, m);
    }
  }

  /* ---------- Every run of the whole system ---------- */

  ghost predicate Next(s: State, s': State) {
    exists m :: Enabled(s, m) && s' == Apply(s, m)
  }

  ghost predicate IsRun(run: seq<State>) {
    |run| > 0 && Init(run[0]) && forall k :: 0 <= k < |run| - 1 ==> Next(run[k], run[k + 1])
  }

  lemma {:induction false} RunKeeps(run: seq<State>, n: nat)
    requires IsRun(run) && n < |run|
    ensures Inv(run[n])
  {
    if n > 0 {
      RunKeeps(run, n - 1);
      assert Next(run[n - 1], run[n - 1 + 1]);
      var m :| Enabled(run[n - 1], m) && run[n] == Apply(run[n - 1], m);
      StepKeeps(run[n - 1], m);
    }
  }

  /** At most one run of any backend is inside the locked section; and however the runs for the
      tracked backend interleave with each other and with all the rest, the attempts made for it
      are at most one more than those that failed or were killed and the times its ready record
      was overwritten from outside the lock. Once one succeeded its record stays ready and no
      further attempt is ever made, unless that ever happened. */
  lemma AttemptsAreBounded(run: seq<State>, n: nat)
    requires IsRun(run) && n < |run|
    ensures forall q, r ::
              q in run[n].runs && r in run[n].runs && InSection(run[n].runs[q].pc) && InSection(run[n].runs[r].pc)
              ==> q == r
    ensures run[n].attempts <= run[n].spoiled + run[n].forgotten + 1
    ensures run[n].completed > 0 && run[n].forgotten == 0 ==>
        Ready(run[n], run[n].tracked) && run[n].attempts == run[n].spoiled + 1
  {
    RunKeeps(run, n);
  }

  /** The record written from outside the lock takes a ready record away exactly if it is for the
      same backend. */
  lemma LockFailureForgets(s: State, r: RunId, now: int)
    requires Inv(s) && Enabled(s, FailLock(r, now))
    ensures Ready(Apply(s, FailLock(r, now)), s.tracked) <==> Ready(s, s.tracked) && s.runs[r].backend != s.tracked
    ensures Apply(s, FailLock(r, now)).forgotten - s.forgotten
            == if Ready(s, s.tracked) && !Ready(Apply(s, FailLock(r, now)), s.tracked) then 1 else 0
  {
    FailLockEffect(s, r, now);
  }

  /** A run that returns from one of its looks, on an empty lock or under it, does so in a state
      where its record is there, and leaves everything as it is; and a forced one never does. */
  lemma ReturnsOnRecord(run: seq<State>, n: nat, r: RunId)
    requires IsRun(run) && n + 1 < |run| && r in run[n].runs && r in run[n + 1].runs
    requires (run[n].runs[r].pc.Arrived? || run[n].runs[r].pc.Holding?) && run[n + 1].runs[r].pc.Returned?
    ensures OnRecord(run[n].disk, run[n].runs[r].backend) && !run[n].runs[r].forced
    ensures run[n + 1].disk == run[n].disk && run[n + 1].attempts == run[n].attempts
  {
    assert Next(run[n], run[n + 1]);
    RunKeeps(run, n);
    var m :| Enabled(run[n], m) && run[n + 1] == Apply(run[n], m);
    if m.r != r {
      OtherFrame(run[n], m, r);
    }
  }

  /** Nothing but the success of a run for a backend, whose runtime was instantiated and probed, puts
      a ready record of it on the directory. */
  lemma ReadyIsEarned(s: State, m: Move, b: Backend)
    requires Inv(s) && Enabled(s, m) && b in BACKENDS && !OnRecord(s.disk, b) && OnRecord(Apply(s, m).disk, b)
    ensures m.r in s.runs && s.runs[m.r].backend == b && s.runs[m.r].pc.Succeeding?
    ensures m.RecordReady? || m.Kill?
  {
    if m.Kill? {
      KilledRecord(s, m.r, m.now, m.budget, b);
    } else if m.Mark? || m.Resolve? || m.Instantiate? || m.RecordReady? || m.RecordFailed? {
      NotedRecord(s, m.r, m.now, 3, b);
    } else if m.FailLock? {
      WriteIsAtomic(s.disk, Note(s.runs[m.r], "failed"), m.now, 3, b);
    }
  }

  lemma NotedRecord(s: State, r: RunId, now: int, budget: nat, b: Backend)
    requires Inv(s) && r in s.runs && Pending(s.runs[r]).Some? && b in BACKENDS && !OnRecord(s.disk, b)
    requires OnRecord(Written(s.disk, Pending(s.runs[r]).value, now, budget), b)
    ensures s.runs[r].backend == b && s.runs[r].pc.Succeeding?
  {
    var note := Pending(s.runs[r]).value;
    OnlyReadyIsReady(s.runs[r]);
    assert s.runs[r].backend != "";
    WriteIsAtomic(s.disk, note, now, budget, b);
    WhatIsOnRecord(s.disk, b);
    WhatIsOnRecord(Written(s.disk, note, now, budget), b);
  }

  lemma WhatIsOnRecord(d: Disk, b: Backend)
    ensures OnRecord(d, b) <==> ReadyFor(ReadState(d, b), b)
  {
  }

  lemma OnlyReadyIsReady(run: Run)
    requires Pending(run).Some?
    ensures Pending(run).value.status == "ready" <==> run.pc.Succeeding?
  {
    assert |"ready"| == 5 && |"failed"| == 6 && |"in_progress"| == 11;
  }

  lemma KilledRecord(s: State, r: RunId, now: int, budget: nat, b: Backend)
    requires Inv(s) && r in s.runs && b in BACKENDS && !OnRecord(s.disk, b)
    requires OnRecord(Apply(s, Kill(r, now, budget)).disk, b)
    ensures s.runs[r].backend == b && s.runs[r].pc.Succeeding?
  {
    if Pending(s.runs[r]).Some? {
      NotedRecord(s, r, now, budget, b);
    }
  }

  /** What the directory says of a backend after a run for it has written where it is: "failed" after
      a failure, its own or the lock's, "ready" after its success, and "in_progress" before. */
  lemma WhatIsNoted(s: State, m: Move)
    requires Inv(s) && Enabled(s, m)
    requires m.Mark? || m.Resolve? || m.Instantiate? || m.RecordReady? || m.RecordFailed? || m.FailLock?
    ensures var b := s.runs[m.r].backend;
            ReadState(Apply(s, m).disk, b)
            == Some(Record(Some(b), 2, m.now,
                           if m.RecordReady? then "ready" else if m.RecordFailed? || m.FailLock? then "failed"
                           else "in_progress", CURRENT))
  {
    var run := s.runs[m.r];
    assert run.backend != "";
    if m.FailLock? {
      WriteIsAtomic(s.disk, Note(run, "failed"), m.now, 3, run.backend);
    } else {
      WriteIsAtomic(s.disk, Pending(run).value, m.now, 3, run.backend);
    }
  }

  /** So a directory that had no ready record of a backend and has one was given it by a run for that
      backend that had come as far as its success. */
  lemma {:induction false} RecordWasEarned(run: seq<State>, n: nat, b: Backend)
    requires IsRun(run) && n < |run| && b in BACKENDS && !OnRecord(run[0].disk, b) && OnRecord(run[n].disk, b)
    ensures exists k, r :: 0 <= k < n && r in run[k].runs && run[k].runs[r] == Run(b, run[k].runs[r].forced, Succeeding)
  {
    if n > 0 && !OnRecord(run[n - 1].disk, b) {
      RunKeeps(run, n - 1);
      assert Next(run[n - 1], run[n - 1 + 1]);
      var m :| Enabled(run[n - 1], m) && run[n] == Apply(run[n - 1], m);
      ReadyIsEarned(run[n - 1], m, b);
      assert run[n - 1].runs[m.r] == Run(b, run[n - 1].runs[m.r].forced, Succeeding);
    } else if n > 0 {
      RecordWasEarned(run, n - 1, b);
    }
  }

  /* ---------- The code of one run ---------- */

  /** A run's place in its code is its own, and so is the lock while it holds it. */
  lemma OtherFrame(s: State, m: Move, r: RunId)
    requires Inv(s) && Enabled(s, m) && m.r != r && r in s.runs
    ensures r in Apply(s, m).runs && Apply(s, m).runs[r] == s.runs[r] && Apply(s, m).tracked == s.tracked
    ensures s.lock == Some(r) ==> Apply(s, m).lock == Some(r)
  {
  }

  /** Which of the steps of one run raise. */
  datatype Faults = Faults(lock: bool, julia: bool, instantiate: bool, probe: bool, announce: bool)

  predicate WorkFails(faults: Faults) {
    faults.julia || faults.instantiate || faults.probe || faults.announce
  }

  /** How a run came to its status. */
  datatype Way = FoundReady | LockFailed | Worked

  /** Where a step of the locked section takes its run. */
  function Whither(m: Move): Pc {
    match m
    case Mark(_, _) => Resolving
    case Resolve(_, _) => Instantiating
    case Instantiate(_, _) => Probing
    case Probe(_) => Succeeding
    case RecordReady(_, _) => Announcing
    case Fail(_) => Failing
    case _ => Returned
  }

  class Directory {
    var s: State

    constructor (initial: State)
      requires Init(initial)
      ensures s == initial && Inv(s)
    {
      s := initial;
    }

    /** Any number of steps of other runs, killed ones included. */
    method Others(r: RunId)
      requires Inv(s) && r in s.runs
      modifies this
      ensures Inv(s) && r in s.runs && s.runs[r] == old(s.runs[r]) && s.tracked == old(s.tracked)
      ensures old(s.lock) == Some(r) ==> s.lock == Some(r)
    {
      var n: nat := *;
      while n > 0
        invariant Inv(s) && r in s.runs && s.runs[r] == old(s.runs[r]) && s.tracked == old(s.tracked)
        invariant old(s.lock) == Some(r) ==> s.lock == Some(r)
      {
        var m: Move := *;
        if Enabled(s, m) && m.r != r {
          OtherFrame(s, m, r);
          Step(m);
        }
        n := n - 1;
      }
    }

    method Step(m: Move)
      requires Inv(s) && Enabled(s, m)
      modifies this
      ensures s == Apply(old(s), m) && Inv(s)
    {
      StepKeeps(s, m);
      s := Apply(s, m);
    }

    /** One step of run `r`, after any number of steps of the others. */
    method Act(r: RunId, m: Move)
      requires Inv(s) && r in s.runs && m.r == r && !m.FirstLook? && !m.TakeLock? && !m.SecondLook? && !m.Kill?
          && Enabled(s, m)
      modifies this
      ensures Inv(s) && r in s.runs && s.runs[r] == old(s.runs[r]).(pc := Whither(m))
    {
      Others(r);
      Step(m);
    }

    /** The lock, polled for as long as `patience` lasts. */
    method AwaitLock(r: RunId, patience: nat) returns (locked: bool)
      requires Inv(s) && Is(s, r, Waiting)
      modifies this
      ensures Inv(s) && r in s.runs && s.runs[r] == old(s.runs[r]).(pc := if locked then Holding else Waiting)
    {
      var left := patience;
      Others(r);
      while s.lock.Some? && left > 0
        invariant Inv(s) && Is(s, r, Waiting) && s.runs[r] == old(s.runs[r])
      {
        Others(r);
        left := left - 1;
      }
      locked := s.lock.None?;
      if locked {
        Step(TakeLock(r));
      }
    }

    /** One of the two looks at the record; true if the run can return at once. */
    method Look(r: RunId, m: Move) returns (found: bool)
      requires Inv(s) && r in s.runs && m.r == r && (m.FirstLook? || m.SecondLook?) && Enabled(s, m)
      modifies this
      ensures Inv(s) && r in s.runs
      ensures s.runs[r] == old(s.runs[r]).(pc := if found then Returned else if m.FirstLook? then Waiting else Marking)
      ensures found <==>
                !old(s.runs[r]).forced && OnRecord(s.disk, s.runs[r].backend) && (m.FirstLook? ==> !m.missed)
    {
      Others(r);
      Step(m);
      found := s.runs[r].pc == Returned;
    }

    /** `provision_cpu` and `provision_gpu` past their hardware gate. The run ends outside the
        locked section, with "ready" if it found a record or none of its steps raised, with
        "failed" if one did or the lock could not be had at all, and without a status for as long
        as others keep the lock; a forced run never takes a record for its own. */
    method Provision(r: RunId, faults: Faults, missed: bool, patience: nat) returns (status: Option<string>, way: Way)
      requires Inv(s) && Is(s, r, Arrived)
      modifies this
      ensures Inv(s) && r in s.runs && s.runs[r] == old(s.runs[r]).(pc := if status.Some? then Returned else Waiting)
      ensures status.Some? ==>
                status == Some(if way.FoundReady? || (way.Worked? && !WorkFails(faults)) then "ready" else "failed")
      ensures status.Some? && old(s.runs[r]).forced ==> way == if faults.lock then LockFailed else Worked
      ensures status.Some? ==> (way.LockFailed? ==> faults.lock) && (way.Worked? ==> !faults.lock)
      ensures status.Some? && way.FoundReady? ==> OnRecord(s.disk, s.runs[r].backend)
    {
      var found := Look(r, FirstLook(r, missed));
      if found {
        return Some("ready"), FoundReady;
      }
      if faults.lock {
        var now: int := *;
        Act(r, FailLock(r, now));
        return Some("failed"), LockFailed;
      }
      var locked := AwaitLock(r, patience);
      if !locked {
        return None, FoundReady;
      }
      found := Look(r, SecondLook(r));
      if found {
        return Some("ready"), FoundReady;
      }
      var done := Work(r, faults);
      status, way := Some(done), Worked;
    }

    method Work(r: RunId, faults: Faults) returns (status: string)
      requires Inv(s) && Is(s, r, Marking)
      modifies this
      ensures Inv(s) && r in s.runs && s.runs[r] == old(s.runs[r]).(pc := Returned)
      ensures status == if WorkFails(faults) then "failed" else "ready"
    {
      var now: int := *;
      Act(r, Mark(r, now));
      if !faults.julia {
        Act(r, Resolve(r, now));
        if !faults.instantiate {
          Act(r, Instantiate(r, now));
          if !faults.probe {
            Act(r, Probe(r));
            Act(r, RecordReady(r, now));
            if !faults.announce {
              Act(r, Announce(r));
              return "ready";
            }
          }
        }
      }
      Act(r, Fail(r));
      Act(r, RecordFailed(r, now));
      status := "failed";
    }
  }
}
