/** Where the worker's protocol does not keep one session's events from another: a start-up that
    an exception cuts short, and a stream that is dropped while its job runs
    (hornlab_beat_bem/worker.py, submission.py). For both it is decided exactly when a later
    session can be misled. */
module WorkerLapses {
  import opened Prelude
  import opened Workers

  /* ---------- Moves in a row ---------- */

  predicate CanPlay(s: State, moves: seq<Move>)
    decreases |moves|
  {
    moves == [] || (Enabled(s, moves[0]) && CanPlay(Apply(s, moves[0]), moves[1..]))
  }

  function End(s: State, moves: seq<Move>): State
    requires CanPlay(s, moves)
    decreases |moves|
  {
    if moves == [] then s else End(Apply(s, moves[0]), moves[1..])
  }

  lemma Then(s: State, m: Move, rest: seq<Move>)
    requires Enabled(s, m) && CanPlay(Apply(s, m), rest)
    ensures CanPlay(s, [m] + rest) && End(s, [m] + rest) == End(Apply(s, m), rest)
  {
    assert ([m] + rest)[1..] == rest;
  }

  /** Moves from a first state make a run. */
  lemma {:induction false} Played(s: State, moves: seq<Move>) returns (run: seq<State>)
    requires CanPlay(s, moves)
    ensures |run| > 0 && run[0] == s && run[|run| - 1] == End(s, moves)
    ensures forall k :: 0 <= k < |run| - 1 ==> Next(run[k], run[k + 1])
    decreases |moves|
  {
    if moves == [] {
      run := [s];
    } else {
      var rest := Played(Apply(s, moves[0]), moves[1..]);
      run := [s] + rest;
      assert Next(s, rest[0]);
      forall k | 0 <= k < |run| - 1 ensures Next(run[k], run[k + 1]) {
        assert k > 0 ==> Next(rest[k - 1], rest[k - 1 + 1]);
      }
    }
  }

  predicate CutsShort(m: Move) {
    m.Do? && m.act.AbortStartup?
  }

  /** No further start-up is cut short. */
  predicate Gentle(moves: seq<Move>) {
    forall m :: m in moves ==> !CutsShort(m)
  }

  /** Some session has read an event that was not emitted for its request. */
  ghost predicate Misread(s: State) {
    exists i, k :: i in s.sessions && 0 <= k < |s.sessions[i].log| && s.sessions[i].log[k].owner != Some(i)
  }

  /** What others do can still bring that about. */
  ghost predicate Misleads(s: State) {
    exists moves :: CanPlay(s, moves) && Gentle(moves) && Misread(End(s, moves))
  }

  lemma ExposedByCuttingShort(s: State, m: Move)
    requires Enabled(s, m) && !CutsShort(m)
    ensures Apply(s, m).exposed == s.exposed
  {
    if m.Do? {
      ActExposes(s, m.i, m.act);
    }
  }

  lemma ActExposes(s: State, i: Request, a: Act)
    requires CanDo(s, i, a) && !a.AbortStartup?
    ensures DoStep(s, i, a).exposed == s.exposed
  {
  }

  lemma {:induction false} GentleKeeps(s: State, moves: seq<Move>)
    requires Inv(s) && !s.exposed && CanPlay(s, moves) && Gentle(moves)
    ensures Inv(End(s, moves)) && !End(s, moves).exposed
    decreases |moves|
  {
    if moves != [] {
      assert moves[0] in moves;
      ExposedByCuttingShort(s, moves[0]);
      StepKeeps(s, moves[0]);
      GentleKeeps(Apply(s, moves[0]), moves[1..]);
    }
  }

  /** The invariant, with no runtime exposed, is all it takes. */
  lemma NobodyMisled(s: State)
    requires Inv(s) && !s.exposed
    ensures !Misleads(s)
  {
    forall moves | CanPlay(s, moves) && Gentle(moves) ensures !Misread(End(s, moves)) {
      GentleKeeps(s, moves);
      var e := End(s, moves);
      forall i, k | i in e.sessions && 0 <= k < |e.sessions[i].log| ensures e.sessions[i].log[k].owner == Some(i) {
        assert OwnEvents(e, i);
        assert e.sessions[i].log[k] in e.sessions[i].log;
      }
    }
  }

  /* ---------- What the next session finds ---------- */

  /** A free, open slot, and a live runtime for the next session to adopt. */
  predicate Waits(s: State, j: Request, p: Pid) {
    && s.holder == None && !s.closed && s.process == Some(p) && p in s.procs && s.procs[p].alive
    && j in s.sessions && s.sessions[j].pc.Outside? && s.sessions[j].reader.Unopened?
  }

  /** Session `j`, having written its request to the runtime `p`, opens its stream and reads. */
  lemma ReadsFirst(s: State, j: Request, p: Pid) returns (moves: seq<Move>)
    requires s.process == Some(p) && p in s.procs && s.procs[p].pipe != [] && s.procs[p].pipe[0].owner != Some(j)
    requires j in s.sessions && s.sessions[j].pc.Streaming? && s.sessions[j].reader.Unopened?
    ensures CanPlay(s, moves) && Gentle(moves) && Misread(End(s, moves))
  {
    var ready := Apply(s, Do(j, Open));
    var read := Apply(ready, Do(j, Read(true)));
    var me := read.sessions[j];
    assert me.log[|me.log| - 1] == s.procs[p].pipe[0];
    Then(ready, Do(j, Read(true)), []);
    Then(s, Do(j, Open), [Do(j, Read(true))]);
    moves := [Do(j, Open)] + [Do(j, Read(true))];
  }

  /** The next session adopts the runtime and reads whatever is first in its pipe. */
  lemma NextReads(s: State, j: Request, p: Pid)
    requires Waits(s, j, p) && s.procs[p].pipe != [] && s.procs[p].pipe[0].owner != Some(j)
    ensures Misleads(s)
  {
    var s1 := Apply(s, Do(j, Acquire));
    var s2 := Apply(s1, Do(j, Adopt));
    var s3 := Apply(s2, Do(j, Aim));
    var s4 := Apply(s3, Do(j, Write));
    var rest := ReadsFirst(s4, j, p);
    Then(s3, Do(j, Write), rest);
    Then(s2, Do(j, Aim), [Do(j, Write)] + rest);
    Then(s1, Do(j, Adopt), [Do(j, Aim)] + ([Do(j, Write)] + rest));
    Then(s, Do(j, Acquire), [Do(j, Adopt)] + ([Do(j, Aim)] + ([Do(j, Write)] + rest)));
  }

  lemma MisleadsBefore(s: State, m: Move)
    requires Enabled(s, m) && !CutsShort(m) && Misleads(Apply(s, m))
    ensures Misleads(s)
  {
    var rest :| CanPlay(Apply(s, m), rest) && Gentle(rest) && Misread(End(Apply(s, m), rest));
    Then(s, m, rest);
  }

  /** If the runtime is silent so far and has something to say that is not for `j`, it says it. */
  lemma NextReadsSoon(s: State, j: Request, p: Pid, kind: Kind)
    requires Waits(s, j, p) && s.procs[p].pipe == [] && CanEmit(s.procs[p], kind) && !kind.Failed?
    requires s.procs[p].mode != Busy(j)
    ensures Misleads(s)
  {
    NextReads(Apply(s, Emit(p, kind)), j, p);
    MisleadsBefore(s, Emit(p, kind));
  }

  /* ---------- A start-up cut short ---------- */

  /** An exception that cuts a start-up short leaves something for the next session to misread
      exactly if the runtime being started is at that moment alive and still the worker's. */
  lemma CutShortStartup(s: State, i: Request, j: Request)
    requires Inv(s) && !s.exposed && CanDo(s, i, AbortStartup)
    requires !s.closed && j in s.sessions && s.sessions[j].pc.Outside?
    ensures Misleads(DoStep(s, i, AbortStartup)) <==> Live(s)
  {
    var s' := DoStep(s, i, AbortStartup);
    AbortStartupKeeps(s, i);
    if Live(s) {
      var p := s.process.value;
      var pr := s.procs[p];
      assert SessionInv(s.sessions[j]) && HolderInv(s, i) && StartShape(pr);
      if pr.pipe == [] {
        NextReadsSoon(s', j, p, Ready);
      } else {
        assert pr.pipe[0] in pr.pipe;
        NextReads(s', j, p);
      }
    } else {
      NobodyMisled(s');
    }
  }

  /* ---------- A stream that is dropped ---------- */

  /** The path outside the protocol: the slot is given back while the job runs and nobody retires
      the runtime, because the collector finalizes a stream that was dropped -- or was never
      stored -- or because `submit` is left by an exception after it wrote the request. (The note
      is made that the worker may be left with a dead runtime, as by a start-up cut short.) */
  function Drop(s: State, i: Request): State
    requires i in s.sessions
  {
    With(Release(s.(bootAborted := true), i), i, s.sessions[i].(pc := Gone, reader := Ended))
  }

  /** A stream that is dropped leaves something for the next session to misread exactly if the
      runtime is at that moment alive and still the worker's; and exactly otherwise everything
      the other steps rely on survives. */
  lemma DroppedStream(s: State, i: Request, j: Request)
    requires Inv(s) && !s.exposed && i in s.sessions && s.sessions[i].pc.Streaming?
    requires !s.closed && j in s.sessions && s.sessions[j].pc.Outside?
    ensures Misleads(Drop(s, i)) <==> Live(s)
    ensures Inv(Drop(s, i)) <==> !Live(s)
  {
    var s' := Drop(s, i);
    assert OwnEvents(s, i) && HolderInv(s, i) && SessionInv(s.sessions[i]) && SessionInv(s.sessions[j]);
    var p := s.sessions[i].written.value;
    if Live(s) {
      JobIsNotClean(s.procs[p], i, s.exposed);
      JobIsMisread(s', i, j, p);
    } else {
      NobodyMisled(s');
    }
  }

  /** A job whose end was not read is there for the next session to read. */
  lemma JobIsMisread(s: State, i: Request, j: Request, p: Pid)
    requires Waits(s, j, p) && i != j && JobShape(s.procs[p], i, false)
    ensures Misleads(s)
  {
    var pr := s.procs[p];
    if pr.pipe != [] {
      assert pr.pipe[0] in pr.pipe;
      NextReads(s, j, p);
    } else if pr.mode.Busy? {
      NextReadsSoon(s, j, p, Result);
    } else {
      NextReadsSoon(Apply(s, Take(p)), j, p, Result);
      MisleadsBefore(s, Take(p));
    }
  }

  lemma JobIsNotClean(pr: Proc, i: Request, exposed: bool)
    requires JobShape(pr, i, exposed)
    ensures !Clean(pr, exposed)
  {
    if pr.stdin == [] && pr.mode.Idle? {
      assert pr.pipe[|pr.pipe| - 1] in pr.pipe;
    }
  }

  /* ---------- Both happen ---------- */

  const TWO_SESSIONS := State(None, false, None, map[], 0, map[0 := NEW_SESSION, 1 := NEW_SESSION], false, false)

  /** The state once session 0 has started the first runtime. */
  function Spawned(): State {
    var proc := Proc(true, Booting, [], []);
    State(Some(0), false, Some(0), map[0 := proc], 1,
          map[0 := NEW_SESSION.(pc := Starting(0)), 1 := NEW_SESSION], false, false)
  }

  lemma SpawnedReached(rest: seq<Move>)
    requires CanPlay(Spawned(), rest)
    ensures CanPlay(TWO_SESSIONS, [Do(0, Acquire)] + ([Do(0, Spawn)] + rest))
    ensures End(TWO_SESSIONS, [Do(0, Acquire)] + ([Do(0, Spawn)] + rest)) == End(Spawned(), rest)
  {
    var held := Apply(TWO_SESSIONS, Do(0, Acquire));
    assert Apply(held, Do(0, Spawn)) == Spawned();
    Then(held, Do(0, Spawn), rest);
    Then(TWO_SESSIONS, Do(0, Acquire), [Do(0, Spawn)] + rest);
  }

  lemma CutShortReached() returns (rest: seq<Move>)
    ensures CanDo(Spawned(), 0, AbortStartup) && CanPlay(DoStep(Spawned(), 0, AbortStartup), rest)
    ensures Misread(End(DoStep(Spawned(), 0, AbortStartup), rest))
  {
    CutShortStartup(Spawned(), 0, 1);
    var s' := DoStep(Spawned(), 0, AbortStartup);
    rest :| CanPlay(s', rest) && Gentle(rest) && Misread(End(s', rest));
  }

  /** A run in which a session reads what was not emitted for it: another's start-up was cut
      short. */
  lemma SomebodyIsMisled() returns (run: seq<State>)
    ensures IsRun(run) && Misread(run[|run| - 1])
  {
    var rest := CutShortReached();
    Then(Spawned(), Do(0, AbortStartup), rest);
    SpawnedReached([Do(0, AbortStartup)] + rest);
    run := Played(TWO_SESSIONS, [Do(0, Acquire)] + ([Do(0, Spawn)] + ([Do(0, AbortStartup)] + rest)));
  }

  /** A run to a state in which the stream of session 0, once dropped, leaves its job's events for
      session 1. */
  lemma DroppedJobIsMisread() returns (run: seq<State>)
    ensures IsRun(run) && 0 in run[|run| - 1].sessions && run[|run| - 1].sessions[0].pc.Streaming?
    ensures Misleads(Drop(run[|run| - 1], 0))
  {
    var s := Spawned();
    var s1 := Apply(s, Emit(0, Ready));
    var s2 := Apply(s1, Do(0, ReadStartup(false)));
    var s3 := Apply(s2, Do(0, Aim));
    var s4 := Apply(s3, Do(0, Write));
    Then(s3, Do(0, Write), []);
    Then(s2, Do(0, Aim), [Do(0, Write)]);
    Then(s1, Do(0, ReadStartup(false)), [Do(0, Aim)] + [Do(0, Write)]);
    Then(s, Emit(0, Ready), [Do(0, ReadStartup(false))] + ([Do(0, Aim)] + [Do(0, Write)]));
    var rest := [Emit(0, Ready)] + ([Do(0, ReadStartup(false))] + ([Do(0, Aim)] + [Do(0, Write)]));
    SpawnedReached(rest);
    run := Played(TWO_SESSIONS, [Do(0, Acquire)] + ([Do(0, Spawn)] + rest));
    RunKeeps(run, |run| - 1);
    DroppedStream(s4, 0, 1);
  }

  /* ---------- To a runtime that is warm, and to a job that is done ---------- */

  /** Session 0 has started the first runtime. */
  function Started(): State {
    State(Some(0), false, Some(0), map[0 := Proc(true, Idle, [], [])], 1,
          map[0 := NEW_SESSION.(pc := Pc.Started), 1 := NEW_SESSION], false, false)
  }

  /** A move of a job of session 0 that is not the reading of an event, or of a runtime. */
  predicate OfJob(m: Move) {
    m.Emit? || m.Take? || (m.Do? && m.i == 0 && !m.act.Read? && !m.act.Retire?)
  }

  predicate AllOfJob(moves: seq<Move>) {
    forall m :: m in moves ==> OfJob(m)
  }

  lemma StartedReached(rest: seq<Move>) returns (moves: seq<Move>)
    requires CanPlay(Started(), rest)
    ensures moves == [Do(0, Acquire)] + ([Do(0, Spawn)] + ([Emit(0, Ready)] + ([Do(0, ReadStartup(false))] + rest)))
    ensures CanPlay(TWO_SESSIONS, moves) && End(TWO_SESSIONS, moves) == End(Started(), rest)
    ensures AllOfJob(rest) ==> AllOfJob(moves)
  {
    var announced := Apply(Spawned(), Emit(0, Ready));
    assert announced.procs[0].pipe == [Event(None, Ready)];
    var ready := Apply(announced, Do(0, ReadStartup(false)));
    assert [Event(None, Ready)][1..] == [];
    assert ready.procs[0] == Proc(true, Idle, [], []) && ready.procs.Keys == {0};
    assert ready.procs == Started().procs;
    assert ready.sessions == Started().sessions;
    Then(announced, Do(0, ReadStartup(false)), rest);
    Then(Spawned(), Emit(0, Ready), [Do(0, ReadStartup(false))] + rest);
    SpawnedReached([Emit(0, Ready)] + ([Do(0, ReadStartup(false))] + rest));
    moves := [Do(0, Acquire)] + ([Do(0, Spawn)] + ([Emit(0, Ready)] + ([Do(0, ReadStartup(false))] + rest)));
  }

  /** The moves by which session 0 starts the runtime and lets go of it. */
  lemma WarmMoves() returns (moves: seq<Move>)
    ensures CanPlay(TWO_SESSIONS, moves)
    ensures forall m :: m in moves ==>
              || m.Emit?
              || (m.Do? && m.i == 0 && (m.act.Acquire? || m.act.Spawn? || m.act.ReadStartup? || m.act.GiveBack?))
    ensures var s := End(TWO_SESSIONS, moves);
            s.holder == None && s.sessions.Keys == {0, 1} && s.sessions[0].pc.Gone? && s.sessions[1].pc.Outside?
  {
    Then(Started(), Do(0, GiveBack), []);
    assert [Do(0, GiveBack)] + [] == [Do(0, GiveBack)];
    moves := StartedReached([Do(0, GiveBack)]);
  }

  /** Session 0 has made its request, and the runtime is at it. */
  function Running(): State {
    State(Some(0), false, Some(0), map[0 := Proc(true, Busy(0), [], [])], 1,
          map[0 := NEW_SESSION.(pc := Streaming, written := Some(0)), 1 := NEW_SESSION], false, false)
  }

  lemma RunningNext()
    ensures CanPlay(Started(), [Do(0, Aim)]) && Enabled(Apply(Started(), Do(0, Aim)), Do(0, Write))
    ensures var written := Apply(Apply(Started(), Do(0, Aim)), Do(0, Write));
            Enabled(written, Take(0)) && Apply(written, Take(0)) == Running()
  {
    var written := Apply(Apply(Started(), Do(0, Aim)), Do(0, Write));
    assert [0][1..] == [];
    assert written.procs[0] == Proc(true, Idle, [0], []);
    var running := Apply(written, Take(0));
    assert running.procs == Running().procs;
    assert running.sessions == Running().sessions;
  }

  lemma RunningReached(rest: seq<Move>) returns (moves: seq<Move>)
    requires CanPlay(Running(), rest)
    ensures CanPlay(Started(), moves) && End(Started(), moves) == End(Running(), rest)
    ensures AllOfJob(rest) ==> AllOfJob(moves)
  {
    var aimed := Apply(Started(), Do(0, Aim));
    var written := Apply(aimed, Do(0, Write));
    RunningNext();
    Then(written, Take(0), rest);
    Then(aimed, Do(0, Write), [Take(0)] + rest);
    Then(Started(), Do(0, Aim), [Do(0, Write)] + ([Take(0)] + rest));
    moves := [Do(0, Aim)] + ([Do(0, Write)] + ([Take(0)] + rest));
  }

  /** The request is completed, and session 0 has opened its stream. */
  function Finishing(): State {
    State(Some(0), false, Some(0), map[0 := Proc(true, Idle, [], [Event(Some(0), Completed)])], 1,
          map[0 := NEW_SESSION.(pc := Streaming, written := Some(0), reader := Reading(0)), 1 := NEW_SESSION],
          false, false)
  }

  lemma FinishingReached() returns (moves: seq<Move>)
    ensures CanPlay(Running(), moves) && End(Running(), moves) == Finishing() && AllOfJob(moves)
  {
    var said := Apply(Running(), Emit(0, Completed));
    assert said.procs[0] == Finishing().procs[0];
    assert said.procs == Finishing().procs;
    var done := Apply(said, Do(0, Open));
    assert done.sessions == Finishing().sessions;
    Then(said, Do(0, Open), []);
    Then(Running(), Emit(0, Completed), [Do(0, Open)]);
    moves := [Emit(0, Completed)] + [Do(0, Open)];
  }

  /** The moves by which session 0 makes its request, which the runtime completes, and opens its
      stream. */
  lemma CompletedMoves() returns (moves: seq<Move>)
    ensures CanPlay(TWO_SESSIONS, moves) && End(TWO_SESSIONS, moves) == Finishing() && AllOfJob(moves)
  {
    moves := FinishingReached();
    moves := RunningReached(moves);
    moves := StartedReached(moves);
  }
}
