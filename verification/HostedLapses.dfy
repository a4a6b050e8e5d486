/** Where an operation of a `HostedBeatWorker` reads what is another's: after an operation that was
    left early, and when a status frame comes late (hornlab_beat_bem/worker_client.py, worker.py).
    For both it is decided exactly when it can be. */
module HostedLapses {
  import opened Prelude
  import W = Workers
  import L = WorkerLapses
  import H = Host
  import opened HostedStreams
  import opened HostedStreamProofs

  /* ---------- What an early leave does ---------- */

  /** With every operation so far read to its last frame, no answer is owed. (A status frame may
      still come: `StatusStrays`.) */
  lemma NothingOwed(s: State)
    requires Inv(s) && s.conn.Some? && s.current.None? && !s.dirty && !s.broken
    ensures !Owing(s)
  {
  }

  /** An operation left with its connection open has left at least its last frame to come. */
  lemma LeavingOwes(s: State)
    requires Inv(s) && Enabled(s, LeaveEarly) && !s.dirty && !s.broken
    ensures Owing(Apply(s, LeaveEarly))
  {
  }

  /** Nobody else takes that frame off the connection. */
  lemma OwingStays(s: State, m: Move)
    requires Owing(s) && s.current.None? && s.conn.Some? && Enabled(s, m)
    requires Apply(s, m).current.None? && Apply(s, m).conn.Some?
    ensures Owing(Apply(s, m)) && Apply(s, m).conn == s.conn
  {
    WireGrows(s, m);
    var s' := Apply(s, m);
    if s'.wire != s.wire {
      AnswersAppend(s.wire, s'.wire[|s.wire|]);
    }
  }

  /** While no operation reads, frames are only added, one at a time, and what is answered was
      answered with one. */
  lemma WireGrows(s: State, m: Move)
    requires s.current.None? && s.conn.Some? && Enabled(s, m)
    requires Apply(s, m).current.None? && Apply(s, m).conn.Some?
    ensures Grew(s, Apply(s, m))
  {
    if m.ByHost? {
      HostGrows(s, m.move);
    }
  }

  predicate Grew(s: State, s': State) {
    && s'.conn == s.conn
    && (s'.wire == s.wire || (|s'.wire| == |s.wire| + 1 && s'.wire == s.wire + [s'.wire[|s.wire|]]))
    && (s'.asked != s.asked && s'.answered ==> s'.wire != s.wire)
    && (s'.answered != s.answered && s'.answered ==> s'.wire != s.wire)
    && (s'.wire != s.wire && s'.wire[|s.wire|].word.Status? ==>
          s'.answered == s.answered && s'.asked == s.asked)
  }

  lemma HostGrows(s: State, m: H.Move)
    requires s.conn.Some? && Enabled(s, ByHost(m))
    ensures Grew(s, Apply(s, ByHost(m)))
  {
  }

  lemma OwingNext(s: State, s': State)
    requires Next(s, s') && Owing(s) && s.conn.Some? && s.current.None? && s'.conn.Some? && s'.current.None?
    ensures Owing(s')
  {
    var m :| Enabled(s, m) && s' == Apply(s, m);
    OwingStays(s, m);
  }

  /** So the next operation on a connection after one that was left early reads that one's
      answer first, whenever it comes: here `left` and `n` are the steps by which the one is left and the
      next is sent, and between them the connection stays open and unused. */
  lemma {:induction false} LeftBehind(run: seq<State>, left: nat, n: nat, r: W.Request, kind: H.Kind)
    requires IsRun(run) && left < n < |run| - 1
    requires Enabled(run[left], LeaveEarly) && run[left + 1] == Apply(run[left], LeaveEarly)
    requires !run[left].dirty && !run[left].broken
    requires forall k :: left < k <= n ==> run[k].conn.Some? && run[k].current.None?
    requires Enabled(run[n], Send(r, kind)) && run[n + 1] == Apply(run[n], Send(r, kind))
    ensures r in run[n + 1].behind
  {
    LeftOwes(run, left);
    forall k | left < k < n && Owing(run[k]) ensures Owing(run[k + 1]) {
      StepOwes(run, k);
    }
    Carry(run, left + 1, n);
    SentBehind(run[n], r, kind);
  }

  lemma SentBehind(s: State, r: W.Request, kind: H.Kind)
    requires Enabled(s, Send(r, kind)) && Owing(s)
    ensures r in Apply(s, Send(r, kind)).behind
  {
  }

  lemma LeftOwes(run: seq<State>, left: nat)
    requires IsRun(run) && left + 1 < |run| && Enabled(run[left], LeaveEarly)
    requires run[left + 1] == Apply(run[left], LeaveEarly) && !run[left].dirty && !run[left].broken
    ensures Owing(run[left + 1])
  {
    RunKeeps(run, left);
    LeavingOwes(run[left]);
  }

  lemma StepOwes(run: seq<State>, k: nat)
    requires IsRun(run) && k + 1 < |run| && Owing(run[k])
    requires run[k].conn.Some? && run[k].current.None? && run[k + 1].conn.Some? && run[k + 1].current.None?
    ensures Owing(run[k + 1])
  {
    assert Next(run[k], run[k + 1]);
    OwingNext(run[k], run[k + 1]);
  }

  lemma {:induction false} Carry(run: seq<State>, from: nat, n: nat)
    requires from <= n < |run| && Owing(run[from])
    requires forall k :: from <= k < n && Owing(run[k]) ==> Owing(run[k + 1])
    ensures Owing(run[n])
    decreases n
  {
    if from < n {
      Carry(run, from, n - 1);
    }
  }

  /* ---------- What a late status frame does ---------- */

  predicate CanPlay(s: State, moves: seq<Move>)
    decreases |moves|
  {
    moves == [] || (Enabled(s, moves[0]) && CanPlay(Apply(s, moves[0]), moves[1..]))
  }

  function End(s: State, moves: seq<Move>): State
    requires CanPlay(s, moves)
    decreases |moves|
  {
    if moves == [] then s else End(Apply(s, moves[0]), moves[1..])
  }

  lemma Then(s: State, m: Move, rest: seq<Move>)
    requires Enabled(s, m) && CanPlay(Apply(s, m), rest)
    ensures CanPlay(s, [m] + rest) && End(s, [m] + rest) == End(Apply(s, m), rest)
  {
    assert ([m] + rest)[1..] == rest;
  }

  /** Operation `q` has read a frame that answers another. */
  predicate ReadsForeign(s: State, q: W.Request) {
    q in s.logs && exists k :: 0 <= k < |s.logs[q]| && s.logs[q][k].op != q
  }

  ghost predicate Misleads(s: State, q: W.Request) {
    exists moves :: CanPlay(s, moves) && ReadsForeign(End(s, moves), q)
  }

  lemma MisleadsBefore(s: State, m: Move, q: W.Request)
    requires Enabled(s, m) && Misleads(Apply(s, m), q)
    ensures Misleads(s, q)
  {
    var rest :| CanPlay(Apply(s, m), rest) && ReadsForeign(End(Apply(s, m), rest), q);
    Then(s, m, rest);
  }

  /** The first frame on the wire is not `q`'s, and `q` reads. */
  lemma NextReads(s: State, q: W.Request)
    requires Enabled(s, Read) && s.current == Some(q) && s.wire[0].op != q
    ensures Misleads(s, q)
  {
    var s' := Apply(s, Read);
    assert s'.logs[q][|s.logs[q]|] == s.wire[0];
    assert ReadsForeign(End(s', []), q);
    MisleadsBefore(s, Read, q);
  }

  /** A thread calls the status callback of an earlier operation. */
  lemma NextIsCalled(s: State, q: W.Request, r: W.Request)
    requires s.conn.Some? && !s.broken && r in s.pending && r != q && s.wire == []
    requires s.current == Some(q) && q in s.kinds && q in s.logs
    ensures Misleads(s, q)
  {
    NextReads(Apply(s, Call(r)), q);
    MisleadsBefore(s, Call(r), q);
  }

  lemma StrayIsRead(s: State, q: W.Request, kind: H.Kind)
    requires Inv(s) && Enabled(s, Send(q, kind)) && MayStray(s)
    ensures Misleads(Apply(s, Send(q, kind)), q)
  {
    var s' := Apply(s, Send(q, kind));
    if s.wire != [] {
      assert s.wire[0] in s.wire;
      NextReads(s', q);
    } else if s.pending != multiset{} {
      var r :| r in s.pending;
      NextIsCalled(s', q, r);
    } else {
      var r := s.host.clients[s.conn.value].request;
      NextIsCalled(Apply(s', TakeUp), q, r);
      MisleadsBefore(s', TakeUp, q);
    }
  }

  /** How an operation was sent is noted once. */
  lemma NotesStay(s: State, m: Move, q: W.Request)
    requires Enabled(s, m) && q in s.kinds
    ensures q in Apply(s, m).kinds
    ensures (q in Apply(s, m).behind <==> q in s.behind) && (q in Apply(s, m).stray <==> q in s.stray)
  {
    if m.ByHost? {
      HostNotes(s, m.move);
    }
  }

  lemma HostNotes(s: State, m: H.Move)
    requires Enabled(s, ByHost(m))
    ensures var s' := Apply(s, ByHost(m)); s'.kinds == s.kinds && s'.behind == s.behind && s'.stray == s.stray
  {
  }

  lemma {:induction false} OwnStays(s: State, moves: seq<Move>, q: W.Request)
    requires Inv(s) && CanPlay(s, moves) && q in s.kinds && q !in s.behind && q !in s.stray
    ensures !ReadsForeign(End(s, moves), q)
    decreases |moves|
  {
    if moves == [] {
      assert q in s.logs;
    } else {
      StepKeeps(s, moves[0]);
      NotesStay(s, moves[0], q);
      OwnStays(Apply(s, moves[0]), moves[1..], q);
    }
  }

  /** An operation sent when no answer is owed can read a frame that is not its own exactly if one
      is on the wire, or, with the connection whole, some thread has taken up the status callback
      of an earlier operation, or the host's thread is still in one that has the engine. By
      `OwnFrames` it is then a status frame. */
  lemma StatusStrays(s: State, q: W.Request, kind: H.Kind)
    requires Inv(s) && Enabled(s, Send(q, kind)) && !Owing(s)
    ensures Misleads(Apply(s, Send(q, kind)), q) <==> MayStray(s)
  {
    var s' := Apply(s, Send(q, kind));
    if MayStray(s) {
      StrayIsRead(s, q, kind);
    } else {
      StepKeeps(s, Send(q, kind));
      forall moves | CanPlay(s', moves) ensures !ReadsForeign(End(s', moves), q) {
        OwnStays(s', moves, q);
      }
    }
  }

  /* ---------- Both happen ---------- */

  lemma Extend(run: seq<State>, m: Move) returns (run': seq<State>)
    requires IsRun(run) && Enabled(run[|run| - 1], m)
    ensures IsRun(run') && run'[|run'| - 1] == Apply(run[|run| - 1], m)
  {
    var next := Apply(run[|run| - 1], m);
    run' := run + [next];
    assert Next(run[|run| - 1], next);
    forall k | 0 <= k < |run'| - 1 ensures Next(run'[k], run'[k + 1]) {
      assert k < |run| - 1 ==> Next(run[k], run[k + 1]);
    }
  }

  lemma {:induction false} ExtendAll(run: seq<State>, moves: seq<Move>) returns (run': seq<State>)
    requires IsRun(run) && CanPlay(run[|run| - 1], moves)
    ensures IsRun(run') && run'[|run'| - 1] == End(run[|run| - 1], moves)
    decreases |moves|
  {
    if moves == [] {
      run' := run;
    } else {
      run' := Extend(run, moves[0]);
      run' := ExtendAll(run', moves[1..]);
    }
  }

  /** A host with one client, whose thread is at `pc`, and two operations to come on it. */
  function OneClient(e: W.State, pc: H.Pc): H.State {
    H.State(e, map[0 := H.Job(0), 1 := H.Job(0)], map[], if H.HasLock(pc) then Some(0) else None, map[0 := pc],
            if H.Greeted(pc) || pc.Counted? then 1 else 0, 0, pc.InJob?, 0.0, 0.0, 1.0, false)
  }

  function Fresh(pc: H.Pc): State {
    State(OneClient(L.TWO_SESSIONS, pc), None, [], true, false, [], multiset{}, None, map[], map[], false, {}, {})
  }

  /** The first of them was sent, and nothing of it was read. */
  function First(e: W.State, pc: H.Pc, kind: H.Kind, asked: seq<W.Request>, wire: seq<Frame>): State {
    State(OneClient(e, pc), Some(0), asked, asked != [], false, wire, multiset{}, Some(0), map[0 := kind],
          map[0 := []], false, {}, {})
  }

  lemma GreetedReached() returns (run: seq<State>)
    ensures IsRun(run) && run[|run| - 1] == Fresh(H.Reading)
  {
    run := [Fresh(H.Fresh)];
    GreetedHost();
    run := Extend(run, ByHost(H.Greet(0)));
    run := Extend(run, ByHost(H.Hello(0, true)));
  }

  lemma GreetedHost()
    ensures var h := OneClient(L.TWO_SESSIONS, H.Fresh);
            && H.Init(h) && H.Enabled(h, H.Greet(0)) && H.Apply(h, H.Greet(0)) == OneClient(L.TWO_SESSIONS, H.Counted)
    ensures var h := OneClient(L.TWO_SESSIONS, H.Counted);
            H.Enabled(h, H.Hello(0, true)) && H.Apply(h, H.Hello(0, true)) == OneClient(L.TWO_SESSIONS, H.Reading)
  {
  }

  /** The host's thread takes an operation up. */
  lemma BegunHost(kind: H.Kind)
    ensures var h := OneClient(L.TWO_SESSIONS, H.Reading);
            && H.Enabled(h, H.Ask(0, 0, kind))
            && H.Apply(h, H.Ask(0, 0, kind)) == OneClient(L.TWO_SESSIONS, H.Wanting(0, kind))
    ensures var h := OneClient(L.TWO_SESSIONS, H.Wanting(0, kind));
            && H.Enabled(h, H.LockJob(0)) && H.Apply(h, H.LockJob(0)) == OneClient(L.TWO_SESSIONS, H.Locked(0, kind))
    ensures var h := OneClient(L.TWO_SESSIONS, H.Locked(0, kind));
            && H.Enabled(h, H.Begin(0)) && H.Apply(h, H.Begin(0)) == OneClient(L.TWO_SESSIONS, H.InJob(0, kind))
  {
  }

  lemma SentReached(kind: H.Kind) returns (run: seq<State>)
    ensures IsRun(run) && run[|run| - 1] == First(L.TWO_SESSIONS, H.Wanting(0, kind), kind, [], [])
  {
    run := GreetedReached();
    run := Extend(run, Connect(0));
    run := Extend(run, Send(0, kind));
    assert run[|run| - 1] == First(L.TWO_SESSIONS, H.Reading, kind, [0], []);
    BegunHost(kind);
    run := Extend(run, ByHost(H.Ask(0, 0, kind)));
  }

  lemma BegunReached(kind: H.Kind) returns (run: seq<State>)
    ensures IsRun(run) && run[|run| - 1] == First(L.TWO_SESSIONS, H.InJob(0, kind), kind, [], [])
  {
    run := SentReached(kind);
    BegunHost(kind);
    run := Extend(run, ByHost(H.LockJob(0)));
    run := Extend(run, ByHost(H.Begin(0)));
  }

  /** What the operation's thread and the runtime do to the engine. */
  predicate JobMove(kind: H.Kind, m: W.Move) {
    || (m.Do? && m.i == 0 && (H.StartupAct(m.act) || (kind.Submit? && !m.act.Read? && !m.act.Retire?)))
    || m.Emit? || m.Take? || m.Die?
  }

  lemma {:induction false} JobPlays(run: seq<State>, e: W.State, kind: H.Kind, wire: seq<Frame>, moves: seq<W.Move>)
    returns (run': seq<State>)
    requires IsRun(run) && run[|run| - 1] == First(e, H.InJob(0, kind), kind, [], wire)
    requires L.CanPlay(e, moves) && forall m :: m in moves ==> JobMove(kind, m)
    ensures IsRun(run') && run'[|run'| - 1] == First(L.End(e, moves), H.InJob(0, kind), kind, [], wire)
    decreases |moves|
  {
    if moves == [] {
      run' := run;
    } else {
      var m := moves[0];
      assert m in moves;
      run' := Extend(run, ByHost(if m.Do? then H.Engine(0, m.act) else H.Runtime(m)));
      run' := JobPlays(run', W.Apply(e, m), kind, wire, moves[1..]);
    }
  }

  /** A run in which the start-up is left after its first status frame, and the submission that
      follows on the connection reads the start-up's answer. */
  lemma SubmissionReadsReady() returns (run: seq<State>)
    ensures IsRun(run)
    ensures 1 in run[|run| - 1].kinds && run[|run| - 1].kinds[1] == H.Submit && 1 in run[|run| - 1].logs
    ensures run[|run| - 1].logs[1] == [Frame(0, Ready)]
  {
    run := BegunReached(H.Ensure);
    run := Extend(run, Say(Status));
    var moves := L.WarmMoves();
    run := JobPlays(run, L.TWO_SESSIONS, H.Ensure, [Frame(0, Status)], moves);
    run := Extend(run, Read);
    run := Extend(run, LeaveEarly);
    run := Extend(run, Say(Ready));
    run := Extend(run, Send(1, H.Submit));
    run := Extend(run, Read);
  }

  /** A run to a state in which a submission was read to its last frame, and its thread is still in
      it and has the engine. */
  lemma CompletedReached() returns (run: seq<State>)
    ensures IsRun(run)
    ensures var s := run[|run| - 1];
            !Owing(s) && s.behind == {} && Rings(s) && !s.broken && Enabled(s, Send(1, H.Submit))
  {
    run := JobDone();
    LastRelayed();
    run := Extend(run, ByHost(H.Relay(0, true)));
    run := Extend(run, Read);
  }

  /** The job's last event is there to be relayed. */
  function Done(): State {
    First(L.Finishing(), H.InJob(0, H.Submit), H.Submit, [], [])
  }

  lemma JobDone() returns (run: seq<State>)
    ensures IsRun(run) && run[|run| - 1] == Done()
  {
    run := BegunReached(H.Submit);
    var moves := L.CompletedMoves();
    forall m | m in moves ensures JobMove(H.Submit, m) {
      assert L.OfJob(m);
    }
    run := JobPlays(run, L.TWO_SESSIONS, H.Submit, [], moves);
  }

  lemma LastRelayed()
    ensures Enabled(Done(), ByHost(H.Relay(0, true)))
    ensures var s' := Apply(Done(), ByHost(H.Relay(0, true)));
            && s'.wire == [Frame(0, Solver(W.Event(Some(0), W.Completed)))] && s'.answered && Rings(s')
            && s' == Done().(host := s'.host, wire := s'.wire, answered := true) && s'.host.roles == Done().host.roles
  {
  }

  /** A run in which no answer was owed when the second submission was sent, and it reads a frame of
      the first. */
  lemma SubmissionReadsStatus() returns (run: seq<State>)
    ensures IsRun(run) && ReadsForeign(run[|run| - 1], 1) && 1 !in run[|run| - 1].behind
  {
    run := CompletedReached();
    var s := run[|run| - 1];
    RunKeeps(run, |run| - 1);
    StatusStrays(s, 1, H.Submit);
    run := Extend(run, Send(1, H.Submit));
    var s' := run[|run| - 1];
    var moves :| CanPlay(s', moves) && ReadsForeign(End(s', moves), 1);
    run := ExtendAll(run, moves);
    NotesStayAll(s', moves, 1);
  }

  lemma {:induction false} NotesStayAll(s: State, moves: seq<Move>, q: W.Request)
    requires CanPlay(s, moves) && q in s.kinds
    ensures q in End(s, moves).behind <==> q in s.behind
    decreases |moves|
  {
    if moves != [] {
      NotesStay(s, moves[0], q);
      NotesStayAll(Apply(s, moves[0]), moves[1..], q);
    }
  }
}
