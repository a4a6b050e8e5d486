/** What an operation of a `HostedBeatWorker` reads of its job is what the host sent of it, which is
    what the runtimes said of it: every event in order, each once (worker_client.py, worker_host.py,
    worker.py of hornlab_beat_bem). */
module HostedFidelity {
  import opened Prelude
  import W = Workers
  import F = WorkerFidelity
  import H = Host
  import HP = HostProofs
  import HF = HostFidelity
  import opened HostedStreams
  import HSP = HostedStreamProofs

  /** The solver events of the frames that answer operation `r`. */
  function Events(frames: seq<Frame>, r: W.Request): seq<W.Event> {
    if frames == [] then []
    else (if frames[0].op == r && frames[0].word.Solver? then [frames[0].word.event] else []) + Events(frames[1..], r)
  }

  /** All the solver events there are, which is what the client's code goes by. */
  function Solved(frames: seq<Frame>): seq<W.Event> {
    if frames == [] then []
    else (if frames[0].word.Solver? then [frames[0].word.event] else []) + Solved(frames[1..])
  }

  /** What a frame adds. */
  function Carried(f: Frame, r: W.Request): seq<W.Event> {
    if f.op == r && f.word.Solver? then [f.word.event] else []
  }

  lemma {:induction false} EventsAppend(frames: seq<Frame>, f: Frame, r: W.Request)
    ensures Events(frames + [f], r) == Events(frames, r) + Carried(f, r)
  {
    if frames == [] {
      assert frames + [f] == [f];
    } else {
      assert (frames + [f])[0] == frames[0] && (frames + [f])[1..] == frames[1..] + [f];
      EventsAppend(frames[1..], f, r);
      F.Regroup(Carried(frames[0], r), Events(frames[1..], r), Carried(f, r));
    }
  }

  lemma {:induction false} NoEvents(frames: seq<Frame>, r: W.Request)
    requires forall f :: f in frames ==> f.op != r
    ensures Events(frames, r) == []
  {
    if frames != [] {
      NoEvents(frames[1..], r);
    }
  }

  lemma {:induction false} OnlyOwn(frames: seq<Frame>, r: W.Request)
    requires forall f :: f in frames ==> f.op == r
    ensures Solved(frames) == Events(frames, r)
  {
    if frames != [] {
      OnlyOwn(frames[1..], r);
    }
  }

  /** Reading a frame moves its event from the wire to what was read. */
  lemma EventsPopped(log: seq<Frame>, wire: seq<Frame>, r: W.Request)
    requires wire != []
    ensures Events(log + [wire[0]], r) + Events(wire[1..], r) == Events(log, r) + Events(wire, r)
  {
    EventsAppend(log, wire[0], r);
    F.Regroup(Events(log, r), Carried(wire[0], r), Events(wire[1..], r));
  }

  /* ---------- The invariant ---------- */

  /** Operation `r` has read the beginning of what the host sent for it; and while it is the current
      one, the rest is on the wire. */
  ghost predicate Reads(s: State, r: W.Request)
    requires r in s.logs
  {
    && r in s.host.engine.sessions && Events(s.logs[r], r) <= H.Sent(s.host, r)
    && (s.current == Some(r) ==>
          && s.conn.Some? && r in s.host.roles && s.host.roles[r] == H.Job(s.conn.value)
          && Events(s.logs[r], r) + Events(s.wire, r) == H.Sent(s.host, r))
  }

  ghost predicate AllRead(s: State) {
    forall r :: r in s.logs ==> Reads(s, r)
  }

  /* ---------- Every step keeps it ---------- */

  lemma SessionsStay(h: H.State, m: H.Move)
    requires H.Enabled(h, m)
    ensures H.Apply(h, m).engine.sessions.Keys == h.engine.sessions.Keys
  {
    var first, second := HP.EngineRuns(h, m);
    if first.Some? {
      EngineSessions(h.engine, first.value);
      if second.Some? {
        EngineSessions(W.Apply(h.engine, first.value), second.value);
      }
    }
  }

  lemma EngineSessions(e: W.State, m: W.Move)
    requires W.Enabled(e, m)
    ensures W.Apply(e, m).sessions.Keys == e.sessions.Keys
  {
    if m.Do? {
      HP.DoFrame(e, m.i, m.act);
    }
  }

  /** A step of the host sends the event of a delivered relay ... */
  lemma RelaySends(h: H.State, c: H.Client, delivered: bool, r: W.Request)
    requires H.Enabled(h, H.Relay(c, delivered))
    ensures var h', i := H.Apply(h, H.Relay(c, delivered)), h.clients[c].request;
            && h'.roles == h.roles
            && (delivered ==> Relayed(h', i).Some?)
            && H.Sent(h', r) == H.Sent(h, r) + if delivered && r == i then [Relayed(h', i).value] else []
  {
  }

  /** ... and nothing else. */
  lemma SendsNothing(h: H.State, m: H.Move)
    requires H.Enabled(h, m) && !m.Relay?
    ensures H.Apply(h, m).roles == h.roles && H.Apply(h, m).sent == h.sent
  {
    if HP.MovesEngine(m) {
      EngineSendsNothing(h, m);
    }
  }

  lemma EngineSendsNothing(h: H.State, m: H.Move)
    requires H.Enabled(h, m) && !m.Relay? && HP.MovesEngine(m)
    ensures H.Apply(h, m).roles == h.roles && H.Apply(h, m).sent == h.sent
  {
  }

  /** The relayed request is the connection's own. */
  lemma RelayedFor(h: H.State, m: H.Move)
    requires H.Inv(h) && H.Enabled(h, m) && m.Relay?
    ensures h.clients[m.c].request in h.roles && h.roles[h.clients[m.c].request] == H.Job(m.c)
  {
    assert H.ClientInv(h, m.c);
  }

  lemma HostReads(s: State, m: H.Move, r: W.Request)
    requires H.Inv(s.host) && Enabled(s, ByHost(m)) && r in s.logs && Reads(s, r)
    ensures Reads(Apply(s, ByHost(m)), r)
  {
    if m.Relay? && s.conn == Some(m.c) {
      RelayReads(s, m, r);
    } else if m.Relay? {
      RelaysElsewhere(s, m, r);
    } else {
      OtherStep(s, m);
      SendsNothing(s.host, m);
      SessionsStay(s.host, m);
      SentMore(s, Apply(s, ByHost(m)), r);
    }
  }

  /** The host sent nothing for `r`, or something while no operation could read it. */
  lemma SentMore(s: State, s': State, r: W.Request)
    requires r in s.logs && Reads(s, r) && s'.host.roles == s.host.roles
    requires s'.host.engine.sessions.Keys == s.host.engine.sessions.Keys
    requires s'.logs == s.logs && s'.current == s.current && s'.conn == s.conn && s'.wire == s.wire
    requires H.Sent(s.host, r) <= H.Sent(s'.host, r)
    requires s.current == Some(r) ==> H.Sent(s'.host, r) == H.Sent(s.host, r)
    ensures Reads(s', r)
  {
  }

  lemma OtherStep(s: State, m: H.Move)
    requires Enabled(s, ByHost(m)) && !(m.Relay? && s.conn == Some(m.c))
    ensures var s' := Apply(s, ByHost(m));
            && s'.host == H.Apply(s.host, m) && s'.logs == s.logs && s'.current == s.current && s'.conn == s.conn
            && s'.wire == s.wire
  {
  }

  lemma RelaysElsewhere(s: State, m: H.Move, r: W.Request)
    requires H.Inv(s.host) && Enabled(s, ByHost(m)) && m.Relay? && s.conn != Some(m.c) && r in s.logs && Reads(s, r)
    ensures Reads(Apply(s, ByHost(m)), r)
  {
    OtherStep(s, m);
    RelaySends(s.host, m.c, m.delivered, r);
    RelayedFor(s.host, m);
    SessionsStay(s.host, m);
    SentMore(s, Apply(s, ByHost(m)), r);
  }

  lemma RelayReads(s: State, m: H.Move, r: W.Request)
    requires Enabled(s, ByHost(m)) && m.Relay? && s.conn == Some(m.c) && r in s.logs && Reads(s, r)
    ensures Reads(Apply(s, ByHost(m)), r)
  {
    var s', i := Apply(s, ByHost(m)), s.host.clients[m.c].request;
    SessionsStay(s.host, m);
    RelaySends(s.host, m.c, m.delivered, r);
    if m.delivered {
      var f := Frame(i, Solver(Relayed(s'.host, i).value));
      EventsAppend(s.wire, f, r);
      F.Regroup(Events(s.logs[r], r), Events(s.wire, r), Carried(f, r));
    }
  }

  lemma ClientReads(s: State, m: Move, r: W.Request)
    requires Known(s) && Enabled(s, m) && !m.ByHost? && r in s.logs && Reads(s, r)
    ensures Reads(Apply(s, m), r)
  {
    if m.Read? {
      ReadReads(s, r);
    } else if m.Decline? {
      FrameReads(s, Apply(s, m), Frame(s.asked[0], Failed), r);
    } else if m.Say? {
      FrameReads(s, Apply(s, m), Frame(s.host.clients[s.conn.value].request, m.word), r);
    } else if m.Call? {
      FrameReads(s, Apply(s, m), Frame(m.r, Status), r);
    } else {
      NothingReads(s, m, r);
    }
  }

  lemma ReadReads(s: State, r: W.Request)
    requires Known(s) && Enabled(s, Read) && r in s.logs && Reads(s, r)
    ensures Reads(Apply(s, Read), r)
  {
    if s.current == Some(r) {
      EventsPopped(s.logs[r], s.wire, r);
    }
  }

  /** A frame that carries no solver event is put on the wire. */
  lemma FrameReads(s: State, s': State, f: Frame, r: W.Request)
    requires r in s.logs && Reads(s, r) && !f.word.Solver?
    requires s' == s.(asked := s'.asked, answered := s'.answered, pending := s'.pending, wire := s.wire + [f])
    ensures Reads(s', r)
  {
    EventsAppend(s.wire, f, r);
  }

  lemma NothingReads(s: State, m: Move, r: W.Request)
    requires Known(s) && Enabled(s, m) && r in s.logs && Reads(s, r)
    requires m.Connect? || m.Send? || m.LeaveEarly? || m.Close? || m.TakeUp?
    ensures Reads(Apply(s, m), r)
  {
  }

  /** A new operation has nothing to read yet. */
  lemma SendReads(s: State, r: W.Request, kind: H.Kind)
    requires Known(s) && Enabled(s, Send(r, kind)) && H.Sent(s.host, r) == []
    ensures Reads(Apply(s, Send(r, kind)), r)
  {
    NoEvents(s.wire, r);
  }

  lemma SendsRead(s: State, r: W.Request, kind: H.Kind)
    requires Known(s) && AllRead(s) && Enabled(s, Send(r, kind)) && H.Sent(s.host, r) == []
    ensures AllRead(Apply(s, Send(r, kind)))
  {
    SendReads(s, r, kind);
    forall q | q in s.logs ensures Reads(Apply(s, Send(r, kind)), q) {
      ClientReads(s, Send(r, kind), q);
    }
  }

  lemma LogsStay(s: State, m: Move)
    requires Enabled(s, m) && !m.Send?
    ensures Apply(s, m).logs.Keys == s.logs.Keys
  {
    if m.ByHost? {
      HostLogsStay(s, m.move);
    }
  }

  lemma HostLogsStay(s: State, m: H.Move)
    requires Enabled(s, ByHost(m))
    ensures Apply(s, ByHost(m)).logs == s.logs
  {
  }

  lemma StepReads(s: State, m: Move)
    requires H.Inv(s.host) && Known(s) && AllRead(s) && Enabled(s, m)
    requires m.Send? ==> H.Sent(s.host, m.r) == []
    ensures AllRead(Apply(s, m))
  {
    if m.Send? {
      SendsRead(s, m.r, m.kind);
    } else {
      LogsStay(s, m);
      forall r | r in s.logs ensures Reads(Apply(s, m), r) {
        if m.ByHost? {
          HostReads(s, m.move, r);
        } else {
          ClientReads(s, m, r);
        }
      }
    }
  }

  /* ---------- Every run ---------- */

  /** A run with the moves that made it. */
  ghost predicate Plays(run: seq<State>, moves: seq<Move>) {
    && |run| == |moves| + 1 && Init(run[0])
    && forall k :: 0 <= k < |moves| ==> Enabled(run[k], moves[k]) && run[k + 1] == Apply(run[k], moves[k])
  }

  /** What a move makes a runtime of the host say for request `r`. */
  function Saying(s: State, m: Move, r: W.Request): seq<W.Event> {
    if m.ByHost? then HF.Saying(s.host, m.move, r) else []
  }

  /** All that was said for request `r` in the first `n` steps. */
  ghost function Said(run: seq<State>, moves: seq<Move>, n: nat, r: W.Request): seq<W.Event>
    requires n <= |moves| && |run| == |moves| + 1
  {
    if n == 0 then [] else Said(run, moves, n - 1, r) + Saying(run[n - 1], moves[n - 1], r)
  }

  /** The host has told of `r` what it read, but for a last event that it could not send. */
  predicate HostTold(h: H.State, r: W.Request) {
    HF.Told(h, r, false) || HF.Told(h, r, true)
  }

  ghost predicate AllTold(h: H.State) {
    forall r :: r in h.engine.sessions ==> HostTold(h, r)
  }

  ghost predicate Whole(s: State) {
    Inv(s) && AllRead(s) && AllTold(s.host)
  }

  lemma HostWhole(h: H.State, m: H.Move)
    requires AllTold(h) && H.Enabled(h, m)
    ensures AllTold(H.Apply(h, m))
  {
    SessionsStay(h, m);
    forall r | r in h.engine.sessions ensures HostTold(H.Apply(h, m), r) {
      HF.StepTold(h, m, r, HF.Told(h, r, true));
    }
  }

  lemma StepWhole(s: State, m: Move)
    requires Whole(s) && Enabled(s, m)
    ensures Whole(Apply(s, m))
  {
    HSP.StepKeeps(s, m);
    StepTold(s, m);
    if m.Send? {
      Unseen(s, m.r, m.kind);
    }
    StepReads(s, m);
  }

  lemma StepTold(s: State, m: Move)
    requires AllTold(s.host) && Enabled(s, m)
    ensures AllTold(Apply(s, m).host)
  {
    HSP.HostStands(s, m);
    if m.ByHost? {
      HostWhole(s.host, m.move);
    }
  }

  /** Nothing was sent for an operation that the host has not begun. */
  lemma Unseen(s: State, r: W.Request, kind: H.Kind)
    requires AllTold(s.host) && Enabled(s, Send(r, kind))
    ensures H.Sent(s.host, r) == []
  {
    assert HostTold(s.host, r);
  }

  lemma {:induction false} PlayKeeps(run: seq<State>, moves: seq<Move>, n: nat)
    requires Plays(run, moves) && n <= |moves|
    ensures Whole(run[n])
  {
    if n == 0 {
      H.InitInv(run[0].host);
    } else {
      PlayKeeps(run, moves, n - 1);
      assert run[n - 1 + 1] == Apply(run[n - 1], moves[n - 1]);
      StepWhole(run[n - 1], moves[n - 1]);
    }
  }

  lemma {:induction false} SessionsSame(run: seq<State>, moves: seq<Move>, n: nat)
    requires Plays(run, moves) && n <= |moves|
    ensures run[n].host.engine.sessions.Keys == run[0].host.engine.sessions.Keys
  {
    if n > 0 {
      SessionsSame(run, moves, n - 1);
      assert run[n - 1 + 1] == Apply(run[n - 1], moves[n - 1]);
      SessionsBefore(run[n - 1], moves[n - 1]);
    }
  }

  lemma {:induction false} PlayAccounted(run: seq<State>, moves: seq<Move>, n: nat, r: W.Request)
    requires Plays(run, moves) && n <= |moves| && r in run[0].host.engine.sessions
    ensures F.Accounted(run[n].host.engine, r, Said(run, moves, n, r))
  {
    if n > 0 {
      PlayAccounted(run, moves, n - 1, r);
      MoveAccounted(run, moves, n - 1, r, Said(run, moves, n - 1, r));
    }
  }

  lemma MoveAccounted(run: seq<State>, moves: seq<Move>, n: nat, r: W.Request, said: seq<W.Event>)
    requires Plays(run, moves) && n < |moves| && F.Accounted(run[n].host.engine, r, said)
    ensures F.Accounted(run[n + 1].host.engine, r, said + Saying(run[n], moves[n], r))
  {
    PlayKeeps(run, moves, n);
    StepAccounted(run[n], moves[n], r, said);
  }

  lemma SessionsBefore(s: State, m: Move)
    requires Enabled(s, m)
    ensures Apply(s, m).host.engine.sessions.Keys == s.host.engine.sessions.Keys
  {
    HSP.HostStands(s, m);
    if m.ByHost? {
      SessionsStay(s.host, m.move);
    }
  }

  lemma StepAccounted(s: State, m: Move, r: W.Request, said: seq<W.Event>)
    requires H.Inv(s.host) && Enabled(s, m) && F.Accounted(s.host.engine, r, said)
    ensures F.Accounted(Apply(s, m).host.engine, r, said + Saying(s, m, r))
  {
    HSP.HostStands(s, m);
    assert said + [] == said;
    if m.ByHost? {
      HF.StepAccounted(s.host, m.move, r, said);
    }
  }

  lemma OwnRead(s: State, r: W.Request)
    requires StatusInv(s) && r in s.logs && r !in s.behind && r !in s.stray
    ensures Solved(s.logs[r]) == Events(s.logs[r], r)
    ensures s.current == Some(r) ==> Solved(s.wire) == Events(s.wire, r)
  {
    OnlyOwn(s.logs[r], r);
    if s.current == Some(r) {
      OnlyOwn(s.wire, r);
    }
  }

  lemma LastRead(s: State, r: W.Request)
    requires AllTold(s.host) && r in s.logs && Reads(s, r)
    ensures var read := Events(s.logs[r], r);
            read != [] && W.Terminal(read[|read| - 1].kind) ==> read == H.Sent(s.host, r)
  {
    var read, sent := Events(s.logs[r], r), H.Sent(s.host, r);
    assert HostTold(s.host, r) && sent <= s.host.engine.sessions[r].log;
    if read != [] && W.Terminal(read[|read| - 1].kind) {
      assert s.host.engine.sessions[r].log[|read| - 1] == read[|read| - 1];
    }
  }

  lemma ReadIsSaid(s: State, r: W.Request, said: seq<W.Event>)
    requires H.Inv(s.host) && AllTold(s.host) && r in s.logs && Reads(s, r)
    requires F.Accounted(s.host.engine, r, said) && !s.host.engine.exposed
    ensures Events(s.logs[r], r) <= said
  {
    assert HostTold(s.host, r);
    HF.SentIsSaid(s.host, r, HF.Told(s.host, r, true), said);
  }

  /** In every state of every run: the solver events an operation has read of its own answer are the
      beginning of what the host sent for it, in order and each once, and while it is the current
      operation the rest is on the wire, in order. For an operation that was sent with no answer owed
      and no status frame to stray in, these are all the solver events it reads. And once it has read
      the last event of its job it has read all that was sent. */
  lemma ReadAsSent(run: seq<State>, moves: seq<Move>, n: nat, r: W.Request)
    requires Plays(run, moves) && n <= |moves| && r in run[n].logs
    ensures var s := run[n];
            && Events(s.logs[r], r) <= H.Sent(s.host, r)
            && (s.current == Some(r) ==> Events(s.logs[r], r) + Events(s.wire, r) == H.Sent(s.host, r))
    ensures var s := run[n];
            r !in s.behind && r !in s.stray ==>
              && Solved(s.logs[r]) <= H.Sent(s.host, r)
              && (s.current == Some(r) ==> Solved(s.logs[r]) + Solved(s.wire) == H.Sent(s.host, r))
    ensures var s, read := run[n], Events(run[n].logs[r], r);
            read != [] && W.Terminal(read[|read| - 1].kind) ==> read == H.Sent(s.host, r)
  {
    var s := run[n];
    PlayKeeps(run, moves, n);
    assert Reads(s, r);
    LastRead(s, r);
    if r !in s.behind && r !in s.stray {
      OwnRead(s, r);
    }
  }

  /** ... and, unless a start-up was cut short under a live runtime, it is the beginning of what the
      runtimes said for it: from end to end nothing is skipped, repeated or out of order. */
  lemma ReadAsSaid(run: seq<State>, moves: seq<Move>, n: nat, r: W.Request)
    requires Plays(run, moves) && n <= |moves| && r in run[n].logs && !run[n].host.engine.exposed
    ensures Events(run[n].logs[r], r) <= Said(run, moves, n, r)
  {
    PlayKeeps(run, moves, n);
    assert Reads(run[n], r);
    SessionsSame(run, moves, n);
    PlayAccounted(run, moves, n, r);
    ReadIsSaid(run[n], r, Said(run, moves, n, r));
  }
}
