/** The invariant of the operations of a `HostedBeatWorker`, and whose frames each of them reads. */
module HostedStreamProofs {
  import opened Prelude
  import W = Workers
  import H = Host
  import HP = HostProofs
  import opened HostedStreams

  /* ---------- Answers ---------- */

  lemma {:induction false} AnswersAppend(frames: seq<Frame>, f: Frame)
    ensures Answers(frames + [f]) == Answers(frames) + if f.word.Status? then [] else [f]
  {
    if frames == [] {
      assert frames + [f] == [f];
    } else {
      var tail, head := frames[1..], if frames[0].word.Status? then [] else [frames[0]];
      var last := if f.word.Status? then [] else [f];
      assert (frames + [f])[0] == frames[0] && (frames + [f])[1..] == tail + [f];
      AnswersAppend(tail, f);
      assert head + (Answers(tail) + last) == head + Answers(tail) + last;
    }
  }

  lemma {:induction false} AnswersIn(frames: seq<Frame>, f: Frame)
    ensures f in Answers(frames) <==> f in frames && !f.word.Status?
  {
    if frames != [] {
      AnswersIn(frames[1..], f);
    }
  }

  /* ---------- Every step keeps it ---------- */

  /** Where a step of the host leaves a connection's thread, if it is not the thread's own taking
      of an operation or its end. */
  lemma ThreadStays(h: H.State, m: H.Move, c: H.Client)
    requires H.Enabled(h, m) && c in h.clients
    ensures c in H.Apply(h, m).clients
    ensures !(m.Ask? && m.c == c) && !(m.End? && m.c == c) ==> SameWork(h.clients[c], H.Apply(h, m).clients[c])
  {
    if Moves(m) {
      OneMoves(h, m);
    } else {
      NobodyMoves(h, m);
    }
  }

  predicate SameWork(pc: H.Pc, pc': H.Pc) {
    Busy(pc') == Busy(pc) && (Busy(pc) ==> pc'.request == pc.request && pc'.kind == pc.kind)
  }

  /** A step of the host moves one connection's thread at most. */
  lemma OneMoves(h: H.State, m: H.Move)
    requires H.Enabled(h, m) && Moves(m)
    ensures m.c in h.clients && m.c in H.Apply(h, m).clients
    ensures H.Apply(h, m).clients == h.clients[m.c := H.Apply(h, m).clients[m.c]]
    ensures !m.Ask? && !m.End? ==> SameWork(h.clients[m.c], H.Apply(h, m).clients[m.c])
  {
  }

  lemma NobodyMoves(h: H.State, m: H.Move)
    requires H.Enabled(h, m) && !Moves(m)
    ensures H.Apply(h, m).clients == h.clients
  {
  }

  predicate Moves(m: H.Move) {
    || m.Greet? || m.Refuse? || m.Hello? || m.Ask? || m.LockJob? || m.Begin? || m.End? || m.Unlock? || m.TryRetire?
    || m.RetireForClient? || m.Leave?
  }

  lemma SentGrows(h: H.State, m: H.Move, r: W.Request)
    requires H.Enabled(h, m)
    ensures H.Sent(h, r) <= H.Sent(H.Apply(h, m), r)
    ensures m.Relay? && m.delivered && h.clients[m.c].request == r ==> Relayed(H.Apply(h, m), r).Some?
  {
  }

  /** A frame was added for the operation the host's thread is in. */
  lemma FrameKeeps(s: State, s': State, f: Frame)
    requires LinkInv(s) && s.conn.Some? && !s.broken
    requires s' == s.(host := s'.host, wire := s.wire + [f], answered := s'.answered)
    requires s.conn.value in s'.host.clients && (!s'.answered ==> Busy(s'.host.clients[s.conn.value]))
    requires var pc := s.host.clients[s.conn.value];
             !s.answered && Busy(pc) && pc.request == f.op && s'.host.clients[s.conn.value] == pc
             && (s'.answered <==> Last(pc.kind, f.word))
    ensures LinkInv(s')
  {
    AnswersAppend(s.wire, f);
    if !s.dirty {
      FrameClean(s, s', f);
    }
    forall r | r in s'.logs ensures LogInv(s', r) {
      assert LogInv(s, r);
    }
  }

  lemma FrameClean(s: State, s': State, f: Frame)
    requires Known(s) && s.conn.Some? && !s.broken && Clean(s) && !s.answered
    requires s' == s.(host := s'.host, wire := s'.wire, answered := s'.answered)
    requires s.conn.value in s'.host.clients && s'.host.clients[s.conn.value] == s.host.clients[s.conn.value]
    requires Answers(s'.wire) == Answers(s.wire) + if f.word.Status? then [] else [f]
    requires var pc := s.host.clients[s.conn.value];
             Busy(pc) && pc.request == f.op && (s'.answered <==> Last(pc.kind, f.word))
    ensures Clean(s')
  {
    var wire, wire' := Answers(s.wire), Answers(s'.wire);
    assert forall k :: 0 <= k < |wire| ==> wire'[k] == wire[k];
  }

  lemma SayKeeps(s: State, w: Word)
    requires LinkInv(s) && Enabled(s, Say(w))
    ensures LinkInv(Apply(s, Say(w)))
  {
    FrameKeeps(s, Apply(s, Say(w)), Frame(s.host.clients[s.conn.value].request, w));
  }

  lemma DeclineKeeps(s: State)
    requires LinkInv(s) && Enabled(s, Decline)
    ensures LinkInv(Apply(s, Decline))
  {
    var s' := Apply(s, Decline);
    AnswersAppend(s.wire, Frame(s.asked[0], Failed));
    if !s.dirty {
      DeclineClean(s, s');
    }
    forall r | r in s'.logs ensures LogInv(s', r) {
      assert LogInv(s, r);
    }
  }

  lemma DeclineClean(s: State, s': State)
    requires Known(s) && s.conn.Some? && Clean(s) && s.asked != [] && !s.broken && !Busy(s.host.clients[s.conn.value])
    requires s' == s.(asked := s.asked[1..], wire := s'.wire)
    requires Answers(s'.wire) == Answers(s.wire) + [Frame(s.asked[0], Failed)]
    ensures Clean(s')
  {
  }

  lemma SendKeeps(s: State, r: W.Request, kind: H.Kind)
    requires LinkInv(s) && Enabled(s, Send(r, kind))
    ensures LinkInv(Apply(s, Send(r, kind)))
  {
    var s' := Apply(s, Send(r, kind));
    if !Owing(s) {
      SendClean(s, r, kind);
    } else {
      SendBehind(s, r, kind);
    }
    forall q | q in s'.logs ensures LogInv(s', q) {
      assert q in s.logs ==> LogInv(s, q);
    }
  }

  lemma SendClean(s: State, r: W.Request, kind: H.Kind)
    requires Known(s) && Enabled(s, Send(r, kind)) && !Owing(s)
    ensures Clean(Apply(s, Send(r, kind)))
  {
  }

  lemma SendBehind(s: State, r: W.Request, kind: H.Kind)
    requires Known(s) && Enabled(s, Send(r, kind)) && Owing(s)
    ensures Behind(Apply(s, Send(r, kind)), r)
  {
    if Answers(s.wire) != [] {
      AnswersIn(s.wire, Answers(s.wire)[0]);
    }
  }

  /** A status frame is read, taken up or put on the wire, and everything about answers stands. */
  lemma SameAnswers(s: State, s': State)
    requires LinkInv(s)
    requires s' == s.(wire := s'.wire, pending := s'.pending, logs := s'.logs) && s'.logs.Keys == s.logs.Keys
    requires Answers(s'.wire) == Answers(s.wire)
    requires forall r :: r in s.logs ==> Answers(s'.logs[r]) == Answers(s.logs[r])
    requires (forall f :: f in s'.wire ==> f.op in s.kinds) && forall r :: r in s'.pending ==> r in s.kinds
    ensures LinkInv(s')
  {
    forall r | r in s'.logs ensures LogInv(s', r) {
      assert LogInv(s, r);
    }
  }

  lemma ReadKeeps(s: State)
    requires LinkInv(s) && Enabled(s, Read)
    ensures LinkInv(Apply(s, Read))
  {
    AnswersAppend(s.logs[s.current.value], s.wire[0]);
    if s.wire[0].word.Status? {
      ReadStatusKeeps(s);
    } else {
      ReadAnswerKeeps(s);
    }
  }

  /** A status frame is read. */
  lemma ReadStatusKeeps(s: State)
    requires LinkInv(s) && Enabled(s, Read) && s.wire[0].word.Status?
    requires var r := s.current.value; Answers(s.logs[r] + [s.wire[0]]) == Answers(s.logs[r])
    ensures LinkInv(Apply(s, Read))
  {
    var s', q := Apply(s, Read), s.current.value;
    StatusRead(s, s', q);
  }

  lemma StatusRead(s: State, s': State, q: W.Request)
    requires LinkInv(s) && q in s.logs && s.wire != [] && s.wire[0].word.Status?
    requires Answers(s.logs[q] + [s.wire[0]]) == Answers(s.logs[q])
    requires s' == s.(wire := s.wire[1..], logs := s.logs[q := s.logs[q] + [s.wire[0]]])
    ensures LinkInv(s')
  {
    assert forall f :: f in s'.wire ==> f in s.wire;
    SameAnswers(s, s');
  }

  /** The first frame of an answer is read. */
  lemma ReadAnswerKeeps(s: State)
    requires LinkInv(s) && Enabled(s, Read) && !s.wire[0].word.Status?
    requires var r := s.current.value; Answers(s.logs[r] + [s.wire[0]]) == Answers(s.logs[r]) + [s.wire[0]]
    ensures LinkInv(Apply(s, Read))
  {
    var s', f, q := Apply(s, Read), s.wire[0], s.current.value;
    assert Answers(s.wire) == [f] + Answers(s'.wire);
    assert f in Answers(s.wire);
    assert LogInv(s, q);
    ReadLog(s, q, f);
    forall r | r in s'.logs ensures LogInv(s', r) {
      assert r != q ==> LogInv(s, r);
    }
    if !s.dirty {
      ReadClean(s, s', f);
    }
  }

  lemma ReadLog(s: State, q: W.Request, f: Frame)
    requires q in s.logs && LogInv(s, q) && Answers(s.logs[q] + [f]) == Answers(s.logs[q]) + [f]
    requires q !in s.behind ==> f.op == q
    requires q in s.behind && Answers(s.logs[q]) == [] ==> f.op != q
    ensures LogInv(s.(logs := s.logs[q := s.logs[q] + [f]]), q)
  {
  }

  lemma ShapeTail(kind: H.Kind, f: Frame, rest: seq<Frame>, complete: bool)
    requires Shape(kind, [f] + rest, complete)
    ensures if Last(kind, f.word) then rest == [] && complete else Shape(kind, rest, complete)
  {
    var wire := [f] + rest;
    assert forall k :: 0 <= k < |rest| ==> rest[k] == wire[k + 1];
    assert wire[0] == f;
  }

  lemma ReadClean(s: State, s': State, f: Frame)
    requires s.conn.Some? && s.conn.value in s.host.clients && s.current.Some? && s.current.value in s.kinds && Clean(s)
    requires Answers(s.wire) == [f] + Answers(s'.wire)
    requires s' == s.(wire := s'.wire, logs := s'.logs, current := s'.current)
    requires s'.current == if Last(s.kinds[s.current.value], f.word) then None else s.current
    ensures Clean(s')
  {
    var wire, rest, kind := Answers(s.wire), Answers(s'.wire), s.kinds[s.current.value];
    assert s.asked == [];
    forall g | g in rest ensures g in wire {
    }
    if !s.broken {
      ShapeTail(kind, f, rest, s.answered);
    } else {
      ShapeTail(kind, f, rest, Shape(kind, wire, true));
    }
  }

  lemma EndingKeeps(s: State, m: Move)
    requires LinkInv(s) && Enabled(s, m) && (m.LeaveEarly? || m.Close? || m.Connect?)
    ensures LinkInv(Apply(s, m))
  {
    var s' := Apply(s, m);
    forall q | q in s'.logs ensures LogInv(s', q) {
      assert LogInv(s, q);
    }
  }

  /** The thread of the open connection reads the next operation. */
  lemma TakeKeeps(s: State, m: H.Move)
    requires LinkInv(s) && Enabled(s, ByHost(m)) && m.Ask? && s.conn == Some(m.c)
    ensures LinkInv(Apply(s, ByHost(m)))
  {
    var s' := Apply(s, ByHost(m));
    forall q | q in s'.logs ensures LogInv(s', q) {
      assert LogInv(s, q);
    }
  }

  lemma RelayKeeps(s: State, m: H.Move)
    requires LinkInv(s) && Enabled(s, ByHost(m)) && m.Relay? && s.conn == Some(m.c)
    ensures LinkInv(Apply(s, ByHost(m)))
  {
    var s' := Apply(s, ByHost(m));
    var r := s.host.clients[m.c].request;
    SentGrows(s.host, m, r);
    if m.delivered {
      FrameKeeps(s, s', Frame(r, Solver(Relayed(s'.host, r).value)));
    } else {
      forall q | q in s'.logs ensures LogInv(s', q) {
        assert LogInv(s, q);
      }
    }
  }

  lemma ElsewhereKeeps(s: State, m: H.Move)
    requires LinkInv(s) && Enabled(s, ByHost(m))
    requires s.conn.Some? ==> !(m.Ask? && m.c == s.conn.value) && !(m.Relay? && m.c == s.conn.value)
    ensures LinkInv(Apply(s, ByHost(m)))
  {
    if s.conn.Some? {
      ThreadStays(s.host, m, s.conn.value);
      if m.End? && m.c == s.conn.value {
        OneMoves(s.host, m);
      }
    }
    ThreadMoved(s, Apply(s, ByHost(m)));
  }

  /** The host moved, and the thread of the open connection went on with its work, or ended it. */
  lemma ThreadMoved(s: State, s': State)
    requires LinkInv(s) && s' == s.(host := s'.host)
    requires s.conn.Some? ==>
               && s.conn.value in s'.host.clients
               && var pc, pc' := s.host.clients[s.conn.value], s'.host.clients[s.conn.value];
                  SameWork(pc, pc') || (!Busy(pc') && (s.answered || s.broken))
    ensures LinkInv(s')
  {
    forall q | q in s'.logs ensures LogInv(s', q) {
      assert LogInv(s, q);
    }
  }

  lemma StatusKeeps(s: State, m: Move)
    requires LinkInv(s) && Enabled(s, m) && (m.TakeUp? || m.Call?)
    ensures LinkInv(Apply(s, m))
  {
    if m.Call? {
      AnswersAppend(s.wire, Frame(m.r, Status));
    }
    SameAnswers(s, Apply(s, m));
  }

  /* ---------- What the frames carry ---------- */

  lemma HostSent(s: State, m: H.Move)
    requires AllSent(s) && Enabled(s, ByHost(m))
    ensures AllSent(Apply(s, ByHost(m)))
  {
    var s' := Apply(s, ByHost(m));
    forall f | Sent(s, f) ensures Sent(s', f) {
      SentGrows(s.host, m, f.op);
    }
    if m.Relay? && s.conn == Some(m.c) {
      var r := s.host.clients[m.c].request;
      SentGrows(s.host, m, r);
    }
  }

  lemma ClientSent(s: State, m: Move)
    requires AllSent(s) && Enabled(s, m) && !m.ByHost?
    ensures AllSent(Apply(s, m))
  {
    var s' := Apply(s, m);
    forall f | Sent(s, f) ensures Sent(s', f) {
    }
  }

  /* ---------- Whose status frames ---------- */

  /** What has had the engine and has it no more never has it again. */
  lemma ReleasedStays(h: H.State, m: H.Move, r: W.Request)
    requires H.Enabled(h, m)
    ensures Released(h, r) ==> Released(H.Apply(h, m), r)
    ensures r in h.engine.sessions && !h.engine.sessions[r].pc.Outside? ==>
              r in H.Apply(h, m).engine.sessions && !H.Apply(h, m).engine.sessions[r].pc.Outside?
  {
    var first, second := HP.EngineRuns(h, m);
    if first.Some? {
      MoveReleased(h.engine, first.value, r);
      if second.Some? {
        MoveReleased(W.Apply(h.engine, first.value), second.value, r);
      }
    }
  }

  predicate Past(e: W.State, r: W.Request) {
    r in e.sessions && !e.sessions[r].pc.Outside?
  }

  lemma MoveReleased(e: W.State, m: W.Move, r: W.Request)
    requires W.Enabled(e, m)
    ensures Past(e, r) ==> Past(W.Apply(e, m), r)
    ensures Past(e, r) && e.holder != Some(r) ==> W.Apply(e, m).holder != Some(r)
  {
    if m.Do? {
      HP.DoFrame(e, m.i, m.act);
      if Past(e, r) && e.holder != Some(r) {
        DoReleased(e, m.i, m.act, r);
      }
    }
  }

  lemma DoReleased(e: W.State, i: W.Request, a: W.Act, r: W.Request)
    requires W.CanDo(e, i, a) && Past(e, r) && e.holder != Some(r)
    ensures W.DoStep(e, i, a).holder != Some(r)
  {
    OnlyAcquireHolds(e, i, a);
  }

  lemma OnlyAcquireHolds(e: W.State, i: W.Request, a: W.Act)
    requires W.CanDo(e, i, a)
    ensures var e' := W.DoStep(e, i, a); !a.Acquire? ==> e'.holder == e.holder || e'.holder == None
  {
  }

  lemma HostStatus(s: State, m: H.Move)
    requires H.Inv(s.host) && LinkInv(s) && StatusInv(s) && Enabled(s, ByHost(m))
    ensures StatusInv(Apply(s, ByHost(m)))
  {
    if s.conn.Some? && m.Ask? && m.c == s.conn.value {
      TakeStatus(s, m);
    } else if s.conn.Some? && m.Relay? && m.c == s.conn.value {
      RelayStatus(s, m);
    } else {
      ElsewhereStatus(s, m);
    }
  }

  /** Whatever the thread of the open connection was past, it is past still. */
  lemma QuietStays(s: State, m: H.Move, s': State, q: W.Request)
    requires s.conn.Some? && s.conn.value in s.host.clients && H.Enabled(s.host, m)
    requires s'.conn == s.conn && s'.host == H.Apply(s.host, m)
    requires !(m.Ask? && m.c == s.conn.value)
    ensures s.conn.value in s'.host.clients && (Quiet(s, q) ==> Quiet(s', q))
  {
    var c := s.conn.value;
    ThreadStays(s.host, m, c);
    if Busy(s.host.clients[c]) {
      ReleasedStays(s.host, m, s.host.clients[c].request);
    }
    if m.End? && m.c == c {
      assert !Busy(s'.host.clients[c]);
    }
  }

  lemma WorkedStays(s: State, m: H.Move, s': State)
    requires s.conn.Some? && s.conn.value in s.host.clients && Worked(s) && H.Enabled(s.host, m)
    requires s' == s.(host := H.Apply(s.host, m)) && Enabled(s, ByHost(m))
    requires !(m.Ask? && m.c == s.conn.value)
    ensures s.conn.value in s'.host.clients && Worked(s')
  {
    var c := s.conn.value;
    ThreadStays(s.host, m, c);
    if Busy(s.host.clients[c]) {
      ReleasedStays(s.host, m, s.host.clients[c].request);
    }
    StaysInJob(s.host, m, c);
  }

  lemma StaysInJob(h: H.State, m: H.Move, c: H.Client)
    requires H.Enabled(h, m) && c in h.clients && c in H.Apply(h, m).clients
    ensures !(m.Ask? && m.c == c) && (H.Apply(h, m).clients[c].Wanting? || H.Apply(h, m).clients[c].Locked?) ==>
              h.clients[c].Wanting? || h.clients[c].Locked?
    ensures H.Apply(h, m).clients[c].InJob? ==> h.clients[c].InJob? || h.clients[c].Locked?
  {
  }

  lemma ElsewhereStatus(s: State, m: H.Move)
    requires StatusInv(s) && Enabled(s, ByHost(m))
    requires s.conn.Some? ==> !(m.Ask? && m.c == s.conn.value) && !(m.Relay? && m.c == s.conn.value)
    ensures StatusInv(Apply(s, ByHost(m)))
  {
    var s' := Apply(s, ByHost(m));
    if s.conn.Some? {
      WorkedStays(s, m, s');
      if s.current.Some? {
        QuietStays(s, m, s', s.current.value);
      }
    }
  }

  lemma TakeStatus(s: State, m: H.Move)
    requires LinkInv(s) && StatusInv(s) && Enabled(s, ByHost(m)) && m.Ask? && s.conn == Some(m.c)
    ensures StatusInv(Apply(s, ByHost(m)))
  {
  }

  lemma RelayStatus(s: State, m: H.Move)
    requires LinkInv(s) && StatusInv(s) && Enabled(s, ByHost(m)) && m.Relay? && s.conn == Some(m.c)
    ensures StatusInv(Apply(s, ByHost(m)))
  {
    var s' := Apply(s, ByHost(m));
    var r := s.host.clients[m.c].request;
    RelayEffect(s, m);
    ReleasedStays(s.host, m, r);
    if s.current.Some? {
      QuietStays(s, m, s', s.current.value);
    }
  }

  /** A relay leaves the connection's thread where it is, and adds at most one frame. */
  lemma RelayEffect(s: State, m: H.Move)
    requires Enabled(s, ByHost(m)) && m.Relay? && s.conn == Some(m.c)
    ensures var s', r := Apply(s, ByHost(m)), s.host.clients[m.c].request;
            && m.c in s'.host.clients && s'.host.clients[m.c] == s.host.clients[m.c]
            && s' == s.(host := s'.host, wire := s'.wire, answered := s'.answered, broken := s'.broken)
            && (s.broken ==> s'.broken)
            && (s'.wire == s.wire || exists w :: s'.wire == s.wire + [Frame(r, w)])
            && r in s'.host.engine.sessions && !s'.host.engine.sessions[r].pc.Outside?
  {
    RelayThread(s.host, m);
    ReleasedStays(s.host, m, s.host.clients[m.c].request);
  }

  lemma RelayThread(h: H.State, m: H.Move)
    requires H.Enabled(h, m) && m.Relay?
    ensures h.clients[m.c].request in h.engine.sessions && !h.engine.sessions[h.clients[m.c].request].pc.Outside?
    ensures H.Apply(h, m).clients == h.clients
  {
    NobodyMoves(h, m);
  }

  lemma SendStatus(s: State, r: W.Request, kind: H.Kind)
    requires LinkInv(s) && StatusInv(s) && Enabled(s, Send(r, kind))
    ensures StatusInv(Apply(s, Send(r, kind)))
  {
  }

  lemma ReadStatus(s: State)
    requires StatusInv(s) && Enabled(s, Read)
    ensures StatusInv(Apply(s, Read))
  {
  }

  lemma SayStatus(s: State, m: Move)
    requires LinkInv(s) && StatusInv(s) && Enabled(s, m) && (m.Say? || m.Decline?)
    ensures StatusInv(Apply(s, m))
  {
  }

  lemma RingStatus(s: State, m: Move)
    requires LinkInv(s) && StatusInv(s) && Enabled(s, m) && (m.TakeUp? || m.Call?)
    ensures StatusInv(Apply(s, m))
  {
  }

  lemma EndingStatus(s: State, m: Move)
    requires StatusInv(s) && Enabled(s, m) && (m.LeaveEarly? || m.Close? || m.Connect?)
    ensures StatusInv(Apply(s, m))
  {
  }

  lemma ClientStatus(s: State, m: Move)
    requires LinkInv(s) && StatusInv(s) && Enabled(s, m) && !m.ByHost?
    ensures StatusInv(Apply(s, m))
  {
    match m
    case Send(r, kind) => SendStatus(s, r, kind);
    case Read => ReadStatus(s);
    case Decline => SayStatus(s, m);
    case Say(w) => SayStatus(s, m);
    case TakeUp => RingStatus(s, m);
    case Call(_) => RingStatus(s, m);
    case _ => EndingStatus(s, m);
  }

  lemma StepKeeps(s: State, m: Move)
    requires Inv(s) && Enabled(s, m)
    ensures Inv(Apply(s, m))
  {
    if m.ByHost? {
      HP.StepKeeps(s.host, m.move);
      HostStands(s, m);
      HostSent(s, m.move);
      HostKeeps(s, m.move);
      HostStatus(s, m.move);
    } else {
      HostStands(s, m);
      ClientSent(s, m);
      ClientKeeps(s, m);
      ClientStatus(s, m);
    }
  }

  lemma HostStands(s: State, m: Move)
    requires Enabled(s, m)
    ensures Apply(s, m).host == if m.ByHost? then H.Apply(s.host, m.move) else s.host
  {
  }

  lemma HostKeeps(s: State, m: H.Move)
    requires LinkInv(s) && Enabled(s, ByHost(m))
    ensures LinkInv(Apply(s, ByHost(m)))
  {
    if m.Ask? && s.conn == Some(m.c) {
      TakeKeeps(s, m);
    } else if m.Relay? && s.conn == Some(m.c) {
      RelayKeeps(s, m);
    } else {
      ElsewhereKeeps(s, m);
    }
  }

  lemma ClientKeeps(s: State, m: Move)
    requires LinkInv(s) && Enabled(s, m) && !m.ByHost?
    ensures LinkInv(Apply(s, m))
  {
    match m
    case Send(r, kind) => SendKeeps(s, r, kind);
    case Read => ReadKeeps(s);
    case Decline => DeclineKeeps(s);
    case Say(w) => SayKeeps(s, w);
    case TakeUp => StatusKeeps(s, m);
    case Call(_) => StatusKeeps(s, m);
    case _ => EndingKeeps(s, m);
  }

  /* ---------- Every run ---------- */

  ghost predicate Next(s: State, s': State) {
    exists m :: Enabled(s, m) && s' == Apply(s, m)
  }

  ghost predicate IsRun(run: seq<State>) {
    |run| > 0 && Init(run[0]) && forall k :: 0 <= k < |run| - 1 ==> Next(run[k], run[k + 1])
  }

  lemma {:induction false} RunKeeps(run: seq<State>, n: nat)
    requires IsRun(run) && n < |run|
    ensures Inv(run[n])
  {
    if n == 0 {
      H.InitInv(run[0].host);
    } else {
      RunKeeps(run, n - 1);
      assert Next(run[n - 1], run[n - 1 + 1]);
      var m :| Enabled(run[n - 1], m) && run[n] == Apply(run[n - 1], m);
      StepKeeps(run[n - 1], m);
    }
  }

  /** Attribution from end to end. Of answers, an operation reads only its own, and solver events
      emitted for its own request, exactly if no answer was owed on its connection when it was
      sent; otherwise the first it reads is another's. And status frames and all, it reads only
      its own if moreover no status frame of an earlier operation could come. */
  lemma OwnFrames(run: seq<State>, n: nat, r: W.Request)
    requires IsRun(run) && n < |run| && r in run[n].logs
    ensures Answers(run[n].logs[r]) != [] ==>
              ((forall f :: f in Answers(run[n].logs[r]) ==> f.op == r) <==> r !in run[n].behind)
    ensures r in run[n].behind && Answers(run[n].logs[r]) != [] ==> Answers(run[n].logs[r])[0].op != r
    ensures r !in run[n].behind && r !in run[n].stray ==> forall f :: f in run[n].logs[r] ==> f.op == r
    ensures forall f :: f in run[n].logs[r] && f.word.Solver? ==>
              f.word.event.owner in {Some(f.op), None}
              && (!run[n].host.engine.exposed ==> f.word.event.owner == Some(f.op))
  {
    RunKeeps(run, n);
    var s := run[n];
    assert LogInv(s, r);
    assert Answers(s.logs[r]) != [] ==> Answers(s.logs[r])[0] in Answers(s.logs[r]);
    forall f | f in s.logs[r] && f.word.Solver?
      ensures f.word.event.owner in {Some(f.op), None} && (!s.host.engine.exposed ==> f.word.event.owner == Some(f.op))
    {
      assert Sent(s, f) && H.SentInv(s.host, f.op);
      assert W.OwnEvents(s.host.engine, f.op);
    }
  }
}
