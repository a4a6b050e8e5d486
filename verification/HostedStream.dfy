/** The operations of one `HostedBeatWorker` (hornlab_beat_bem/worker_client.py) over the
    connections it makes to the host of `Host`: what it asks, what the host answers and what each
    operation reads, from end to end.

    An operation is asked on the connection that is open, and reads frames until one that its
    code takes for the last. It may be left before that with the connection still open: when a
    status callback raises out of `ensure_started`, or a stream is dropped. The next operation
    uses the same connection.

    Beside the thread that answers the operations, the threads that collect a runtime's standard
    error write to the connection: status frames, through the callback of whichever operation has
    the engine. The callback is set until that operation gives the engine's slot back, which for a
    submission is after its last frame; and a thread that has taken it up may call it any time
    later.

    That frames come off a connection whole and in order, and a cut one not at all, is
    `Framing`'s. */
module HostedStreams {
  import opened Prelude
  import W = Workers
  import H = Host

  /** What a frame says. */
  datatype Word = Status | Solver(event: W.Event) | Ready | Failed

  /** Each frame carries, as a mark no program reads, the operation it answers. */
  datatype Frame = Frame(op: W.Request, word: Word)

  /** The client goes by the type alone to tell the last frame of its operation. */
  predicate Last(kind: H.Kind, w: Word) {
    match kind
    case Submit => w.Failed? || (w.Solver? && W.Terminal(w.event.kind))
    case Ensure => w.Ready? || w.Failed? || (w.Solver? && (w.event.kind.Ready? || w.event.kind.Failed?))
  }

  /** The frames that are part of an answer, which is all but the status frames. */
  function Answers(frames: seq<Frame>): seq<Frame> {
    if frames == [] then []
    else (if frames[0].word.Status? then [] else [frames[0]]) + Answers(frames[1..])
  }

  /** `asked` are the operations the host has not read yet, `wire` the frames on their way to the
      client, `pending` the operations whose status callback some thread has taken up and not
      called; `answered` says that the host's current operation has had its last frame, `broken`
      that a frame could not be delivered. Four notes that no program reads: `dirty`, that the last
      operation was left early or sent while an answer was owed; `behind`, the operations that were
      sent so; `stray`, those sent while another's status frame could still come; and `logs`, what
      each has read. */
  datatype State = State(
    host: H.State,
    conn: Option<H.Client>,
    asked: seq<W.Request>,
    answered: bool,
    broken: bool,
    wire: seq<Frame>,
    pending: multiset<W.Request>,
    current: Option<W.Request>,
    kinds: map<W.Request, H.Kind>,
    logs: map<W.Request, seq<Frame>>,
    dirty: bool,
    behind: set<W.Request>,
    stray: set<W.Request>)

  datatype Move =
    | Connect(c: H.Client)
    | Send(r: W.Request, kind: H.Kind)
    | Read
    | LeaveEarly
    | Close
    | Decline
    | Say(word: Word)
    | TakeUp
    | Call(r: W.Request)
    | ByHost(move: H.Move)

  /* ---------- Steps ---------- */

  predicate Busy(pc: H.Pc) {
    pc.Wanting? || pc.Locked? || pc.InJob?
  }

  /** An answer, or part of one, is still to come to the client. */
  predicate Owing(s: State) {
    s.asked != [] || Answers(s.wire) != [] || !s.answered
  }

  /** The status callback that leads to the open connection is set: the operation its thread is in
      has the engine. */
  predicate Rings(s: State) {
    && s.conn.Some? && s.conn.value in s.host.clients && s.host.clients[s.conn.value].InJob?
    && s.host.engine.holder == Some(s.host.clients[s.conn.value].request)
  }

  /** A status frame may be read that is not for the operation sent next. */
  predicate MayStray(s: State) {
    s.wire != [] || (!s.broken && (s.pending != multiset{} || Rings(s)))
  }

  /** The operation has had the engine and has it no more. */
  predicate Released(h: H.State, r: W.Request) {
    r in h.engine.sessions && !h.engine.sessions[r].pc.Outside? && h.engine.holder != Some(r)
  }

  /** The open connection has its thread at the host, and frames still get through. */
  predicate Serves(s: State) {
    s.conn.Some? && s.conn.value in s.host.clients && !s.broken
  }

  /** What the host's thread for the open connection may do: the code of `_serve_connection`,
      `_submit` and `_ensure_started`, which take operations in order and give each its answer. */
  predicate MayMove(s: State, c: H.Client, m: H.Move) {
    && (m.Ask? && m.c == c ==>
          !s.broken && s.asked != [] && m.request == s.asked[0] && m.request in s.kinds && s.kinds[m.request] == m.kind)
    && (m.Relay? && m.c == c ==> !s.broken && !s.answered)
    && (m.End? && m.c == c ==> s.broken || s.answered)
    && !(m.TryRetire? && m.c == c)
  }

  predicate Enabled(s: State, m: Move) {
    match m
    case Connect(c) => s.conn.None? && c in s.host.clients && s.host.clients[c].Reading?
    case Send(r, _) =>
      && s.conn.Some? && s.current.None? && r !in s.kinds && r in s.host.roles && s.host.roles[r] == H.Job(s.conn.value)
      && r in s.host.engine.sessions && s.host.engine.sessions[r].pc.Outside?
    case Read => s.conn.Some? && s.current.Some? && s.current.value in s.kinds && s.current.value in s.logs
        && s.wire != []
    case LeaveEarly => s.conn.Some? && s.current.Some?
    case Close => s.conn.Some?
    case Decline => Serves(s) && s.host.clients[s.conn.value].Reading? && s.asked != []
    case Say(w) =>
      && Serves(s) && s.host.clients[s.conn.value].InJob? && !s.answered && !w.Solver?
      && (w.Ready? ==> s.host.clients[s.conn.value].kind.Ensure?)
      && (!w.Status? ==> Released(s.host, s.host.clients[s.conn.value].request))
    case TakeUp => Rings(s)
    case Call(r) => s.conn.Some? && !s.broken && r in s.pending
    case ByHost(m) => H.Enabled(s.host, m) && (s.conn.Some? ==> MayMove(s, s.conn.value, m))
  }

  function ReadStep(s: State): State
    requires Enabled(s, Read)
  {
    var r, f := s.current.value, s.wire[0];
    s.(logs := s.logs[r := s.logs[r] + [f]], wire := s.wire[1..],
       current := if Last(s.kinds[r], f.word) then None else s.current)
  }

  /** The event a relay has sent last. */
  function Relayed(h: H.State, r: W.Request): Option<W.Event> {
    if H.Sent(h, r) == [] then None else Some(H.Sent(h, r)[|H.Sent(h, r)| - 1])
  }

  function HostStep(s: State, m: H.Move): State
    requires Enabled(s, ByHost(m))
  {
    var s' := s.(host := H.Apply(s.host, m));
    if m.Ask? && s.conn == Some(m.c) then s'.(asked := s.asked[1..], answered := false)
    else if m.Relay? && s.conn == Some(m.c) then RelayStep(s', s.host.clients[m.c].request, m.delivered)
    else s'
  }

  function RelayStep(s: State, r: W.Request, delivered: bool): State {
    if delivered && Relayed(s.host, r).Some? then
      var e := Relayed(s.host, r).value;
      s.(wire := s.wire + [Frame(r, Solver(e))], answered := W.Terminal(e.kind))
    else s.(broken := true)
  }

  function Apply(s: State, m: Move): State
    requires Enabled(s, m)
  {
    match m
    case Connect(c) =>
      s.(conn := Some(c), asked := [], answered := true, broken := false, wire := [], pending := multiset{},
         current := None, dirty := false)
    case Send(r, kind) =>
      s.(asked := s.asked + [r], current := Some(r), kinds := s.kinds[r := kind], logs := s.logs[r := []],
         dirty := Owing(s), behind := if Owing(s) then s.behind + {r} else s.behind,
         stray := if MayStray(s) then s.stray + {r} else s.stray)
    case Read => ReadStep(s)
    case LeaveEarly => s.(current := None, dirty := true)
    case Close =>
      s.(conn := None, asked := [], answered := true, broken := false, wire := [], pending := multiset{},
         current := None)
    case Decline => s.(asked := s.asked[1..], wire := s.wire + [Frame(s.asked[0], Failed)])
    case Say(w) =>
      s.(wire := s.wire + [Frame(s.host.clients[s.conn.value].request, w)], answered := !w.Status?)
    case TakeUp => s.(pending := s.pending + multiset{s.host.clients[s.conn.value].request})
    case Call(r) => s.(wire := s.wire + [Frame(r, Status)], pending := s.pending - multiset{r})
    case ByHost(m) => HostStep(s, m)
  }

  /* ---------- The invariant ---------- */

  ghost predicate Known(s: State) {
    && s.logs.Keys == s.kinds.Keys && s.behind <= s.kinds.Keys
    && (s.current.Some? ==> s.current.value in s.kinds)
    && (s.current.Some? ==> s.conn.Some? && (s.dirty <==> s.current.value in s.behind))
    && (forall r :: r in s.asked ==> r in s.kinds)
    && (s.conn.Some? ==> s.conn.value in s.host.clients)
    && (s.conn.Some? && !s.answered && !s.broken ==> Busy(s.host.clients[s.conn.value]))
    && (s.conn.Some? && Busy(s.host.clients[s.conn.value]) ==> s.host.clients[s.conn.value].request in s.kinds)
    && (forall r :: r in s.pending ==> r in s.kinds)
    && (forall f :: f in s.wire ==> f.op in s.kinds)
  }

  /** Frames carry what the host has sent. */
  ghost predicate Sent(s: State, f: Frame) {
    f.word.Solver? ==> f.word.event in H.Sent(s.host, f.op)
  }

  ghost predicate AllSent(s: State) {
    && (forall f :: f in s.wire ==> Sent(s, f))
    && forall r :: r in s.logs ==> forall f :: f in s.logs[r] ==> Sent(s, f)
  }

  /** What an operation has read of answers is its own, or the first of it is not, as it was sent;
      and all it has read is its own if no stray status frame could come either. */
  predicate LogInv(s: State, r: W.Request)
    requires r in s.logs
  {
    && (r !in s.behind ==> forall f :: f in Answers(s.logs[r]) ==> f.op == r)
    && (r in s.behind && Answers(s.logs[r]) != [] ==> Answers(s.logs[r])[0].op != r)
  }

  /** Only the last frame of the current operation's answer is one its code takes for the last. */
  predicate Shape(kind: H.Kind, wire: seq<Frame>, complete: bool) {
    && (forall k :: 0 <= k < |wire| - 1 ==> !Last(kind, wire[k].word))
    && (complete <==> wire != [] && Last(kind, wire[|wire| - 1].word))
  }

  /** A connection on which nothing was left behind: all there is on it is the current operation's,
      which is unread by the host, being answered, or answered up to its last frame. */
  predicate Clean(s: State)
    requires s.conn.Some? && s.conn.value in s.host.clients && (s.current.Some? ==> s.current.value in s.kinds)
  {
    var pc, wire := s.host.clients[s.conn.value], Answers(s.wire);
    && (forall f :: f in wire ==> s.current == Some(f.op))
    && (s.current.None? ==> s.asked == [] && wire == [] && (s.answered || s.broken))
    && (s.current.Some? ==>
          var r := s.current.value;
          && (s.asked != [] ==> s.asked == [r] && wire == [] && (s.answered || s.broken))
          && (!s.answered && !s.broken ==> Busy(pc) && pc.request == r && pc.kind == s.kinds[r])
          && (s.asked == [] && !s.broken ==> Shape(s.kinds[r], wire, s.answered))
          && (s.broken ==> Shape(s.kinds[r], wire, true) || Shape(s.kinds[r], wire, false)))
  }

  /** The current operation was sent while another's answer was owed, and has read nothing of an
      answer yet: whatever it reads first of one is another's. */
  predicate Behind(s: State, q: W.Request)
    requires s.conn.Some? && s.conn.value in s.host.clients
  {
    var pc, wire := s.host.clients[s.conn.value], Answers(s.wire);
    if wire != [] then wire[0].op != q
    else
      || s.broken
      || (!s.answered && Busy(pc) && pc.request != q)
      || (s.answered && s.asked != [] && s.asked[0] != q)
  }

  ghost predicate LinkInv(s: State) {
    && Known(s)
    && (s.conn.Some? && !s.dirty ==> Clean(s))
    && (s.current.Some? && s.current.value in s.behind && Answers(s.logs[s.current.value]) == [] ==>
          Behind(s, s.current.value))
    && forall r :: r in s.logs ==> LogInv(s, r)
  }

  /** The thread of the open connection is not in another operation, or that one can no more have
      the engine. */
  predicate Quiet(s: State, q: W.Request)
    requires s.conn.Some? && s.conn.value in s.host.clients
  {
    var pc := s.host.clients[s.conn.value];
    Busy(pc) && pc.request != q ==> Released(s.host, pc.request)
  }

  /** No status frame but its own is on its way to operation `q`, nor can one come. */
  predicate Own(s: State, q: W.Request)
    requires s.conn.Some? && s.conn.value in s.host.clients
  {
    && (forall f :: f in s.wire ==> f.op == q)
    && (!s.broken ==> (forall r :: r in s.pending ==> r == q) && Quiet(s, q))
  }

  /** An operation that had its last frame, or could not be given one, has had the engine. */
  predicate Worked(s: State)
    requires s.conn.Some? && s.conn.value in s.host.clients
  {
    var pc, engine := s.host.clients[s.conn.value], s.host.engine;
    && (pc.InJob? && (s.answered || s.broken) ==>
          pc.request in engine.sessions && !engine.sessions[pc.request].pc.Outside?)
    && (pc.Wanting? || pc.Locked? ==> !s.answered && !s.broken)
  }

  ghost predicate StatusInv(s: State) {
    && (s.conn.Some? ==> s.conn.value in s.host.clients && Worked(s))
    && s.stray <= s.kinds.Keys
    && (s.current.Some? && s.current.value !in s.behind && s.current.value !in s.stray ==>
          s.conn.Some? && Own(s, s.current.value))
    && forall r :: r in s.logs && r !in s.behind && r !in s.stray ==> forall f :: f in s.logs[r] ==> f.op == r
  }

  ghost predicate Inv(s: State) {
    H.Inv(s.host) && AllSent(s) && LinkInv(s) && StatusInv(s)
  }

  ghost predicate Init(s: State) {
    && H.Init(s.host) && s.conn == None && s.asked == [] && s.answered && !s.broken && s.wire == []
    && s.pending == multiset{} && s.current == None && s.kinds == map[] && s.logs == map[] && !s.dirty
    && s.behind == {} && s.stray == {}
  }
}
