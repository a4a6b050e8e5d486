/** Sessions sharing one `BeatWorkerProcess` (hornlab_beat_bem/worker.py).

    Any number of sessions take the worker's slot in turn, start or adopt the Julia runtime,
    write one request each, read events, and end -- by completion, cancellation, failure,
    abandonment or the death of the runtime. The runtime is a process that may die at any
    moment, with the requests written to it and a pipe of the events it has emitted. Each event
    carries, as a mark no program reads, the request it was emitted for. `terminate`, which
    anybody may call at any time and which takes no slot, interleaves with all of it. */
module Workers {
  import opened Prelude

  /** A session makes one request, so the session, its submission and its request are one id. */
  type Request = nat
  type Pid = nat

  datatype Kind = Ready | Status | Initialized | Result | Completed | Cancelled | Failed

  predicate Terminal(k: Kind) {
    k.Completed? || k.Cancelled? || k.Failed?
  }

  /** `owner` is None for what a runtime says about its own start-up. */
  datatype Event = Event(owner: Option<Request>, kind: Kind)

  datatype Mode = Booting | Idle | Busy(request: Request)

  datatype Proc = Proc(alive: bool, mode: Mode, stdin: seq<Request>, pipe: seq<Event>)

  /** Where a session is. `Outside` is before `acquire`; the next four are inside `submit`;
      `Retiring` and `Closing` are the first two steps of the session's `close`. */
  datatype Pc =
    | Outside
    | Holding
    | Starting(pid: Pid)
    | Started
    | Aimed(pid: Pid)
    | Streaming
    | Retiring
    | Closing
    | Gone

  /** The generator behind the session's stream; ending it releases the slot. */
  datatype Reader = Unopened | Reading(pid: Pid) | Ended

  datatype Session = Session(
    pc: Pc,
    written: Option<Pid>,
    reader: Reader,
    finished: bool,
    condemned: bool,
    log: seq<Event>)

  const NEW_SESSION := Session(Outside, None, Unopened, false, false, [])

  /** `bootAborted` and `exposed` are notes no program reads: that some start-up was cut short by
      an exception, and that one was while its runtime was alive and the worker's. */
  datatype State = State(
    holder: Option<Request>,
    closed: bool,
    process: Option<Pid>,
    procs: map<Pid, Proc>,
    nextPid: Pid,
    sessions: map<Request, Session>,
    bootAborted: bool,
    exposed: bool)

  datatype Act =
    | Acquire
    | Refuse
    | GiveBack
    | Adopt
    | Spawn
    | ReadStartup(killed: bool)
    | StartupEof
    | AbortStartup
    | Aim
    | Write
    | Open
    | Read(distrust: bool)
    | Eof
    | Abandon
    | Retire(killed: bool)
    | Close

  datatype Move =
    | Do(i: Request, act: Act)
    | Emit(p: Pid, kind: Kind)
    | Take(p: Pid)
    | Die(p: Pid)
    | Terminate(dead: set<Pid>)
    | Shut

  /* ---------- Steps ---------- */

  predicate Live(s: State) {
    s.process.Some? && s.process.value in s.procs && s.procs[s.process.value].alive
  }

  predicate Has(s: State, p: Pid) {
    p in s.procs
  }

  predicate CanDo(s: State, i: Request, a: Act) {
    i in s.sessions &&
    var me := s.sessions[i];
    match a
    case Acquire => me.pc.Outside? && s.holder.None? && !s.closed
    case Refuse => me.pc.Outside? && s.closed
    case GiveBack => me.pc.Holding? || me.pc.Started? || me.pc.Aimed?
    case Adopt => me.pc.Holding? && Live(s)
    case Spawn => me.pc.Holding? && !Live(s)
    case ReadStartup(_) => me.pc.Starting? && Has(s, me.pc.pid) && s.procs[me.pc.pid].pipe != []
    case StartupEof => me.pc.Starting? && Has(s, me.pc.pid) && s.procs[me.pc.pid].pipe == []
        && !s.procs[me.pc.pid].alive
    case AbortStartup => me.pc.Starting?
    case Aim => me.pc.Started? && s.process.Some?
    case Write => me.pc.Aimed? && Has(s, me.pc.pid) && s.procs[me.pc.pid].alive
    case Open => me.pc.Streaming? && me.reader.Unopened?
    case Read(_) => me.pc.Streaming? && me.reader.Reading? && Has(s, me.reader.pid) && s.procs[me.reader.pid].pipe != []
    case Eof => me.pc.Streaming? && me.reader.Reading? && Has(s, me.reader.pid)
                && s.procs[me.reader.pid].pipe == [] && !s.procs[me.reader.pid].alive
    case Abandon => me.pc.Streaming?
    case Retire(_) => me.pc.Retiring?
    case Close => me.pc.Closing?
  }

  /** The slot's release: honoured from the holder only. */
  function Release(s: State, i: Request): State {
    if s.holder == Some(i) then s.(holder := None) else s
  }

  function With(s: State, i: Request, me: Session): State {
    s.(sessions := s.sessions[i := me])
  }

  function WithProc(s: State, p: Pid, pr: Proc): State {
    s.(procs := s.procs[p := pr])
  }

  /** `_kill_process`: the worker forgets its runtime, whether or not the runtime then dies. */
  function Kill(s: State, killed: bool): State {
    var forgotten := s.(process := None);
    if killed && s.process.Some? && s.process.value in s.procs
    then WithProc(forgotten, s.process.value, s.procs[s.process.value].(alive := false))
    else forgotten
  }

  /** The session's `close` begins: an unfinished session condemns the runtime. */
  function Ending(me: Session): Session {
    me.(pc := Retiring, condemned := me.condemned || !me.finished)
  }

  /** The generator comes to its `finally`, and the session goes on to close. */
  function StreamEnds(s: State, i: Request, me: Session): State {
    With(Release(s, i), i, Ending(me.(reader := Ended)))
  }

  function DoStep(s: State, i: Request, a: Act): State
    requires CanDo(s, i, a)
  {
    var me := s.sessions[i];
    match a
    case Acquire => With(s.(holder := Some(i)), i, me.(pc := Holding))
    case Refuse => With(s, i, me.(pc := Gone))
    case GiveBack => With(Release(s, i), i, me.(pc := Gone))
    case Adopt => With(s, i, me.(pc := Started))
    case Spawn =>
      With(WithProc(s, s.nextPid, Proc(true, Booting, [], []))
           .(process := Some(s.nextPid), nextPid := s.nextPid + 1), i, me.(pc := Starting(s.nextPid)))
    case ReadStartup(killed) =>
      var p := me.pc.pid;
      var popped := WithProc(s, p, s.procs[p].(pipe := s.procs[p].pipe[1..]));
      var kind := s.procs[p].pipe[0].kind;
      if kind.Ready? then With(popped, i, me.(pc := Started))
      else if kind.Failed? then With(Release(Kill(popped, killed), i), i, me.(pc := Gone))
      else popped
    case StartupEof => With(Release(s.(process := None), i), i, me.(pc := Gone))
    case AbortStartup =>
      With(Release(s.(bootAborted := true, exposed := s.exposed || Live(s)), i), i, me.(pc := Gone))
    case Aim => With(s, i, me.(pc := Aimed(s.process.value)))
    case Write =>
      var p := me.pc.pid;
      With(WithProc(s, p, s.procs[p].(stdin := s.procs[p].stdin + [i])), i, me.(pc := Streaming, written := Some(p)))
    case Open =>
      if s.process.Some? then With(s, i, me.(reader := Reading(s.process.value)))
      else StreamEnds(s, i, me)
    case Read(distrust) =>
      var p := me.reader.pid;
      var e := s.procs[p].pipe[0];
      var heard := me.(log := me.log + [e]);
      With(WithProc(s, p, s.procs[p].(pipe := s.procs[p].pipe[1..])), i,
           if e.kind.Failed? && distrust then Ending(heard.(finished := true, condemned := true))
           else if Terminal(e.kind) then Ending(heard.(finished := true))
           else heard)
    case Eof => StreamEnds(s.(process := None), i, me)
    case Abandon => With(s, i, Ending(me))
    case Retire(killed) =>
      With(if me.condemned && s.holder == Some(i) then Kill(s, killed) else s, i, me.(pc := Closing))
    case Close => With(Release(s, i), i, me.(pc := Gone, reader := Ended))
  }

  /** What a runtime may say next: one Ready or one Failed at the end of its start-up, and for
      each request one terminal event, last. */
  predicate CanEmit(pr: Proc, kind: Kind) {
    && pr.alive
    && (match pr.mode
        case Booting => kind.Ready? || kind.Failed? || kind.Status?
        case Idle => false
        case Busy(_) => !kind.Ready?)
  }

  function EmitStep(pr: Proc, kind: Kind): Proc
    requires CanEmit(pr, kind)
  {
    match pr.mode
    case Booting =>
      var said := pr.(pipe := pr.pipe + [Event(None, kind)]);
      if kind.Ready? then said.(mode := Idle) else if kind.Failed? then said.(alive := false) else said
    case Busy(r) =>
      var said := pr.(pipe := pr.pipe + [Event(Some(r), kind)]);
      if Terminal(kind) then said.(mode := Idle) else said
    case Idle => pr
  }

  predicate Enabled(s: State, m: Move) {
    match m
    case Do(i, a) => CanDo(s, i, a)
    case Emit(p, kind) => p in s.procs && CanEmit(s.procs[p], kind)
    case Take(p) => p in s.procs && s.procs[p].alive && s.procs[p].mode.Idle? && s.procs[p].stdin != []
    case Die(p) => p in s.procs
    case Terminate(_) => true
    case Shut => true
  }

  function Apply(s: State, m: Move): State
    requires Enabled(s, m)
  {
    match m
    case Do(i, a) => DoStep(s, i, a)
    case Emit(p, kind) => WithProc(s, p, EmitStep(s.procs[p], kind))
    case Take(p) =>
      WithProc(s, p, s.procs[p].(mode := Busy(s.procs[p].stdin[0]), stdin := s.procs[p].stdin[1..]))
    case Die(p) => WithProc(s, p, s.procs[p].(alive := false))
    case Terminate(dead) =>
      s.(process := None,
         procs := map p | p in s.procs :: if p in dead then s.procs[p].(alive := false) else s.procs[p])
    case Shut => s.(closed := true)
  }

  /* ---------- The invariant ---------- */

  predicate Holds(me: Session) {
    || me.pc.Holding? || me.pc.Starting? || me.pc.Started? || me.pc.Aimed?
    || ((me.pc.Streaming? || me.pc.Retiring? || me.pc.Closing?) && !me.reader.Ended?)
  }

  predicate StartupEvent(e: Event) {
    e.owner == None && !e.kind.Completed? && !e.kind.Cancelled?
  }

  /** A runtime that says its start-up failed is done. */
  predicate DeathNote(pr: Proc) {
    Event(None, Failed) in pr.pipe ==> !pr.alive
  }

  /** A runtime that knows nothing of any request. Unless a start-up was ever cut short under it,
      it is moreover idle with nothing left to read. */
  predicate Clean(pr: Proc, exposed: bool) {
    && !pr.mode.Busy? && pr.stdin == [] && DeathNote(pr)
    && (forall e :: e in pr.pipe ==> StartupEvent(e))
    && (!exposed ==> pr.mode.Idle? && pr.pipe == [])
  }

  /** A runtime that the next session may find. A dead one is never adopted. */
  predicate Fit(pr: Proc, aborted: bool, exposed: bool) {
    pr.alive || !aborted ==> Clean(pr, exposed)
  }

  /** A runtime being started by the holder. */
  predicate StartShape(pr: Proc) {
    && !pr.mode.Busy? && pr.stdin == [] && DeathNote(pr)
    && (forall e :: e in pr.pipe ==> StartupEvent(e))
    && (pr.mode.Booting? ==> forall k :: 0 <= k < |pr.pipe| ==> !pr.pipe[k].kind.Ready?)
    && (pr.mode.Idle? ==>
        pr.pipe != [] && pr.pipe[|pr.pipe| - 1].kind.Ready? && forall k :: 0 <= k < |pr.pipe| - 1 ==>
            !pr.pipe[k].kind.Ready?)
  }

  predicate EndsJob(e: Event, i: Request) {
    e.owner == Some(i) && Terminal(e.kind)
  }

  /** A runtime to which exactly the request `i` was written and whose terminal event has not
      been read: the request is unread, or running, or its terminal event is last in the pipe. */
  predicate JobShape(pr: Proc, i: Request, exposed: bool) {
    && DeathNote(pr)
    && (forall e :: e in pr.pipe ==> e.owner == Some(i) || (exposed && StartupEvent(e)))
    && (pr.mode.Busy? ==> pr.mode.request == i)
    && (!exposed ==> !pr.mode.Booting?)
    && (if pr.stdin == [] && pr.mode.Idle? then
          pr.pipe != [] && EndsJob(pr.pipe[|pr.pipe| - 1], i)
          && forall k :: 0 <= k < |pr.pipe| - 1 ==> !EndsJob(pr.pipe[k], i)
        else
          && pr.stdin == (if pr.mode.Busy? then [] else [i])
          && forall k :: 0 <= k < |pr.pipe| ==> !EndsJob(pr.pipe[k], i))
  }

  predicate ProcessIs(s: State, p: Pid) {
    p in s.procs && (s.process == None || s.process == Some(p))
  }

  /** What the holder's place in the code says about the runtime. */
  predicate HolderInv(s: State, i: Request)
    requires i in s.sessions
  {
    var me := s.sessions[i];
    match me.pc
    case Holding => ProcessFit(s)
    case Started => ProcessClean(s)
    case Starting(p) => ProcessIs(s, p) && StartShape(s.procs[p])
    case Aimed(p) => ProcessIs(s, p) && Clean(s.procs[p], s.exposed)
    case _ =>
      && me.written.Some? && ProcessIs(s, me.written.value)
      && (me.reader.Reading? ==> me.reader.pid == me.written.value)
      && (me.pc.Streaming? ==> !me.finished && !me.condemned)
      && (!me.pc.Streaming? ==> me.finished || me.condemned)
      && (!me.finished ==> JobShape(s.procs[me.written.value], i, s.exposed))
      && (me.finished && !me.condemned ==> Fit(s.procs[me.written.value], s.bootAborted, s.exposed))
      && (me.pc.Closing? && me.condemned ==> s.process == None)
  }

  predicate ProcessFit(s: State) {
    s.process.Some? ==> s.process.value in s.procs && Fit(s.procs[s.process.value], s.bootAborted, s.exposed)
  }

  predicate ProcessClean(s: State) {
    s.process.Some? ==> s.process.value in s.procs && Clean(s.procs[s.process.value], s.exposed)
  }

  /** Before the request is written nothing has been read; a stream is read until it ends. */
  predicate SessionInv(me: Session) {
    && ((me.pc.Outside? || me.pc.Holding? || me.pc.Starting? || me.pc.Started? || me.pc.Aimed?) ==>
          me.written.None? && me.reader.Unopened? && !me.finished && !me.condemned)
    && (me.pc.Streaming? ==> !me.reader.Ended?)
  }

  ghost predicate SlotInv(s: State) {
    && (forall i :: i in s.sessions ==> SessionInv(s.sessions[i]))
    && (forall i :: i in s.sessions ==> (Holds(s.sessions[i]) <==> s.holder == Some(i)))
    && (s.holder.Some? ==> s.holder.value in s.sessions)
    && (forall p :: p in s.procs ==> p < s.nextPid)
    && (s.process.Some? ==> s.process.value in s.procs)
    && (s.exposed ==> s.bootAborted)
  }

  /** Everything session `i` has read was emitted for it, or -- only if some start-up was cut
      short under a live runtime -- by a runtime about its own start-up. */
  predicate OwnEvents(s: State, i: Request)
    requires i in s.sessions
  {
    forall e :: e in s.sessions[i].log ==> e.owner == Some(i) || (s.exposed && e.owner == None)
  }

  ghost predicate Inv(s: State) {
    && SlotInv(s)
    && (s.holder.None? ==> ProcessFit(s))
    && (s.holder.Some? ==> HolderInv(s, s.holder.value))
    && (forall i :: i in s.sessions ==> OwnEvents(s, i))
  }

  ghost predicate Init(s: State) {
    && s.holder == None && s.process == None && s.procs == map[] && s.nextPid == 0 && !s.bootAborted && !s.exposed
    && forall i :: i in s.sessions ==> s.sessions[i] == NEW_SESSION
  }

  lemma InitInv(s: State)
    requires Init(s)
    ensures Inv(s)
  {
  }

  /* ---------- Every step keeps it ---------- */

  lemma AcquireKeeps(s: State, i: Request)
    requires Inv(s) && CanDo(s, i, Acquire)
    ensures Inv(DoStep(s, i, Acquire))
  {
  }

  lemma RefuseKeeps(s: State, i: Request)
    requires Inv(s) && CanDo(s, i, Refuse)
    ensures Inv(DoStep(s, i, Refuse))
  {
  }

  lemma GiveBackKeeps(s: State, i: Request)
    requires Inv(s) && CanDo(s, i, GiveBack)
    ensures Inv(DoStep(s, i, GiveBack))
  {
    assert OwnEvents(s, i);
  }

  lemma AdoptKeeps(s: State, i: Request)
    requires Inv(s) && CanDo(s, i, Adopt)
    ensures Inv(DoStep(s, i, Adopt))
  {
  }

  lemma SpawnKeeps(s: State, i: Request)
    requires Inv(s) && CanDo(s, i, Spawn)
    ensures Inv(DoStep(s, i, Spawn))
  {
    assert OwnEvents(s, i);
  }

  lemma StartupEofKeeps(s: State, i: Request)
    requires Inv(s) && CanDo(s, i, StartupEof)
    ensures Inv(DoStep(s, i, StartupEof))
  {
  }

  lemma AbortStartupKeeps(s: State, i: Request)
    requires Inv(s) && CanDo(s, i, AbortStartup)
    ensures Inv(DoStep(s, i, AbortStartup))
  {
  }

  lemma AimKeeps(s: State, i: Request)
    requires Inv(s) && CanDo(s, i, Aim)
    ensures Inv(DoStep(s, i, Aim))
  {
  }

  lemma WriteKeeps(s: State, i: Request)
    requires Inv(s) && CanDo(s, i, Write)
    ensures Inv(DoStep(s, i, Write))
  {
    assert OwnEvents(s, i);
    var pr := s.procs[s.sessions[i].pc.pid];
    forall k | 0 <= k < |pr.pipe|
      ensures !EndsJob(pr.pipe[k], i)
    {
      assert pr.pipe[k] in pr.pipe;
    }
    HolderMoves(s, DoStep(s, i, Write), i);
  }

  lemma OpenKeeps(s: State, i: Request)
    requires Inv(s) && CanDo(s, i, Open)
    ensures Inv(DoStep(s, i, Open))
  {
    assert OwnEvents(s, i) && HolderInv(s, i);
    if s.process.Some? {
      HolderMoves(s, DoStep(s, i, Open), i);
    }
  }

  lemma EofKeeps(s: State, i: Request)
    requires Inv(s) && CanDo(s, i, Eof)
    ensures Inv(DoStep(s, i, Eof))
  {
  }

  lemma AbandonKeeps(s: State, i: Request)
    requires Inv(s) && CanDo(s, i, Abandon)
    ensures Inv(DoStep(s, i, Abandon))
  {
  }

  /** A runtime's start-up event is taken off its pipe. */
  lemma StartupPopped(pr: Proc)
    requires StartShape(pr) && pr.pipe != []
    ensures var rest := pr.(pipe := pr.pipe[1..]);
            if pr.pipe[0].kind.Ready? then Clean(rest, false) else StartShape(rest)
  {
  }

  lemma ReadReadyKeeps(s: State, i: Request, killed: bool)
    requires Inv(s) && CanDo(s, i, ReadStartup(killed)) && !s.procs[s.sessions[i].pc.pid].pipe[0].kind.Failed?
    ensures Inv(DoStep(s, i, ReadStartup(killed)))
  {
    assert OwnEvents(s, i);
    StartupPopped(s.procs[s.sessions[i].pc.pid]);
  }

  lemma ReadFailedKeeps(s: State, i: Request, killed: bool)
    requires Inv(s) && CanDo(s, i, ReadStartup(killed)) && s.procs[s.sessions[i].pc.pid].pipe[0].kind.Failed?
    ensures Inv(DoStep(s, i, ReadStartup(killed)))
  {
    var s' := DoStep(s, i, ReadStartup(killed));
    assert s.holder == Some(i) && s'.procs.Keys == s.procs.Keys;
    LeftEmpty(s, s', i);
  }

  /** The holder left during start-up, and the worker was left without a runtime. */
  lemma LeftEmpty(s: State, s': State, i: Request)
    requires Inv(s) && s.holder == Some(i) && s.sessions[i].pc.Starting?
    requires s' == s.(holder := None, process := None, procs := s'.procs,
                      sessions := s.sessions[i := s.sessions[i].(pc := Gone)])
    requires s'.procs.Keys == s.procs.Keys
    ensures Inv(s')
  {
    assert OwnEvents(s, i);
  }

  /** A retirement that is not the holder's changes nothing but its own session. */
  lemma RetireRefusedKeeps(s: State, i: Request, killed: bool)
    requires Inv(s) && CanDo(s, i, Retire(killed)) && !(s.sessions[i].condemned && s.holder == Some(i))
    ensures Inv(DoStep(s, i, Retire(killed)))
  {
    var s' := DoStep(s, i, Retire(killed));
    assert s' == With(s, i, s.sessions[i].(pc := Closing));
    assert OwnEvents(s, i);
    if s.holder == Some(i) {
      HolderMoves(s, s', i);
    } else {
      BystanderMoves(s, i, s.sessions[i].(pc := Closing));
    }
  }

  /** Only the holder's own session and runtimes changed, and the holder has accounted for it. */
  lemma HolderMoves(s: State, s': State, i: Request)
    requires Inv(s) && s.holder == Some(i) && i in s'.sessions && s'.procs.Keys == s.procs.Keys
    requires s' == s.(procs := s'.procs, sessions := s.sessions[i := s'.sessions[i]])
    requires SessionInv(s'.sessions[i]) && Holds(s'.sessions[i]) && OwnEvents(s', i) && HolderInv(s', i)
    ensures Inv(s')
  {
    forall j | j in s'.sessions ensures OwnEvents(s', j) {
      assert j != i ==> OwnEvents(s, j);
    }
  }

  lemma BystanderMoves(s: State, i: Request, me: Session)
    requires Inv(s) && i in s.sessions && s.holder != Some(i)
    requires SessionInv(me) && !Holds(me) && me.log == s.sessions[i].log
    ensures Inv(With(s, i, me))
  {
    var s' := With(s, i, me);
    forall j | j in s'.sessions ensures OwnEvents(s', j) {
      assert OwnEvents(s, j);
    }
    if s.holder.Some? {
      assert HolderInv(s, s.holder.value);
    }
  }

  lemma RetireOwnKeeps(s: State, i: Request, killed: bool)
    requires Inv(s) && CanDo(s, i, Retire(killed)) && s.sessions[i].condemned && s.holder == Some(i)
    ensures Inv(DoStep(s, i, Retire(killed)))
  {
    assert OwnEvents(s, i);
    var s' := DoStep(s, i, Retire(killed));
    var p := s.sessions[i].written.value;
    assert s'.procs.Keys == s.procs.Keys && s'.process == None;
    assert s'.procs[p] == s.procs[p] || s'.procs[p] == s.procs[p].(alive := false);
    assert HolderInv(s', i);
  }

  /** The session reads one event of its job. */
  lemma JobPopped(pr: Proc, i: Request, exposed: bool)
    requires JobShape(pr, i, exposed) && pr.pipe != []
    ensures var rest := pr.(pipe := pr.pipe[1..]);
            && (pr.pipe[0].owner == Some(i) || (exposed && pr.pipe[0].owner == None))
            && (Terminal(pr.pipe[0].kind) ==> Fit(rest, exposed, exposed))
            && (!Terminal(pr.pipe[0].kind) ==> JobShape(rest, i, exposed))
  {
  }

  lemma ReadOnKeeps(s: State, i: Request, distrust: bool)
    requires Inv(s) && CanDo(s, i, Read(distrust)) && !Terminal(s.procs[s.sessions[i].reader.pid].pipe[0].kind)
    ensures Inv(DoStep(s, i, Read(distrust)))
  {
    assert OwnEvents(s, i);
    JobPopped(s.procs[s.sessions[i].reader.pid], i, s.exposed);
    var s' := DoStep(s, i, Read(distrust));
    assert OwnEvents(s', i);
    assert HolderInv(s', i);
  }

  lemma ReadLastKeeps(s: State, i: Request, distrust: bool)
    requires Inv(s) && CanDo(s, i, Read(distrust)) && Terminal(s.procs[s.sessions[i].reader.pid].pipe[0].kind)
    ensures Inv(DoStep(s, i, Read(distrust)))
  {
    assert OwnEvents(s, i);
    JobPopped(s.procs[s.sessions[i].reader.pid], i, s.exposed);
    var s' := DoStep(s, i, Read(distrust));
    assert OwnEvents(s', i);
    assert HolderInv(s', i);
  }

  lemma CloseHeldKeeps(s: State, i: Request)
    requires Inv(s) && CanDo(s, i, Close) && s.holder == Some(i)
    ensures Inv(DoStep(s, i, Close))
  {
    assert OwnEvents(s, i);
    assert ProcessFit(s);
  }

  lemma CloseLateKeeps(s: State, i: Request)
    requires Inv(s) && CanDo(s, i, Close) && s.holder != Some(i)
    ensures Inv(DoStep(s, i, Close))
  {
    assert OwnEvents(s, i);
  }

  /** The runtime `p` changed on its own, in a way that keeps whatever was known of it. */
  lemma ProcKeeps(s: State, p: Pid, pr: Proc)
    requires Inv(s) && p in s.procs
    requires Clean(s.procs[p], s.exposed) ==> Clean(pr, s.exposed)
    requires pr.alive ==> s.procs[p].alive
    requires StartShape(s.procs[p]) ==> StartShape(pr)
    requires forall i :: JobShape(s.procs[p], i, s.exposed) ==> JobShape(pr, i, s.exposed)
    ensures Inv(WithProc(s, p, pr))
  {
    var s' := WithProc(s, p, pr);
    forall i | i in s'.sessions
      ensures OwnEvents(s', i)
    {
      assert OwnEvents(s, i);
    }
  }

  lemma EmitKeepsJob(pr: Proc, kind: Kind, i: Request, exposed: bool)
    requires CanEmit(pr, kind) && JobShape(pr, i, exposed)
    ensures JobShape(EmitStep(pr, kind), i, exposed)
  {
  }

  lemma TakeKeepsJob(pr: Proc, i: Request, exposed: bool)
    requires pr.mode.Idle? && pr.stdin != [] && JobShape(pr, i, exposed)
    ensures JobShape(pr.(mode := Busy(pr.stdin[0]), stdin := pr.stdin[1..]), i, exposed)
  {
  }

  lemma EmitKeepsStart(pr: Proc, kind: Kind)
    requires CanEmit(pr, kind) && StartShape(pr)
    ensures StartShape(EmitStep(pr, kind))
  {
  }

  lemma RuntimeKeeps(s: State, m: Move)
    requires Inv(s) && Enabled(s, m) && (m.Emit? || m.Take? || m.Die?)
    ensures Inv(Apply(s, m))
  {
    var pr := s.procs[m.p];
    if m.Emit? {
      forall i | JobShape(pr, i, s.exposed)
        ensures JobShape(EmitStep(pr, m.kind), i, s.exposed)
      {
        EmitKeepsJob(pr, m.kind, i, s.exposed);
      }
      if StartShape(pr) {
        EmitKeepsStart(pr, m.kind);
      }
      ProcKeeps(s, m.p, EmitStep(pr, m.kind));
    } else if m.Take? {
      forall i | JobShape(pr, i, s.exposed)
        ensures JobShape(pr.(mode := Busy(pr.stdin[0]), stdin := pr.stdin[1..]), i, s.exposed)
      {
        TakeKeepsJob(pr, i, s.exposed);
      }
      ProcKeeps(s, m.p, pr.(mode := Busy(pr.stdin[0]), stdin := pr.stdin[1..]));
    } else {
      ProcKeeps(s, m.p, pr.(alive := false));
    }
  }

  lemma TerminateKeeps(s: State, dead: set<Pid>)
    requires Inv(s)
    ensures Inv(Apply(s, Terminate(dead)))
  {
    var s' := Apply(s, Terminate(dead));
    forall i | i in s'.sessions
      ensures OwnEvents(s', i)
    {
      assert OwnEvents(s, i);
    }
  }

  lemma SubmitKeeps(s: State, i: Request, a: Act)
    requires Inv(s) && CanDo(s, i, a)
    requires a.Acquire? || a.Refuse? || a.GiveBack? || a.Adopt? || a.Spawn? || a.ReadStartup? || a.StartupEof?
        || a.AbortStartup?
    ensures Inv(DoStep(s, i, a))
  {
    match a
    case Acquire => AcquireKeeps(s, i);
    case Refuse => RefuseKeeps(s, i);
    case GiveBack => GiveBackKeeps(s, i);
    case Adopt => AdoptKeeps(s, i);
    case Spawn => SpawnKeeps(s, i);
    case ReadStartup(killed) =>
      if s.procs[s.sessions[i].pc.pid].pipe[0].kind.Failed? {
        ReadFailedKeeps(s, i, killed);
      } else {
        ReadReadyKeeps(s, i, killed);
      }
    case StartupEof => StartupEofKeeps(s, i);
    case AbortStartup => AbortStartupKeeps(s, i);
  }

  lemma StreamKeeps(s: State, i: Request, a: Act)
    requires Inv(s) && CanDo(s, i, a)
    requires a.Aim? || a.Write? || a.Open? || a.Read? || a.Eof? || a.Abandon? || a.Retire? || a.Close?
    ensures Inv(DoStep(s, i, a))
  {
    match a
    case Aim => AimKeeps(s, i);
    case Write => WriteKeeps(s, i);
    case Open => OpenKeeps(s, i);
    case Read(distrust) =>
      if Terminal(s.procs[s.sessions[i].reader.pid].pipe[0].kind) {
        ReadLastKeeps(s, i, distrust);
      } else {
        ReadOnKeeps(s, i, distrust);
      }
    case Eof => EofKeeps(s, i);
    case Abandon => AbandonKeeps(s, i);
    case Retire(killed) =>
      if s.sessions[i].condemned && s.holder == Some(i) {
        RetireOwnKeeps(s, i, killed);
      } else {
        RetireRefusedKeeps(s, i, killed);
      }
    case Close => if s.holder == Some(i) { CloseHeldKeeps(s, i); } else { CloseLateKeeps(s, i); }
  }

  lemma ShutKeeps(s: State)
    requires Inv(s)
    ensures Inv(Apply(s, Shut))
  {
  }

  /** Every step of every session, of the runtimes and of an unconditional `terminate` keeps
      the invariant. */
  lemma StepKeeps(s: State, m: Move)
    requires Inv(s) && Enabled(s, m)
    ensures Inv(Apply(s, m))
  {
    match m
    case Terminate(dead) => TerminateKeeps(s, dead);
    case Shut => ShutKeeps(s);
    case Do(i, a) =>
      if a.Acquire? || a.Refuse? || a.GiveBack? || a.Adopt? || a.Spawn? || a.ReadStartup? || a.StartupEof?
          || a.AbortStartup? {
        SubmitKeeps(s, i, a);
      } else {
        StreamKeeps(s, i, a);
      }
    case _ => RuntimeKeeps(s, m);
  }

  /* ---------- Every run ---------- */

  ghost predicate Next(s: State, s': State) {
    exists m :: Enabled(s, m) && s' == Apply(s, m)
  }

  ghost predicate IsRun(run: seq<State>) {
    |run| > 0 && Init(run[0]) && forall k :: 0 <= k < |run| - 1 ==> Next(run[k], run[k + 1])
  }

  lemma {:induction false} RunKeeps(run: seq<State>, n: nat)
    requires IsRun(run) && n < |run|
    ensures Inv(run[n])
  {
    if n == 0 {
      InitInv(run[0]);
    } else {
      RunKeeps(run, n - 1);
      assert Next(run[n - 1], run[n - 1 + 1]);
      var m :| Enabled(run[n - 1], m) && run[n] == Apply(run[n - 1], m);
      StepKeeps(run[n - 1], m);
    }
  }

  /** Event attribution. In every state of every run, whatever a session has read was emitted
      for its own request, unless it is a runtime's remark about its own start-up, which can be
      left over only if some start-up was cut short while its runtime was alive and the worker's.
      (`WorkerLapses.CutShortStartup`: then, and only then, it can be.) */
  lemma EventAttribution(run: seq<State>, n: nat, i: Request, k: nat)
    requires IsRun(run) && n < |run| && i in run[n].sessions && k < |run[n].sessions[i].log|
    ensures run[n].sessions[i].log[k].owner in {Some(i), None}
    ensures !run[n].exposed ==> run[n].sessions[i].log[k].owner == Some(i)
  {
    RunKeeps(run, n);
    assert OwnEvents(run[n], i);
    assert run[n].sessions[i].log[k] in run[n].sessions[i].log;
  }

  /** Whenever the slot is free the worker has no runtime, a dead one, or one that no request was
      written to and nothing of any request can be read from; unless a start-up was ever cut
      short it has none or an idle one with an empty pipe. And no two sessions hold the slot. */
  lemma FreeMeansClean(run: seq<State>, n: nat)
    requires IsRun(run) && n < |run|
    ensures run[n].holder.None? && run[n].process.Some? ==>
              && run[n].process.value in run[n].procs
              && (var pr := run[n].procs[run[n].process.value];
                  && (pr.alive ==> pr.stdin == [] && !pr.mode.Busy? && forall e :: e in pr.pipe ==> e.owner == None)
                  && (!run[n].bootAborted ==> pr.stdin == [] && pr.mode.Idle? && pr.pipe == []))
    ensures forall i, j ::
              i in run[n].sessions && j in run[n].sessions && Holds(run[n].sessions[i]) && Holds(run[n].sessions[j])
              ==> i == j
  {
    RunKeeps(run, n);
  }

  /** The slot is only ever given back by its holder. */
  lemma OnlyTheHolderFrees(s: State, m: Move, i: Request)
    requires SlotInv(s) && Enabled(s, m) && s.holder == Some(i) && Apply(s, m).holder != Some(i)
    ensures m.Do? && m.i == i
  {
  }

  /** Retirement before release: a step by which a session that wrote its request and has not
      read its end gives the slot back leaves the worker without that runtime. */
  lemma UnfinishedIsForgotten(s: State, m: Move, i: Request)
    requires Inv(s) && Enabled(s, m) && s.holder == Some(i) && s.sessions[i].written.Some?
    requires Apply(s, m).holder != Some(i) && i in Apply(s, m).sessions && !Apply(s, m).sessions[i].finished
    ensures Apply(s, m).process == None
  {
    OnlyTheHolderFrees(s, m, i);
    assert HolderInv(s, i) && SessionInv(s.sessions[i]);
  }

  /** The same over runs: between a state where `i` holds the slot and the next, where it does
      not, the unfinished job's runtime was given up. */
  lemma RunForgetsUnfinished(run: seq<State>, n: nat, i: Request)
    requires IsRun(run) && n + 1 < |run|
    requires run[n].holder == Some(i) && run[n + 1].holder != Some(i)
    requires i in run[n].sessions && run[n].sessions[i].written.Some?
    requires i in run[n + 1].sessions && !run[n + 1].sessions[i].finished
    ensures run[n + 1].process == None
  {
    RunKeeps(run, n);
    assert Next(run[n], run[n + 1]);
    var m :| Enabled(run[n], m) && run[n + 1] == Apply(run[n], m);
    UnfinishedIsForgotten(run[n], m, i);
  }

  /** A session's retirement never touches a runtime another session holds, and never one the
      session itself has already given back. */
  lemma StaleRetireIsHarmless(s: State, i: Request, killed: bool)
    requires Inv(s) && CanDo(s, i, Retire(killed)) && s.holder != Some(i)
    ensures DoStep(s, i, Retire(killed)).process == s.process && DoStep(s, i, Retire(killed)).procs == s.procs
    ensures s.sessions[i].reader.Ended?
  {
  }
}
