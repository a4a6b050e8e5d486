/** The worker host (hornlab_beat_bem/worker_host.py): any number of client connections and
    warm-up threads over one engine, which is the worker of `Workers`.

    Every step of the host is some steps of that worker -- none, one or two -- together with
    what the host itself keeps: the job lock, the connection count, the running flag and the
    time of last activity. So whatever holds in every state of the worker holds here. */
module Host {
  import opened Prelude
  import W = Workers

  type Client = nat

  datatype Kind = Submit | Ensure

  /** Where a connection's thread is. `Counted` lies between raising the connection count and
      sending `hello_ok`. */
  datatype Pc =
    | Fresh
    | Counted
    | Reading
    | Wanting(request: W.Request, kind: Kind)
    | Locked(request: W.Request, kind: Kind)
    | InJob(request: W.Request, kind: Kind)
    | Retiring
    | Ended
    | Gone

  /** For whom the engine's sessions run. */
  datatype Role = Warm | Job(client: Client)

  datatype State = State(
    engine: W.State,
    roles: map<W.Request, Role>,
    sent: map<W.Request, seq<W.Event>>,
    jobLock: Option<Client>,
    clients: map<Client, Pc>,
    connections: int,
    leaked: nat,
    jobRunning: bool,
    lastActivity: real,
    now: real,
    idleTimeout: real,
    stopping: bool)

  datatype Move =
    | Greet(c: Client)
    | Refuse(c: Client)
    | Hello(c: Client, delivered: bool)
    | Ask(c: Client, request: W.Request, kind: Kind)
    | LockJob(c: Client)
    | Begin(c: Client)
    | Engine(c: Client, act: W.Act)
    | Relay(c: Client, delivered: bool)
    | RetireJob(c: Client, dead: set<W.Pid>)
    | End(c: Client)
    | Unlock(c: Client)
    | TryRetire(c: Client)
    | RetireForClient(c: Client, dead: set<W.Pid>)
    | Leave(c: Client)
    | WarmUp(request: W.Request, act: W.Act)
    | Runtime(move: W.Move)
    | RefuseAll
    | Stop(dead: set<W.Pid>)
    | Tick(seconds: real)
    | IdleTest

  /* ---------- Steps ---------- */

  predicate IsJob(s: State, c: Client, kind: Option<Kind>) {
    && c in s.clients && s.clients[c].InJob?
    && s.clients[c].request in s.engine.sessions
    && (kind.Some? ==> s.clients[c].kind == kind.value)
  }

  /** What `ensure_started` may do with the engine's slot. */
  predicate StartupAct(a: W.Act) {
    a.Acquire? || a.Refuse? || a.GiveBack? || a.Adopt? || a.Spawn? || a.ReadStartup? || a.StartupEof? || a.AbortStartup?
  }

  /** What a submission's thread does by itself. Reading is `Relay`, and a runtime it has to
      distrust is retired by `RetireJob`, not through the slot. */
  predicate JobAct(me: W.Session, kind: Kind, a: W.Act) {
    StartupAct(a) || (kind.Submit? && !a.Read? && (a.Retire? ==> !me.condemned))
  }

  predicate Enabled(s: State, m: Move) {
    match m
    case Greet(c) => c in s.clients && s.clients[c].Fresh?
    case Refuse(c) => c in s.clients && s.clients[c].Fresh?
    case Hello(c, _) => c in s.clients && s.clients[c].Counted?
    case Ask(c, r, _) =>
      && c in s.clients && s.clients[c].Reading?
      && r in s.roles && s.roles[r] == Job(c) && r in s.engine.sessions && s.engine.sessions[r].pc.Outside?
    case LockJob(c) => c in s.clients && s.clients[c].Wanting? && s.jobLock.None?
    case Begin(c) => c in s.clients && s.clients[c].Locked?
    case Engine(c, a) =>
      IsJob(s, c, None) && W.CanDo(s.engine, s.clients[c].request, a)
      && JobAct(s.engine.sessions[s.clients[c].request], s.clients[c].kind, a)
    case Relay(c, _) => IsJob(s, c, Some(Submit)) && W.CanDo(s.engine, s.clients[c].request, W.Read(false))
    case RetireJob(c, _) =>
      IsJob(s, c, Some(Submit))
          && (s.engine.sessions[s.clients[c].request].pc.Retiring? || s.engine.sessions[s.clients[c].request].pc.Gone?)
    case End(c) => IsJob(s, c, None) && s.engine.sessions[s.clients[c].request].pc.Gone?
    case Unlock(c) => c in s.clients && s.clients[c].Ended?
    case TryRetire(c) => c in s.clients && s.clients[c].Reading? && s.jobLock.None?
    case RetireForClient(c, _) => c in s.clients && s.clients[c].Retiring?
    case Leave(c) => c in s.clients && s.clients[c].Reading?
    case WarmUp(r, a) => r in s.roles && s.roles[r].Warm? && StartupAct(a) && W.CanDo(s.engine, r, a)
    case Runtime(w) => (w.Emit? || w.Take? || w.Die?) && W.Enabled(s.engine, w)
    case RefuseAll => true
    case Stop(_) => s.engine.closed
    case Tick(d) => d >= 0.0
    case IdleTest => true
  }

  function At(s: State, c: Client, pc: Pc): State {
    s.(clients := s.clients[c := pc])
  }

  function Touched(s: State): State {
    s.(lastActivity := s.now)
  }

  /** The request's events so far, as sent to its client. */
  function Sent(s: State, r: W.Request): seq<W.Event> {
    if r in s.sent then s.sent[r] else []
  }

  /** One event is read from the engine and sent on; a client that is gone ends the reading. */
  function RelayStep(s: State, r: W.Request, delivered: bool): State
    requires W.CanDo(s.engine, r, W.Read(false))
  {
    var read := W.DoStep(s.engine, r, W.Read(false));
    var e := read.sessions[r].log[|read.sessions[r].log| - 1];
    if delivered then s.(engine := read, sent := s.sent[r := Sent(s, r) + [e]])
    else s.(engine := if W.CanDo(read, r, W.Abandon) then W.DoStep(read, r, W.Abandon) else read)
  }

  /** `_retire`: the unconditional `terminate`, after which the job's own way out of the slot is
      the next thing to happen to it. */
  function RetireJobStep(s: State, r: W.Request, dead: set<W.Pid>): State {
    var terminated := W.Apply(s.engine, W.Terminate(dead));
    s.(engine := if W.CanDo(terminated, r, W.Retire(false)) then W.DoStep(terminated, r, W.Retire(false))
                 else terminated)
  }

  /** `_idle_for`. */
  function IdleFor(s: State): real {
    if s.connections > 0 || s.jobRunning then 0.0 else s.now - s.lastActivity
  }

  function Apply(s: State, m: Move): State
    requires Enabled(s, m)
  {
    match m
    case Greet(c) => Touched(At(s, c, Counted).(connections := s.connections + 1))
    case Refuse(c) => At(s, c, Gone)
    case Hello(c, delivered) => if delivered then At(s, c, Reading) else At(s, c, Gone).(leaked := s.leaked + 1)
    case Ask(c, r, kind) => At(s, c, Wanting(r, kind))
    case LockJob(c) => At(s, c, Locked(s.clients[c].request, s.clients[c].kind)).(jobLock := Some(c))
    case Begin(c) => Touched(At(s, c, InJob(s.clients[c].request, s.clients[c].kind)).(jobRunning := true))
    case Engine(c, a) => s.(engine := W.DoStep(s.engine, s.clients[c].request, a))
    case Relay(c, delivered) => RelayStep(s, s.clients[c].request, delivered)
    case RetireJob(c, dead) => RetireJobStep(s, s.clients[c].request, dead)
    case End(c) => Touched(At(s, c, Ended).(jobRunning := false))
    case Unlock(c) => At(s, c, Reading).(jobLock := None)
    case TryRetire(c) => At(s, c, Retiring).(jobLock := Some(c))
    case RetireForClient(c, dead) => At(s, c, Ended).(engine := W.Apply(s.engine, W.Terminate(dead)))
    case Leave(c) => Touched(At(s, c, Gone).(connections := if s.connections - 1 > 0 then s.connections - 1 else 0))
    case WarmUp(r, a) => s.(engine := W.DoStep(s.engine, r, a))
    case Runtime(w) => s.(engine := W.Apply(s.engine, w))
    case RefuseAll => s.(engine := W.Apply(s.engine, W.Shut), stopping := true)
    case Stop(dead) => s.(engine := W.Apply(s.engine, W.Terminate(dead)))
    case Tick(d) => s.(now := s.now + d)
    case IdleTest => s.(stopping := s.stopping || IdleFor(s) >= s.idleTimeout)
  }

  /* ---------- The invariant ---------- */

  predicate HasLock(pc: Pc) {
    pc.Locked? || pc.InJob? || pc.Retiring? || pc.Ended?
  }

  /** A connection that was told `hello_ok` and has not gone. */
  predicate Greeted(pc: Pc) {
    !pc.Fresh? && !pc.Counted? && !pc.Gone?
  }

  function Counting(s: State): set<Client> {
    set c | c in s.clients && (Greeted(s.clients[c]) || s.clients[c].Counted?)
  }

  ghost predicate LockInv(s: State) {
    && (forall c :: c in s.clients ==> (HasLock(s.clients[c]) <==> s.jobLock == Some(c)))
    && (s.jobLock.Some? ==> s.jobLock.value in s.clients)
    && (s.jobRunning <==> s.jobLock.Some? && s.clients[s.jobLock.value].InJob?)
  }

  /** A job's session is inside the engine only while its connection is inside the job. */
  predicate RequestInv(s: State, r: W.Request) {
    r in s.roles && s.roles[r].Job? && r in s.engine.sessions
    && !s.engine.sessions[r].pc.Outside? && !s.engine.sessions[r].pc.Gone? ==>
      s.roles[r].client in s.clients && s.clients[s.roles[r].client].InJob? && s.clients[s.roles[r].client].request == r
  }

  predicate ClientInv(s: State, c: Client)
    requires c in s.clients
  {
    var pc := s.clients[c];
    && (pc.Wanting? || pc.Locked? || pc.InJob? ==>
        pc.request in s.roles && s.roles[pc.request] == Job(c) && pc.request in s.engine.sessions)
    && (pc.Wanting? || pc.Locked? ==> s.engine.sessions[pc.request].pc.Outside?)
  }

  predicate SentInv(s: State, r: W.Request)
    requires r in s.sent
  {
    r in s.engine.sessions && forall e :: e in s.sent[r] ==> e in s.engine.sessions[r].log
  }

  /** What the host keeps, whatever state the engine is in. */
  ghost predicate HostInv(s: State) {
    && LockInv(s)
    && (forall r :: RequestInv(s, r))
    && (forall c :: c in s.clients ==> ClientInv(s, c))
    && (forall r :: r in s.sent ==> SentInv(s, r))
    && s.connections == |Counting(s)| + s.leaked
    && s.lastActivity <= s.now
    && (forall r :: r in s.engine.sessions ==> r in s.roles)
  }

  ghost predicate Inv(s: State) {
    W.Inv(s.engine) && HostInv(s)
  }

  ghost predicate Init(s: State) {
    && W.Init(s.engine) && s.sent == map[] && s.jobLock == None && s.connections == 0 && s.leaked == 0
    && !s.jobRunning && s.lastActivity == s.now && !s.stopping
    && (forall c :: c in s.clients ==> s.clients[c] == Fresh)
    && (forall r :: r in s.engine.sessions ==> r in s.roles)
  }

  lemma InitInv(s: State)
    requires Init(s)
    ensures Inv(s)
  {
  }
}
