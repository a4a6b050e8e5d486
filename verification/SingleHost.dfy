/** Clients finding or starting the one host of a worker key
    (hornlab_beat_bem/worker_client.py, worker_registry.py).

    Clients look at the registry record, try to greet the host it names, and otherwise take the
    spawn lock, look again, clear the record, launch a host and wait for it to publish itself.
    Hosts publish, crash at any moment, or drain: a host that is told to stop, or that has been
    idle, first stops answering and only then removes the key file -- whatever the key file
    then says. A client that has waited too long gives up, and leaves the host it launched to
    itself. `Safe` singles out the removals that hit the host's own record, and the clients that
    give up on no host that is still starting. */
module SingleHost {
  import opened Prelude

  type Client = nat
  type Pid = nat

  datatype Phase = Starting | Serving | Draining | Wedged | Dead

  datatype Record = Record(pid: Pid, token: nat)

  datatype Host = Host(phase: Phase, token: nat)

  datatype Pc =
    | Begin
    | Greeting(record: Record, second: bool)
    | NeedHost(replacing: Option<Record>)
    | Under(replacing: Option<Record>)
    | Clearing
    | Launching
    | Polling(pid: Pid)
    | Connected(pid: Pid)
    | Failed

  /** `lost` notes that some live host crashed, was drained or was given up on. */
  datatype State = State(
    record: Option<Record>,
    lock: Option<Client>,
    hosts: map<Pid, Host>,
    nextPid: Pid,
    clients: map<Client, Pc>,
    launches: nat,
    lost: bool)

  datatype Move =
    | Look(c: Client)
    | Greet(c: Client)
    | TakeLock(c: Client)
    | Relook(c: Client)
    | Clear(c: Client)
    | Launch(c: Client, token: nat)
    | Poll(c: Client)
    | GiveUp(c: Client)
    | Publish(h: Pid)
    | Crash(h: Pid)
    | Drain(h: Pid)
    | RemoveKey(h: Pid)

  predicate Alive(s: State, p: Pid) {
    p in s.hosts && !s.hosts[p].phase.Dead?
  }

  /** A host that serves clients or is about to. */
  predicate Live(s: State, p: Pid) {
    p in s.hosts && (s.hosts[p].phase.Starting? || s.hosts[p].phase.Serving?)
  }

  /** `_live_record`. */
  function LiveRecord(s: State): Option<Record> {
    if s.record.Some? && Alive(s, s.record.value.pid) then s.record else None
  }

  /** The host a record names answers the handshake with the record's token. */
  predicate Answers(s: State, r: Record) {
    r.pid in s.hosts && s.hosts[r.pid] == Host(Serving, r.token)
  }

  predicate Enabled(s: State, m: Move) {
    match m
    case Look(c) => c in s.clients && s.clients[c].Begin?
    case Greet(c) => c in s.clients && s.clients[c].Greeting?
    case TakeLock(c) => c in s.clients && s.clients[c].NeedHost? && s.lock.None?
    case Relook(c) => c in s.clients && s.clients[c].Under?
    case Clear(c) => c in s.clients && s.clients[c].Clearing?
    case Launch(c, token) => c in s.clients && s.clients[c].Launching?
    case Poll(c) => c in s.clients && s.clients[c].Polling? && (LiveRecord(s).Some? || !Alive(s, s.clients[c].pid))
    case GiveUp(c) => c in s.clients && s.clients[c].Polling?
    case Publish(h) => h in s.hosts && s.hosts[h].phase.Starting?
    case Crash(h) => Alive(s, h)
    case Drain(h) => h in s.hosts && s.hosts[h].phase.Serving?
    case RemoveKey(h) => h in s.hosts && s.hosts[h].phase.Draining?
  }

  function Go(s: State, c: Client, pc: Pc): State {
    s.(clients := s.clients[c := pc])
  }

  function Become(s: State, h: Pid, phase: Phase): State
    requires h in s.hosts
  {
    s.(hosts := s.hosts[h := s.hosts[h].(phase := phase)])
  }

  /** `terminate_pid`: a serving host stops accepting and drains; one that is starting has no
      handler yet, and one that does not answer is taken to die of it. */
  function Terminated(phase: Phase): Phase {
    match phase
    case Serving => Draining
    case Draining => Draining
    case _ => Dead
  }

  /** `_clear_stale_entry`: whatever the record says is terminated, and the record removed. */
  function ClearStep(s: State): State {
    var stopped := if s.record.Some? && s.record.value.pid in s.hosts
                   then Become(s, s.record.value.pid, Terminated(s.hosts[s.record.value.pid].phase)) else s;
    stopped.(record := None)
  }

  function Apply(s: State, m: Move): State
    requires Enabled(s, m)
  {
    match m
    case Look(c) =>
      Go(s, c, if LiveRecord(s).Some? then Greeting(LiveRecord(s).value, false) else NeedHost(None))
    case Greet(c) =>
      var r := s.clients[c].record;
      Go(s, c, if Answers(s, r) then Connected(r.pid) else if s.clients[c].second then Failed else NeedHost(Some(r)))
    case TakeLock(c) => Go(s, c, Under(s.clients[c].replacing)).(lock := Some(c))
    case Relook(c) =>
      if LiveRecord(s).Some? && LiveRecord(s) != s.clients[c].replacing
      then Go(s, c, Greeting(LiveRecord(s).value, true)).(lock := None)
      else Go(s, c, Clearing)
    case Clear(c) => Go(ClearStep(s), c, Launching)
    case Launch(c, token) =>
      Go(s, c, Polling(s.nextPid))
        .(hosts := s.hosts[s.nextPid := Host(Starting, token)], nextPid := s.nextPid + 1, launches := s.launches + 1)
    case Poll(c) =>
      Go(s, c, if LiveRecord(s).Some? then Greeting(LiveRecord(s).value, true) else Failed).(lock := None)
    case GiveUp(c) => Go(s, c, Failed).(lock := None, lost := true)
    case Publish(h) => Become(s, h, Serving).(record := Some(Record(h, s.hosts[h].token)))
    case Crash(h) => Become(s, h, Dead).(lost := s.lost || Live(s, h))
    case Drain(h) => Become(s, h, Draining).(lost := true)
    case RemoveKey(h) => Become(s, h, Dead).(record := None)
  }

  /** The client gives up on a host that has neither published itself nor died. */
  predicate Orphans(s: State, c: Client) {
    c in s.clients && s.clients[c].Polling? && s.clients[c].pid in s.hosts && s.hosts[s.clients[c].pid].phase.Starting?
  }

  /** The removal of a key file by a draining host hits its own record, or none; and no client
      gives up on a host that is still starting. */
  predicate Safe(s: State, m: Move) {
    && (m.RemoveKey? ==> s.record.None? || s.record.value.pid == m.h)
    && (m.GiveUp? ==> !Orphans(s, m.c))
  }

  /* ---------- The invariant ---------- */

  predicate HasLock(pc: Pc) {
    pc.Under? || pc.Clearing? || pc.Launching? || pc.Polling?
  }

  /** A record whose host can serve nobody any more. */
  predicate Spent(s: State, r: Record) {
    !Live(s, r.pid)
  }

  /** The record names a host that is alive and has never answered. */
  predicate WedgedRecord(s: State) {
    s.record.Some? && s.record.value.pid in s.hosts && s.hosts[s.record.value.pid].phase.Wedged?
  }

  predicate ClientInv(s: State, c: Client)
    requires c in s.clients
  {
    var pc := s.clients[c];
    && (HasLock(pc) <==> s.lock == Some(c))
    && (pc.Greeting? ==>
        (Live(s, pc.record.pid) ==> Answers(s, pc.record)) && (!s.lost && pc.second ==> Answers(s, pc.record)))
    && (pc.Greeting? ==> pc.record.pid < s.nextPid)
    && ((pc.NeedHost? || pc.Under?) && pc.replacing.Some? ==> pc.replacing.value.pid < s.nextPid)
    && (pc.Greeting? && s.record != Some(pc.record) ==> !WedgedRecord(s))
    && (pc.NeedHost? || pc.Under? ==>
          (pc.replacing.Some? ==> Spent(s, pc.replacing.value)) && (s.record != pc.replacing ==> !WedgedRecord(s)))
    && (pc.Launching? ==> s.record.None?)
    && (pc.Polling? ==>
          && pc.pid in s.hosts && (!s.lost ==> Live(s, pc.pid))
          && (s.record.None? || s.record.value.pid == pc.pid))
    && (pc.Failed? ==> s.lost)
    && (pc.Connected? && !s.lost ==> pc.pid in s.hosts && s.hosts[pc.pid].phase.Serving?)
  }

  predicate HostInv(s: State, h: Pid)
    requires h in s.hosts
  {
    && h < s.nextPid
    && (s.hosts[h].phase.Draining? ==> s.lost)
    && (s.hosts[h].phase.Serving? ==> s.record == Some(Record(h, s.hosts[h].token)))
    && (s.hosts[h].phase.Starting? ==>
        s.lock.Some? && s.lock.value in s.clients && s.clients[s.lock.value] == Polling(h))
  }

  predicate NoneLive(s: State) {
    forall h :: h in s.hosts ==> !Live(s, h)
  }

  predicate OnlyLive(s: State, p: Pid) {
    forall h :: h in s.hosts && Live(s, h) ==> h == p
  }

  /** What holds of the hosts because of where the holder of the spawn lock is. */
  predicate LockInv(s: State) {
    s.lock.Some? ==>
      && s.lock.value in s.clients
      && (s.clients[s.lock.value].Clearing? || s.clients[s.lock.value].Launching? ==> NoneLive(s))
      && (s.clients[s.lock.value].Polling? ==> OnlyLive(s, s.clients[s.lock.value].pid))
  }

  predicate LaunchInv(s: State) {
    && (s.record.Some? ==> s.record.value.pid < s.nextPid)
    && (s.record.Some? && Live(s, s.record.value.pid) ==> Answers(s, s.record.value))
    && (!s.lost ==> s.launches <= 1 && (s.launches == 1 ==> !NoneLive(s)))
  }

  ghost predicate Inv(s: State) {
    && (forall c :: c in s.clients ==> ClientInv(s, c))
    && (forall h :: h in s.hosts ==> HostInv(s, h))
    && LockInv(s)
    && LaunchInv(s)
  }

  /** Any number of clients, none started; and a registry that is empty, or names a process that
      is gone, a host that does not answer, or one that serves. */
  ghost predicate Init(s: State) {
    && s.lock == None && s.launches == 0 && !s.lost
    && (s.record.Some? ==> s.record.value.pid < s.nextPid)
    && (forall c :: c in s.clients ==> s.clients[c] == Begin)
    && (forall h :: h in s.hosts ==> h < s.nextPid && s.record.Some? && s.record.value.pid == h
                                     && (s.hosts[h].phase.Wedged? || s.hosts[h].phase.Dead?
                                         || s.hosts[h] == Host(Serving, s.record.value.token)))
  }

  lemma InitInv(s: State)
    requires Init(s)
    ensures Inv(s)
  {
  }

  lemma LookKeeps(s: State, c: Client)
    requires Inv(s) && Enabled(s, Look(c))
    ensures Inv(Apply(s, Look(c)))
  {
  }

  /** Client `c`, not polling, went somewhere else, and no host and no record changed. */
  lemma HostsStand(s: State, s': State, c: Client)
    requires Inv(s) && c in s.clients && !s.clients[c].Polling?
    requires s' == s.(clients := s'.clients, lock := s'.lock) && c in s'.clients
        && s'.clients == s.clients[c := s'.clients[c]]
    requires s.lock == s'.lock || (s.lock.None? && s'.lock == Some(c)) || (s.lock == Some(c) && s'.lock.None?)
    requires s'.clients[c].Clearing? ==> NoneLive(s)
    requires !s'.clients[c].Launching? && !s'.clients[c].Polling?
    ensures forall h :: h in s'.hosts ==> HostInv(s', h)
    ensures LockInv(s') && LaunchInv(s')
  {
  }

  lemma GreetKeeps(s: State, c: Client)
    requires Inv(s) && Enabled(s, Greet(c))
    ensures Inv(Apply(s, Greet(c)))
  {
  }

  lemma TakeLockKeeps(s: State, c: Client)
    requires Inv(s) && Enabled(s, TakeLock(c))
    ensures Inv(Apply(s, TakeLock(c)))
  {
  }

  /** Under the lock, a record that is dead, or is the one the client could not greet, means
      that no host is live at all. */
  lemma NothingToAdopt(s: State, c: Client)
    requires Inv(s) && Enabled(s, Relook(c))
    requires LiveRecord(s).None? || LiveRecord(s) == s.clients[c].replacing
    ensures NoneLive(s)
  {
  }

  lemma RelookKeeps(s: State, c: Client)
    requires Inv(s) && Enabled(s, Relook(c))
    ensures Inv(Apply(s, Relook(c)))
  {
    var s' := Apply(s, Relook(c));
    assert ClientInv(s, c);
    if LiveRecord(s).Some? {
      assert HostInv(s, LiveRecord(s).value.pid);
    }
    forall d | d in s'.clients
      ensures ClientInv(s', d)
    {
      assert ClientInv(s, d);
    }
    if LiveRecord(s).None? || LiveRecord(s) == s.clients[c].replacing {
      NothingToAdopt(s, c);
    }
    HostsStand(s, s', c);
  }

  lemma PollKeeps(s: State, c: Client)
    requires Inv(s) && Enabled(s, Poll(c))
    ensures Inv(Apply(s, Poll(c)))
  {
  }

  lemma ClearKeeps(s: State, c: Client)
    requires Inv(s) && Enabled(s, Clear(c))
    ensures Inv(Apply(s, Clear(c)))
  {
    assert ClientInv(s, c);
    var s' := Apply(s, Clear(c));
    forall h | h in s'.hosts
      ensures HostInv(s', h) && !Live(s', h)
    {
      assert HostInv(s, h) && !Live(s, h);
    }
    forall d | d in s'.clients
      ensures ClientInv(s', d)
    {
      assert ClientInv(s, d);
    }
  }

  lemma LaunchKeeps(s: State, c: Client, token: nat)
    requires Inv(s) && Enabled(s, Launch(c, token))
    ensures Inv(Apply(s, Launch(c, token)))
  {
  }

  lemma PublishKeeps(s: State, h: Pid)
    requires Inv(s) && Enabled(s, Publish(h))
    ensures Inv(Apply(s, Publish(h)))
  {
  }

  lemma GoneKeeps(s: State, m: Move)
    requires Inv(s) && Enabled(s, m) && (m.Crash? || m.Drain?)
    ensures Inv(Apply(s, m))
  {
    assert HostInv(s, m.h);
    var s' := Apply(s, m);
    forall g | g in s'.hosts
      ensures HostInv(s', g) && (Live(s', g) <==> Live(s, g) && g != m.h)
    {
      assert HostInv(s, g);
    }
    forall c | c in s'.clients
      ensures ClientInv(s', c)
    {
      assert ClientInv(s, c);
    }
  }

  lemma RemoveKeeps(s: State, h: Pid)
    requires Inv(s) && Enabled(s, RemoveKey(h))
    requires s.record.None? || !(s.record.value.pid in s.hosts && s.hosts[s.record.value.pid].phase.Serving?)
    ensures Inv(Apply(s, RemoveKey(h)))
  {
  }

  /** A draining host's unconditional removal of the key file keeps everything the others rely
      on exactly if the key file does not, by then, name a host that serves. */
  lemma RemovalIsHarmless(s: State, h: Pid)
    requires Inv(s) && Enabled(s, RemoveKey(h))
    ensures Inv(Apply(s, RemoveKey(h)))
            <==> s.record.None? || !(s.record.value.pid in s.hosts && s.hosts[s.record.value.pid].phase.Serving?)
  {
    if s.record.Some? && s.record.value.pid in s.hosts && s.hosts[s.record.value.pid].phase.Serving? {
      var s' := Apply(s, RemoveKey(h));
      assert !HostInv(s', s.record.value.pid);
    } else {
      RemoveKeeps(s, h);
    }
  }

  /** A client that gives up keeps everything the others rely on exactly if the host it launched
      is not still starting: the spawn lock it lets go of was all that kept others from
      launching another. */
  lemma GivingUpIsHarmless(s: State, c: Client)
    requires Inv(s) && Enabled(s, GiveUp(c))
    ensures Inv(Apply(s, GiveUp(c))) <==> !Orphans(s, c)
  {
    assert ClientInv(s, c);
    var h := s.clients[c].pid;
    if Orphans(s, c) {
      assert !HostInv(Apply(s, GiveUp(c)), h);
    } else {
      GiveUpKeeps(s, c);
    }
  }

  lemma GiveUpKeeps(s: State, c: Client)
    requires Inv(s) && Enabled(s, GiveUp(c)) && !Orphans(s, c)
    ensures Inv(Apply(s, GiveUp(c)))
  {
    var s' := Apply(s, GiveUp(c));
    assert ClientInv(s, c);
    forall h | h in s'.hosts ensures HostInv(s', h) {
      assert HostInv(s, h);
    }
    forall d | d in s'.clients ensures ClientInv(s', d) {
      assert ClientInv(s, d);
    }
  }

  lemma StepKeeps(s: State, m: Move)
    requires Inv(s) && Enabled(s, m) && Safe(s, m)
    ensures Inv(Apply(s, m))
  {
    match m
    case Look(c) => LookKeeps(s, c);
    case Greet(c) => GreetKeeps(s, c);
    case TakeLock(c) => TakeLockKeeps(s, c);
    case Relook(c) => RelookKeeps(s, c);
    case Clear(c) => ClearKeeps(s, c);
    case Launch(c, token) => LaunchKeeps(s, c, token);
    case Poll(c) => PollKeeps(s, c);
    case GiveUp(c) => GiveUpKeeps(s, c);
    case Publish(h) => PublishKeeps(s, h);
    case RemoveKey(h) => RemoveKeeps(s, h);
    case _ => GoneKeeps(s, m);
  }

  /* ---------- Every run ---------- */

  ghost predicate Next(s: State, s': State) {
    exists m :: Enabled(s, m) && Safe(s, m) && s' == Apply(s, m)
  }

  ghost predicate IsRun(run: seq<State>) {
    |run| > 0 && Init(run[0]) && forall k :: 0 <= k < |run| - 1 ==> Next(run[k], run[k + 1])
  }

  lemma {:induction false} RunKeeps(run: seq<State>, n: nat)
    requires IsRun(run) && n < |run|
    ensures Inv(run[n])
  {
    if n == 0 {
      InitInv(run[0]);
    } else {
      RunKeeps(run, n - 1);
      assert Next(run[n - 1], run[n - 1 + 1]);
      var m :| Enabled(run[n - 1], m) && Safe(run[n - 1], m) && run[n] == Apply(run[n - 1], m);
      StepKeeps(run[n - 1], m);
    }
  }

  /** However the clients race or give up, and whichever hosts crash or drain when, no two hosts
      of the key serve or are starting at once. */
  lemma AtMostOneHost(run: seq<State>, n: nat, g: Pid, h: Pid)
    requires IsRun(run) && n < |run| && Live(run[n], g) && Live(run[n], h)
    ensures g == h
  {
    RunKeeps(run, n);
    assert HostInv(run[n], g) && HostInv(run[n], h);
  }

  /** If no host crashed, drained or was given up on, at most one was ever launched, no client failed, and all the
      clients that are done are connected to the same serving host. */
  lemma OneLaunch(run: seq<State>, n: nat)
    requires IsRun(run) && n < |run| && !run[n].lost
    ensures run[n].launches <= 1
    ensures forall c :: c in run[n].clients ==> !run[n].clients[c].Failed?
    ensures forall c, d ::
              c in run[n].clients && d in run[n].clients
              && run[n].clients[c].Connected? && run[n].clients[d].Connected?
              ==> run[n].clients[c].pid == run[n].clients[d].pid && Live(run[n], run[n].clients[c].pid)
  {
    RunKeeps(run, n);
    forall c | c in run[n].clients
      ensures !run[n].clients[c].Failed?
    {
      assert ClientInv(run[n], c);
    }
    forall c, d | c in run[n].clients && d in run[n].clients && run[n].clients[c].Connected?
        && run[n].clients[d].Connected?
      ensures run[n].clients[c].pid == run[n].clients[d].pid && Live(run[n], run[n].clients[c].pid)
    {
      assert ClientInv(run[n], c) && ClientInv(run[n], d);
      AtMostOneHost(run, n, run[n].clients[c].pid, run[n].clients[d].pid);
    }
  }

  /* ---------- Without the guard ---------- */

  /** The states along a list of moves, each of which must be enabled. */
  ghost predicate Plays(run: seq<State>, moves: seq<Move>) {
    && |run| == |moves| + 1
    && forall k :: 0 <= k < |moves| ==> Enabled(run[k], moves[k]) && run[k + 1] == Apply(run[k], moves[k])
  }

  /** Some draining host removed a key file that was not its own (`removal`), or some client gave
      up on a host that was still starting; and nothing of the other kind happened. */
  ghost predicate Unsafe(run: seq<State>, moves: seq<Move>, removal: bool)
    requires |run| == |moves| + 1
  {
    && (exists k :: 0 <= k < |moves| && !Safe(run[k], moves[k]))
    && Only(run, moves, removal)
  }

  ghost predicate Only(run: seq<State>, moves: seq<Move>, removal: bool)
    requires |run| == |moves| + 1
  {
    forall k :: 0 <= k < |moves| ==> Safe(run[k], moves[k]) || moves[k].RemoveKey? == removal
  }

  /** Whether hosts were lost or not: the step by which a client becomes connected to a process is
      its greeting of a host that serves under that process id with the token the client knows, and
      a client that greets such a host becomes connected to it. */
  lemma ConnectingStep(s: State, m: Move, c: Client)
    requires Enabled(s, m) && c in s.clients && c in Apply(s, m).clients
    ensures !s.clients[c].Connected? && Apply(s, m).clients[c].Connected?
            <==> && m == Greet(c) && s.clients[c].record.pid in s.hosts
                 && s.hosts[s.clients[c].record.pid].phase.Serving?
                 && s.hosts[s.clients[c].record.pid].token == s.clients[c].record.token
    ensures !s.clients[c].Connected? && Apply(s, m).clients[c].Connected? ==>
              Apply(s, m).clients[c].pid == s.clients[c].record.pid && Apply(s, m).hosts == s.hosts
    ensures s.clients[c].Connected? ==> Apply(s, m).clients[c] == s.clients[c]
  {
  }

  /** So every client that is connected was once answered: at some step of the run it greeted the
      host of that process id, which was serving then. */
  lemma {:induction false} ConnectedWasAnswered(run: seq<State>, moves: seq<Move>, n: nat, c: Client)
    requires Plays(run, moves) && Init(run[0]) && n <= |moves|
    requires c in run[n].clients && run[n].clients[c].Connected?
    ensures var p := run[n].clients[c].pid;
            exists k :: 0 <= k < n && moves[k] == Greet(c) && run[k + 1].clients == run[k].clients[c := Connected(p)]
                        && p in run[k].hosts && run[k].hosts[p].phase.Serving? && run[k + 1].hosts == run[k].hosts
  {
    if n > 0 {
      var s, m := run[n - 1], moves[n - 1];
      assert run[n - 1 + 1] == Apply(s, m);
      ClientsStay(s, m);
      ConnectingStep(s, m, c);
      if s.clients[c].Connected? {
        ConnectedWasAnswered(run, moves, n - 1, c);
      }
    }
  }

  lemma ClientsStay(s: State, m: Move)
    requires Enabled(s, m)
    ensures Apply(s, m).clients.Keys == s.clients.Keys
  {
  }

  /** A client is sent to greet what the registry names, if that process is alive, and nothing else. */
  lemma GreetsTheRecorded(s: State, m: Move, c: Client)
    requires Enabled(s, m) && c in s.clients && c in Apply(s, m).clients
    requires !s.clients[c].Greeting? && Apply(s, m).clients[c].Greeting?
    ensures var r := Apply(s, m).clients[c].record;
            s.record == Some(r) && r.pid in s.hosts && !s.hosts[r.pid].phase.Dead?
  {
  }

  /** A client that has looked wants another host only if the registry names none that is alive. */
  lemma WantsWhatIsMissing(s: State, c: Client)
    requires Enabled(s, Look(c))
    ensures Apply(s, Look(c)).clients[c].NeedHost? <==>
              s.record.None? || s.record.value.pid !in s.hosts || s.hosts[s.record.value.pid].phase.Dead?
  {
  }

  /** Clearing leaves no record, and of the host it named one that is gone or about to be. */
  lemma ClearStops(s: State, c: Client, h: Pid)
    requires Enabled(s, Clear(c)) && h in s.hosts
    ensures var s' := Apply(s, Clear(c));
            && s'.record.None? && h in s'.hosts && s'.hosts[h].token == s.hosts[h].token
            && (s.record.Some? && s.record.value.pid == h ==>
                  if s.hosts[h].phase.Serving? || s.hosts[h].phase.Draining? then s'.hosts[h].phase.Draining?
                  else s'.hosts[h].phase.Dead?)
            && (s.record.None? || s.record.value.pid != h ==> s'.hosts[h] == s.hosts[h])
  {
  }

  lemma Play(removal: bool, run: seq<State>, moves: seq<Move>, m: Move, next: State)
    returns (run': seq<State>, moves': seq<Move>)
    requires Plays(run, moves) && Enabled(run[|moves|], m) && next == Apply(run[|moves|], m)
    requires Only(run, moves, removal) && (Safe(run[|moves|], m) || m.RemoveKey? == removal)
    ensures Plays(run', moves') && run'[0] == run[0] && run'[|moves'|] == next
    ensures Only(run', moves', removal)
    ensures Unsafe(run, moves, removal) || !Safe(run[|moves|], m) ==> Unsafe(run', moves', removal)
  {
    run', moves' := run + [next], moves + [m];
    if Unsafe(run, moves, removal) {
      var k :| 0 <= k < |moves| && !Safe(run[k], moves[k]);
      assert moves'[k] == moves[k] && run'[k] == run[k];
    } else if !Safe(run[|moves|], m) {
      assert moves'[|moves|] == m && run'[|moves|] == run[|moves|];
    }
  }

  /** With no record and the lock free, a client gets as far as its launch. */
  lemma Clears(removal: bool, run: seq<State>, moves: seq<Move>, c: Client)
    returns (run': seq<State>, moves': seq<Move>)
    requires Plays(run, moves) && Only(run, moves, removal)
    requires var s := run[|moves|]; s.record == None && s.lock == None && c in s.clients && s.clients[c] == Begin
    ensures Plays(run', moves') && run'[0] == run[0] && Only(run', moves', removal)
    ensures run'[|moves'|] == Go(run[|moves|], c, Launching).(lock := Some(c))
    ensures Unsafe(run, moves, removal) ==> Unsafe(run', moves', removal)
  {
    var s := run[|moves|];
    run', moves' := Play(removal, run, moves, Look(c), Go(s, c, NeedHost(None)));
    run', moves' := Play(removal, run', moves', TakeLock(c), Go(s, c, Under(None)).(lock := Some(c)));
    run', moves' := Play(removal, run', moves', Relook(c), Go(s, c, Clearing).(lock := Some(c)));
    run', moves' := Play(removal, run', moves', Clear(c), Go(s, c, Launching).(lock := Some(c)));
  }

  const FIRST := Record(0, 7)
  const SECOND := Record(1, 8)
  const DRAINING: map<Pid, Host> := map[0 := Host(Draining, 7)]

  /** A host serves; it is told to drain, and client 1 finds it unanswering. */
  lemma Unanswering() returns (run: seq<State>, moves: seq<Move>)
    ensures Plays(run, moves) && Init(run[0]) && Only(run, moves, true)
    ensures run[|moves|]
            == State(Some(FIRST), None, DRAINING, 1, map[1 := NeedHost(Some(FIRST)), 2 := Begin], 0, true)
  {
    run, moves := [State(Some(FIRST), None, map[0 := Host(Serving, 7)], 1, map[1 := Begin, 2 := Begin], 0, false)], [];
    run, moves := Play(true, run, moves, Drain(0),
                       State(Some(FIRST), None, DRAINING, 1, map[1 := Begin, 2 := Begin], 0, true));
    run, moves := Play(true, run, moves, Look(1),
                       State(Some(FIRST), None, DRAINING, 1, map[1 := Greeting(FIRST, false), 2 := Begin], 0, true));
    run, moves := Play(true, run, moves, Greet(1),
                       State(Some(FIRST), None, DRAINING, 1, map[1 := NeedHost(Some(FIRST)), 2 := Begin], 0, true));
  }

  /** It clears its record. */
  lemma Unanswered() returns (run: seq<State>, moves: seq<Move>)
    ensures Plays(run, moves) && Init(run[0]) && Only(run, moves, true)
    ensures run[|moves|] == State(None, Some(1), DRAINING, 1, map[1 := Launching, 2 := Begin], 0, true)
  {
    run, moves := Unanswering();
    run, moves := Play(true, run, moves, TakeLock(1),
                       State(Some(FIRST), Some(1), DRAINING, 1, map[1 := Under(Some(FIRST)), 2 := Begin], 0, true));
    run, moves := Play(true, run, moves, Relook(1),
                       State(Some(FIRST), Some(1), DRAINING, 1, map[1 := Clearing, 2 := Begin], 0, true));
    run, moves := Play(true, run, moves, Clear(1),
                       State(None, Some(1), DRAINING, 1, map[1 := Launching, 2 := Begin], 0, true));
  }

  /** Client 1 replaces it, and its successor serves. */
  lemma Replaced() returns (run: seq<State>, moves: seq<Move>)
    ensures Plays(run, moves) && Init(run[0]) && Only(run, moves, true)
    ensures run[|moves|] == State(Some(SECOND), None, map[0 := Host(Draining, 7), 1 := Host(Serving, 8)], 2,
                                  map[1 := Greeting(SECOND, true), 2 := Begin], 1, true)
  {
    run, moves := Unanswered();
    var starting := map[0 := Host(Draining, 7), 1 := Host(Starting, 8)];
    var serving := map[0 := Host(Draining, 7), 1 := Host(Serving, 8)];
    run, moves := Play(true, run, moves, Launch(1, 8),
                       State(None, Some(1), starting, 2, map[1 := Polling(1), 2 := Begin], 1, true));
    run, moves := Play(true, run, moves, Publish(1),
                       State(Some(SECOND), Some(1), serving, 2, map[1 := Polling(1), 2 := Begin], 1, true));
    run, moves := Play(true, run, moves, Poll(1),
                       State(Some(SECOND), None, serving, 2, map[1 := Greeting(SECOND, true), 2 := Begin], 1, true));
  }

  /** The drained host removes its successor's key file, and client 2 finds none. */
  lemma Unrecorded() returns (run: seq<State>, moves: seq<Move>)
    ensures Plays(run, moves) && Init(run[0]) && Unsafe(run, moves, true)
    ensures run[|moves|] == State(None, Some(2), map[0 := Host(Dead, 7), 1 := Host(Serving, 8)], 2,
                                  map[1 := Greeting(SECOND, true), 2 := Launching], 1, true)
  {
    run, moves := Replaced();
    var hosts := map[0 := Host(Dead, 7), 1 := Host(Serving, 8)];
    var one := Greeting(SECOND, true);
    run, moves := Play(true, run, moves, RemoveKey(0), State(None, None, hosts, 2, map[1 := one, 2 := Begin], 1, true));
    run, moves := Clears(true, run, moves, 2);
  }

  /** Two hosts of the key both serve. */
  ghost predicate TwoServe(s: State) {
    exists g, h :: g != h && g in s.hosts && h in s.hosts && s.hosts[g].phase.Serving? && s.hosts[h].phase.Serving?
  }

  /** The removal as the source has it, unconditional, does break the promise: a host drains, is
      replaced by a client, and then removes its successor's key file; the next client finds no
      record and launches another host, which serves beside the one that does. */
  lemma TwoHosts() returns (run: seq<State>, moves: seq<Move>)
    ensures Plays(run, moves) && Init(run[0]) && Unsafe(run, moves, true)
    ensures TwoServe(run[|moves|])
  {
    run, moves := Unrecorded();
    var hosts := map[0 := Host(Dead, 7), 1 := Host(Serving, 8)];
    var one := Greeting(SECOND, true);
    run, moves := Play(true, run, moves, Launch(2, 9),
                       State(None, Some(2), hosts[2 := Host(Starting, 9)], 3, map[1 := one, 2 := Polling(2)], 2, true));
    run, moves := Play(true, run, moves, Publish(2),
                       State(Some(Record(2, 9)), Some(2), hosts[2 := Host(Serving, 9)], 3,
                             map[1 := one, 2 := Polling(2)], 2, true));
    assert run[|moves|].hosts[1].phase.Serving? && run[|moves|].hosts[2].phase.Serving?;
  }

  /** Client 1 launches a host and gives up on it before it has published itself. */
  lemma GivenUp() returns (run: seq<State>, moves: seq<Move>)
    ensures Plays(run, moves) && Init(run[0]) && Unsafe(run, moves, false)
    ensures run[|moves|] == State(None, None, map[0 := Host(Starting, 7)], 1, map[1 := Failed, 2 := Begin], 1, true)
  {
    run, moves := [State(None, None, map[], 0, map[1 := Begin, 2 := Begin], 0, false)], [];
    run, moves := Clears(false, run, moves, 1);
    var hosts := map[0 := Host(Starting, 7)];
    run, moves := Play(false, run, moves, Launch(1, 7),
                       State(None, Some(1), hosts, 1, map[1 := Polling(0), 2 := Begin], 1, false));
    run, moves := Play(false, run, moves, GiveUp(1),
                       State(None, None, hosts, 1, map[1 := Failed, 2 := Begin], 1, true));
  }

  /** So a slow start breaks the promise as well: the next client launches another host, and in
      the end both serve. */
  lemma TwoHostsAfterTimeout() returns (run: seq<State>, moves: seq<Move>)
    ensures Plays(run, moves) && Init(run[0]) && Unsafe(run, moves, false)
    ensures TwoServe(run[|moves|])
  {
    run, moves := GivenUp();
    var one := map[0 := Host(Starting, 7)];
    var two := one[1 := Host(Starting, 8)];
    run, moves := Clears(false, run, moves, 2);
    run, moves := Play(false, run, moves, Launch(2, 8),
                       State(None, Some(2), two, 2, map[1 := Failed, 2 := Polling(1)], 2, true));
    run, moves := Play(false, run, moves, Publish(0),
                       State(Some(FIRST), Some(2), two[0 := Host(Serving, 7)], 2, map[1 := Failed, 2 := Polling(1)],
                             2, true));
    run, moves := Play(false, run, moves, Publish(1),
                       State(Some(SECOND), Some(2), two[0 := Host(Serving, 7)][1 := Host(Serving, 8)], 2,
                             map[1 := Failed, 2 := Polling(1)], 2, true));
    assert run[|moves|].hosts[0].phase.Serving? && run[|moves|].hosts[1].phase.Serving?;
  }
}
