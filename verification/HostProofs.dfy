/** The host's invariant, and what it promises its clients. */
module HostProofs {
  import opened Prelude
  import W = Workers
  import opened Host
  import L = WorkerLapses

  /* ---------- The engine inside the host ---------- */

  /** An act of one session leaves every other session alone, and only adds to its log. */
  lemma DoFrame(e: W.State, i: W.Request, a: W.Act)
    requires W.CanDo(e, i, a)
    ensures var e' := W.DoStep(e, i, a);
            && i in e'.sessions
            && e'.sessions == e.sessions[i := e'.sessions[i]]
            && e.sessions[i].log <= e'.sessions[i].log
            && !e'.sessions[i].pc.Outside?
  {
    if a.ReadStartup? {
      StartupReadFrame(e, i, a.killed);
    } else {
      DoOne(e, i, a);
    }
    DoLog(e, i, a);
  }

  lemma DoOne(e: W.State, i: W.Request, a: W.Act)
    requires W.CanDo(e, i, a) && !a.ReadStartup?
    ensures var e' := W.DoStep(e, i, a); i in e'.sessions && e'.sessions == e.sessions[i := e'.sessions[i]]
  {
  }

  lemma StartupReadFrame(e: W.State, i: W.Request, killed: bool)
    requires W.CanDo(e, i, W.ReadStartup(killed))
    ensures var e' := W.DoStep(e, i, W.ReadStartup(killed));
            i in e'.sessions && e'.sessions == e.sessions[i := e'.sessions[i]]
  {
  }

  lemma DoLog(e: W.State, i: W.Request, a: W.Act)
    requires W.CanDo(e, i, a)
    ensures var e' := W.DoStep(e, i, a);
            i in e'.sessions && e.sessions[i].log <= e'.sessions[i].log && !e'.sessions[i].pc.Outside?
  {
  }

  /** The thread that runs the session `r` is a warm-up, or the job now running. */
  predicate MayRun(s: State, r: W.Request) {
    && r in s.roles
    && (s.roles[r].Job? ==>
        s.roles[r].client in s.clients && s.clients[s.roles[r].client].InJob?
            && s.clients[s.roles[r].client].request == r)
  }

  /** In the engine at most the session `r` moved. */
  predicate OnlySession(e: W.State, e': W.State, r: W.Request) {
    && r in e.sessions && r in e'.sessions
    && e'.sessions == e.sessions[r := e'.sessions[r]]
    && e.sessions[r].log <= e'.sessions[r].log
    && (e'.sessions[r].pc.Outside? ==> e.sessions[r].pc.Outside?)
  }

  lemma EngineKeeps(s: State, e: W.State, r: W.Request)
    requires HostInv(s) && MayRun(s, r) && OnlySession(s.engine, e, r)
    ensures HostInv(s.(engine := e))
  {
    var s' := s.(engine := e);
    forall q
      ensures RequestInv(s', q)
    {
      assert RequestInv(s, q);
    }
    forall q | q in s'.sent
      ensures SentInv(s', q)
    {
      assert SentInv(s, q);
    }
    forall c | c in s'.clients
      ensures ClientInv(s', c)
    {
      assert ClientInv(s, c);
    }
    assert Counting(s') == Counting(s);
  }

  /** The host's own fields other than the connections' places changed, and in the engine
      nothing that a session can see of itself. */
  lemma OutsideKeeps(s: State, s': State)
    requires HostInv(s) && s'.engine.sessions == s.engine.sessions
    requires s' == s.(engine := s'.engine, now := s'.now, stopping := s'.stopping) && s.now <= s'.now
    ensures HostInv(s')
  {
    forall q
      ensures RequestInv(s', q)
    {
      assert RequestInv(s, q);
    }
    forall q | q in s'.sent
      ensures SentInv(s', q)
    {
      assert SentInv(s, q);
    }
    forall c | c in s'.clients
      ensures ClientInv(s', c)
    {
      assert ClientInv(s, c);
    }
    assert Counting(s') == Counting(s);
  }

  lemma ActKeeps(s: State, r: W.Request, a: W.Act)
    requires HostInv(s) && MayRun(s, r) && W.CanDo(s.engine, r, a)
    ensures HostInv(s.(engine := W.DoStep(s.engine, r, a)))
  {
    DoFrame(s.engine, r, a);
    EngineKeeps(s, W.DoStep(s.engine, r, a), r);
  }

  lemma JobMayRun(s: State, c: Client)
    requires HostInv(s) && IsJob(s, c, None)
    ensures MayRun(s, s.clients[c].request)
  {
  }

  lemma SentKeeps(s: State, r: W.Request, e: W.Event)
    requires HostInv(s) && r in s.engine.sessions && e in s.engine.sessions[r].log
    ensures HostInv(s.(sent := s.sent[r := Sent(s, r) + [e]]))
  {
    var s' := s.(sent := s.sent[r := Sent(s, r) + [e]]);
    forall q
      ensures RequestInv(s', q)
    {
      assert RequestInv(s, q);
    }
    forall q | q in s'.sent
      ensures SentInv(s', q)
    {
      assert q in s.sent ==> SentInv(s, q);
    }
    forall c | c in s'.clients
      ensures ClientInv(s', c)
    {
      assert ClientInv(s, c);
    }
    assert Counting(s') == Counting(s);
  }

  lemma RelayKeeps(s: State, c: Client, delivered: bool)
    requires HostInv(s) && Enabled(s, Relay(c, delivered))
    ensures HostInv(Apply(s, Relay(c, delivered)))
  {
    var r := s.clients[c].request;
    JobMayRun(s, c);
    ActKeeps(s, r, W.Read(false));
    var read := s.(engine := W.DoStep(s.engine, r, W.Read(false)));
    if delivered {
      var log := read.engine.sessions[r].log;
      assert log[|log| - 1] in log;
      SentKeeps(read, r, log[|log| - 1]);
    } else if W.CanDo(read.engine, r, W.Abandon) {
      ActKeeps(read, r, W.Abandon);
    }
  }

  lemma RetireJobKeeps(s: State, c: Client, dead: set<W.Pid>)
    requires HostInv(s) && Enabled(s, RetireJob(c, dead))
    ensures HostInv(Apply(s, RetireJob(c, dead)))
  {
    var r := s.clients[c].request;
    JobMayRun(s, c);
    var terminated := s.(engine := W.Apply(s.engine, W.Terminate(dead)));
    OutsideKeeps(s, terminated);
    if W.CanDo(terminated.engine, r, W.Retire(false)) {
      ActKeeps(terminated, r, W.Retire(false));
    }
  }

  /* ---------- The connections ---------- */

  predicate Counts(pc: Pc) {
    Greeted(pc) || pc.Counted?
  }

  /** Connection `c` went somewhere else and nothing of the engine moved. */
  lemma ClientKeeps(s: State, c: Client, s': State)
    requires HostInv(s) && c in s.clients && c in s'.clients
    requires s'.clients == s.clients[c := s'.clients[c]]
    requires s'.engine == s.engine && s'.roles == s.roles && s'.sent == s.sent
    requires ClientInv(s', c) && LockInv(s')
    requires s.clients[c].InJob? ==> s.engine.sessions[s.clients[c].request].pc.Gone?
    requires s'.connections - s'.leaked - s.connections + s.leaked
             == (if Counts(s'.clients[c]) then 1 else 0) - (if Counts(s.clients[c]) then 1 else 0)
    requires s'.lastActivity <= s'.now
    ensures HostInv(s')
  {
    forall q
      ensures RequestInv(s', q)
    {
      assert RequestInv(s, q);
    }
    forall q | q in s'.sent
      ensures SentInv(s', q)
    {
      assert SentInv(s, q);
    }
    forall d | d in s'.clients
      ensures ClientInv(s', d)
    {
      assert ClientInv(s, d);
    }
    CountingMoves(s, c, s');
  }

  lemma CountingMoves(s: State, c: Client, s': State)
    requires c in s.clients && c in s'.clients && s'.clients == s.clients[c := s'.clients[c]]
    ensures |Counting(s')| - |Counting(s)|
            == (if Counts(s'.clients[c]) then 1 else 0) - (if Counts(s.clients[c]) then 1 else 0)
  {
    var rest := Counting(s) - {c};
    assert Counting(s') - {c} == rest;
    assert Counting(s) == if Counts(s.clients[c]) then rest + {c} else rest;
    assert Counting(s') == if Counts(s'.clients[c]) then rest + {c} else rest;
  }

  lemma CountingMember(s: State, c: Client)
    requires HostInv(s) && c in s.clients && Counts(s.clients[c])
    ensures s.connections >= 1
  {
    assert c in Counting(s);
    assert {c} <= Counting(s);
    assert |Counting(s) - {c}| == |Counting(s)| - 1;
  }

  lemma GreetingKeeps(s: State, m: Move)
    requires HostInv(s) && Enabled(s, m) && (m.Greet? || m.Refuse?)
    ensures HostInv(Apply(s, m))
  {
    assert ClientInv(s, m.c);
    ClientKeeps(s, m.c, Apply(s, m));
  }

  lemma HelloKeeps(s: State, m: Move)
    requires HostInv(s) && Enabled(s, m) && m.Hello?
    ensures HostInv(Apply(s, m))
  {
    assert ClientInv(s, m.c);
    ClientKeeps(s, m.c, Apply(s, m));
  }

  lemma EnteringKeeps(s: State, m: Move)
    requires HostInv(s) && Enabled(s, m) && (m.Ask? || m.LockJob? || m.Begin? || m.TryRetire?)
    ensures HostInv(Apply(s, m))
  {
    assert ClientInv(s, m.c);
    ClientKeeps(s, m.c, Apply(s, m));
  }

  lemma LeavingKeeps(s: State, m: Move)
    requires HostInv(s) && Enabled(s, m) && (m.End? || m.Unlock? || m.Leave?)
    ensures HostInv(Apply(s, m))
  {
    assert ClientInv(s, m.c);
    if m.Leave? {
      CountingMember(s, m.c);
    }
    ClientKeeps(s, m.c, Apply(s, m));
  }

  lemma RetireForClientKeeps(s: State, c: Client, dead: set<W.Pid>)
    requires HostInv(s) && Enabled(s, RetireForClient(c, dead))
    ensures HostInv(Apply(s, RetireForClient(c, dead)))
  {
    var terminated := s.(engine := W.Apply(s.engine, W.Terminate(dead)));
    OutsideKeeps(s, terminated);
    ClientKeeps(terminated, c, At(terminated, c, Ended));
  }

  predicate MovesEngine(m: Move) {
    m.Engine? || m.Relay? || m.RetireJob? || m.RetireForClient? || m.WarmUp?
  }

  lemma EngineSideKeeps(s: State, m: Move)
    requires HostInv(s) && Enabled(s, m) && MovesEngine(m)
    ensures HostInv(Apply(s, m))
  {
    if m.Engine? {
      JobMayRun(s, m.c);
      ActKeeps(s, s.clients[m.c].request, m.act);
    } else if m.Relay? {
      RelayKeeps(s, m.c, m.delivered);
    } else if m.RetireJob? {
      RetireJobKeeps(s, m.c, m.dead);
    } else if m.RetireForClient? {
      RetireForClientKeeps(s, m.c, m.dead);
    } else {
      ActKeeps(s, m.request, m.act);
    }
  }

  lemma HostKeeps(s: State, m: Move)
    requires HostInv(s) && Enabled(s, m)
    ensures HostInv(Apply(s, m))
  {
    if MovesEngine(m) {
      EngineSideKeeps(s, m);
    } else if m.Runtime? || m.RefuseAll? || m.Stop? || m.Tick? || m.IdleTest? {
      OutsideKeeps(s, Apply(s, m));
    } else if m.Greet? || m.Refuse? {
      GreetingKeeps(s, m);
    } else if m.Hello? {
      HelloKeeps(s, m);
    } else if m.End? || m.Unlock? || m.Leave? {
      LeavingKeeps(s, m);
    } else {
      EnteringKeeps(s, m);
    }
  }

  /** A start-up in the engine is cut short by an exception. */
  predicate CutsShort(m: Move) {
    (m.Engine? && m.act.AbortStartup?) || (m.WarmUp? && m.act.AbortStartup?)
  }

  /** Every step of the host is zero, one or two steps of the engine's worker. */
  lemma EngineRuns(s: State, m: Move) returns (first: Option<W.Move>, second: Option<W.Move>)
    requires Enabled(s, m)
    ensures first.Some? ==> W.Enabled(s.engine, first.value)
    ensures second.Some? ==> first.Some? && W.Enabled(W.Apply(s.engine, first.value), second.value)
    ensures Apply(s, m).engine == if first.None? then s.engine
                                  else if second.None? then W.Apply(s.engine, first.value)
                                  else W.Apply(W.Apply(s.engine, first.value), second.value)
    ensures first.Some? && L.CutsShort(first.value) ==> CutsShort(m)
    ensures second.Some? ==> !L.CutsShort(second.value) && second.value.Do? && (m.Relay? || m.RetireJob?)
    ensures first.Some? && first.value.Emit? ==> m.Runtime?
  {
    first, second := None, None;
    match m
    case Engine(c, a) => first := Some(W.Do(s.clients[c].request, a));
    case Relay(c, delivered) => first, second := RelayRuns(s, c, delivered);
    case RetireJob(c, dead) => first, second := RetireJobRuns(s, c, dead);
    case RetireForClient(_, dead) => first := Some(W.Terminate(dead));
    case WarmUp(r, a) => first := Some(W.Do(r, a));
    case Runtime(w) => first := Some(w);
    case RefuseAll => first := Some(W.Shut);
    case Stop(dead) => first := Some(W.Terminate(dead));
    case _ =>
  }

  lemma RelayRuns(s: State, c: Client, delivered: bool) returns (first: Option<W.Move>, second: Option<W.Move>)
    requires Enabled(s, Relay(c, delivered))
    ensures first == Some(W.Do(s.clients[c].request, W.Read(false))) && W.Enabled(s.engine, first.value)
    ensures var read := W.Apply(s.engine, first.value);
            && (second.Some? ==> second.value.Do? && !L.CutsShort(second.value) && W.Enabled(read, second.value))
            && Apply(s, Relay(c, delivered)).engine == if second.None? then read else W.Apply(read, second.value)
  {
    var r := s.clients[c].request;
    first, second := Some(W.Do(r, W.Read(false))), None;
    if !delivered && W.CanDo(W.Apply(s.engine, first.value), r, W.Abandon) {
      second := Some(W.Do(r, W.Abandon));
    }
  }

  lemma RetireJobRuns(s: State, c: Client, dead: set<W.Pid>) returns (first: Option<W.Move>, second: Option<W.Move>)
    requires Enabled(s, RetireJob(c, dead))
    ensures first == Some(W.Terminate(dead))
    ensures var terminated := W.Apply(s.engine, first.value);
            && (second.Some? ==> second.value.Do? && !L.CutsShort(second.value) && W.Enabled(terminated, second.value))
            && Apply(s, RetireJob(c, dead)).engine
               == if second.None? then terminated else W.Apply(terminated, second.value)
  {
    first, second := Some(W.Terminate(dead)), None;
    if W.CanDo(W.Apply(s.engine, first.value), s.clients[c].request, W.Retire(false)) {
      second := Some(W.Do(s.clients[c].request, W.Retire(false)));
    }
  }

  lemma StepKeeps(s: State, m: Move)
    requires Inv(s) && Enabled(s, m)
    ensures Inv(Apply(s, m))
  {
    HostKeeps(s, m);
    var first, second := EngineRuns(s, m);
    if first.Some? {
      W.StepKeeps(s.engine, first.value);
      if second.Some? {
        W.StepKeeps(W.Apply(s.engine, first.value), second.value);
      }
    }
  }

  /* ---------- Every run ---------- */

  ghost predicate Next(s: State, s': State) {
    exists m :: Enabled(s, m) && s' == Apply(s, m)
  }

  ghost predicate IsRun(run: seq<State>) {
    |run| > 0 && Init(run[0]) && forall k :: 0 <= k < |run| - 1 ==> Next(run[k], run[k + 1])
  }

  lemma {:induction false} RunKeeps(run: seq<State>, n: nat)
    requires IsRun(run) && n < |run|
    ensures Inv(run[n])
  {
    if n == 0 {
      InitInv(run[0]);
    } else {
      RunKeeps(run, n - 1);
      assert Next(run[n - 1], run[n - 1 + 1]);
      var m :| Enabled(run[n - 1], m) && run[n] == Apply(run[n - 1], m);
      StepKeeps(run[n - 1], m);
    }
  }

  /** Every solver event the host has sent during the submission of request `r` was emitted for
      `r`, whatever the other connections, the warm-up threads and the runtimes did -- or, only
      after a start-up was cut short under a live runtime, by a runtime about its own start-up. */
  lemma HostAttribution(run: seq<State>, n: nat, r: W.Request, k: nat)
    requires IsRun(run) && n < |run| && k < |Sent(run[n], r)|
    ensures Sent(run[n], r)[k].owner in {Some(r), None}
    ensures !run[n].engine.exposed ==> Sent(run[n], r)[k].owner == Some(r)
  {
    RunKeeps(run, n);
    assert SentInv(run[n], r) && run[n].sent[r][k] in run[n].sent[r];
    assert W.OwnEvents(run[n].engine, r);
  }

  /** No other step of the host does that. */
  lemma ExposedByCuttingShort(s: State, m: Move)
    requires Enabled(s, m) && !CutsShort(m)
    ensures Apply(s, m).engine.exposed == s.engine.exposed
  {
    var first, second := EngineRuns(s, m);
    OneOrTwo(s.engine, first, second);
  }

  lemma OneOrTwo(e: W.State, first: Option<W.Move>, second: Option<W.Move>)
    requires first.Some? ==> W.Enabled(e, first.value) && !L.CutsShort(first.value)
    requires second.Some? ==>
        first.Some? && W.Enabled(W.Apply(e, first.value), second.value) && !L.CutsShort(second.value)
    ensures first.Some? ==> W.Apply(e, first.value).exposed == e.exposed
    ensures second.Some? ==> W.Apply(W.Apply(e, first.value), second.value).exposed == e.exposed
  {
    if first.Some? {
      L.ExposedByCuttingShort(e, first.value);
      if second.Some? {
        L.ExposedByCuttingShort(W.Apply(e, first.value), second.value);
      }
    }
  }

  /** A job's or a warm-up's start-up that is cut short leaves the engine's next session something
      to misread exactly if the runtime being started is then alive and still the engine's. */
  lemma HostCutShort(s: State, m: Move, j: W.Request)
    requires Inv(s) && Enabled(s, m) && CutsShort(m) && !s.engine.exposed
    requires !s.engine.closed && j in s.engine.sessions && s.engine.sessions[j].pc.Outside?
    ensures L.Misleads(Apply(s, m).engine) <==> W.Live(s.engine)
    ensures Apply(s, m).engine.exposed <==> W.Live(s.engine)
  {
    L.CutShortStartup(s.engine, if m.Engine? then s.clients[m.c].request else m.request, j);
  }

  /** Neither a relay nor a retirement gives the engine's slot back. */
  lemma RelayHolds(s: State, m: Move)
    requires Enabled(s, m) && (m.Relay? || m.RetireJob?)
    ensures Apply(s, m).engine.holder == s.engine.holder
  {
  }

  /** A job that ends before its last event was read loses its runtime before it loses the
      engine's slot: whatever step of the host it is by which an unfinished submission gives the
      slot back, the host no longer has that runtime afterwards. */
  lemma AbandonedIsRetiredFirst(s: State, m: Move, r: W.Request)
    requires Inv(s) && Enabled(s, m) && s.engine.holder == Some(r) && s.engine.sessions[r].written.Some?
    requires Apply(s, m).engine.holder != Some(r)
    requires r in Apply(s, m).engine.sessions && !Apply(s, m).engine.sessions[r].finished
    ensures Apply(s, m).engine.process == None
  {
    if m.Relay? || m.RetireJob? {
      RelayHolds(s, m);
    } else {
      var first, second := EngineRuns(s, m);
      W.UnfinishedIsForgotten(s.engine, first.value, r);
    }
  }

  /** The same over runs. */
  lemma RunRetiresFirst(run: seq<State>, n: nat, r: W.Request)
    requires IsRun(run) && n + 1 < |run|
    requires run[n].engine.holder == Some(r) && run[n + 1].engine.holder != Some(r)
    requires r in run[n].engine.sessions && run[n].engine.sessions[r].written.Some?
    requires r in run[n + 1].engine.sessions && !run[n + 1].engine.sessions[r].finished
    ensures run[n + 1].engine.process == None
  {
    RunKeeps(run, n);
    assert Next(run[n], run[n + 1]);
    var m :| Enabled(run[n], m) && run[n + 1] == Apply(run[n], m);
    AbandonedIsRetiredFirst(run[n], m, r);
  }

  /** A client's retire frame never ends the engine under somebody else's job: while one is
      being honoured no connection is in a job, none can enter one, and whoever is in the
      engine's slot is a warm-up. */
  lemma RetireFrameSparesJobs(s: State, c: Client, dead: set<W.Pid>)
    requires Inv(s) && Enabled(s, RetireForClient(c, dead))
    ensures !s.jobRunning
    ensures forall d :: d in s.clients ==> !s.clients[d].InJob? && !Enabled(s, LockJob(d)) && !Enabled(s, Begin(d))
    ensures s.engine.holder.Some? ==> s.roles[s.engine.holder.value] == Warm
  {
    assert ClientInv(s, c);
    if s.engine.holder.Some? {
      var r := s.engine.holder.value;
      assert RequestInv(s, r);
      assert W.Holds(s.engine.sessions[r]);
    }
  }

  /** ... the engine then has no runtime ... */
  lemma RetireFrameForgets(s: State, c: Client, dead: set<W.Pid>)
    requires Enabled(s, RetireForClient(c, dead))
    ensures Apply(s, RetireForClient(c, dead)).engine.process == None
  {
  }

  /** ... and it is declined exactly while some connection has the job lock. */
  lemma DeclinedWhileLocked(s: State, c: Client)
    requires Inv(s) && c in s.clients && s.clients[c].Reading?
    ensures Enabled(s, TryRetire(c)) <==> forall d :: d in s.clients ==> !HasLock(s.clients[d])
  {
  }

  /* ---------- Idleness ---------- */

  /** The connection count is the greeted connections, those about to be told so, and those
      whose `hello_ok` could not be sent; it is never clamped; and the running flag is up
      exactly while some connection is in a job. */
  lemma CountsAreExact(run: seq<State>, n: nat)
    requires IsRun(run) && n < |run|
    ensures run[n].connections == |Counting(run[n])| + run[n].leaked
    ensures forall c :: Enabled(run[n], Leave(c)) ==> Apply(run[n], Leave(c)).connections == run[n].connections - 1
    ensures run[n].jobRunning <==> exists c :: c in run[n].clients && run[n].clients[c].InJob?
  {
    RunKeeps(run, n);
    forall c | Enabled(run[n], Leave(c))
      ensures Apply(run[n], Leave(c)).connections == run[n].connections - 1
    {
      CountingMember(run[n], c);
    }
    forall c | c in run[n].clients && run[n].clients[c].InJob?
      ensures run[n].jobRunning
    {
      assert HasLock(run[n].clients[c]);
    }
  }

  predicate NobodyThere(s: State) {
    forall c :: c in s.clients ==> !Greeted(s.clients[c]) && !s.clients[c].Counted? && !s.clients[c].InJob?
  }

  /** With a positive timeout the idle test stops a host that is not stopping exactly if nobody is
      connected, no `hello_ok` was ever lost, no job runs, and a full timeout has passed since the
      last activity. With any other timeout it does so at once, also in the middle of a job. */
  lemma IdleDecision(run: seq<State>, n: nat)
    requires IsRun(run) && n < |run|
    ensures run[n].idleTimeout > 0.0 ==>
              (Apply(run[n], IdleTest).stopping
               <==> || run[n].stopping
                    || (NobodyThere(run[n]) && run[n].leaked == 0
                        && run[n].now - run[n].lastActivity >= run[n].idleTimeout))
    ensures run[n].idleTimeout <= 0.0 ==> Apply(run[n], IdleTest).stopping
  {
    CountsAreExact(run, n);
    RunKeeps(run, n);
    var s := run[n];
    if NobodyThere(s) {
      assert Counting(s) == {};
    } else {
      var c :| c in s.clients && (Greeted(s.clients[c]) || s.clients[c].Counted? || s.clients[c].InJob?);
      assert c in Counting(s);
      assert {c} <= Counting(s);
      assert |Counting(s) - {c}| == |Counting(s)| - 1;
    }
  }

  /** What keeps the idle test from succeeding whatever the time. */
  predicate Occupied(s: State) {
    s.connections > 0 || s.jobRunning
  }

  /** Time goes on, and activity is noted when it ends. */
  lemma StepClock(s: State, m: Move)
    requires Enabled(s, m) && s.lastActivity <= s.now
    ensures var s' := Apply(s, m);
            && s.now <= s'.now && s.lastActivity <= s'.lastActivity
            && (Occupied(s) && !Occupied(s') ==> s'.lastActivity == s.now)
  {
    if MovesEngine(m) {
      EngineClock(s, m);
    }
  }

  lemma EngineClock(s: State, m: Move)
    requires Enabled(s, m) && MovesEngine(m)
    ensures var s' := Apply(s, m);
            && s'.now == s.now && s'.lastActivity == s.lastActivity && s'.connections == s.connections
            && s'.jobRunning == s.jobRunning
  {
  }

  /** Since time `t` there was always somebody, or activity was noted later. */
  predicate Since(s: State, t: real) {
    t <= s.now && (Occupied(s) || s.lastActivity >= t)
  }

  lemma OccupiedThen(run: seq<State>, k: nat, n: nat)
    requires IsRun(run) && k <= n < |run| && Occupied(run[k])
    ensures Since(run[n], run[k].now)
  {
    var t := run[k].now;
    forall j | k <= j < n && Since(run[j], t) ensures Since(run[j + 1], t) {
      RunSince(run, j, t);
    }
    CarrySince(run, k, n, t);
  }

  lemma RunSince(run: seq<State>, n: nat, t: real)
    requires IsRun(run) && n + 1 < |run| && Since(run[n], t)
    ensures Since(run[n + 1], t)
  {
    RunKeeps(run, n);
    assert Next(run[n], run[n + 1]);
    NextSince(run[n], run[n + 1], t);
  }

  lemma {:induction false} CarrySince(run: seq<State>, k: nat, n: nat, t: real)
    requires k <= n < |run| && Since(run[k], t)
    requires forall j :: k <= j < n && Since(run[j], t) ==> Since(run[j + 1], t)
    ensures Since(run[n], t)
    decreases n
  {
    if k < n {
      CarrySince(run, k, n - 1, t);
    }
  }

  lemma NextSince(s: State, s': State, t: real)
    requires Next(s, s') && s.lastActivity <= s.now && Since(s, t)
    ensures Since(s', t)
  {
    var m :| Enabled(s, m) && s' == Apply(s, m);
    StepClock(s, m);
  }

  /** What the idle test means over time: when it stops the host, with a positive timeout, then at no
      moment within the last timeout was anybody connected, about to be told so, or in a job. */
  lemma IdleThroughout(run: seq<State>, k: nat, n: nat)
    requires IsRun(run) && k <= n < |run| && run[n].idleTimeout > 0.0
    requires !run[n].stopping && Apply(run[n], IdleTest).stopping
    requires run[n].now - run[k].now < run[n].idleTimeout
    ensures NobodyThere(run[k]) && !run[k].jobRunning
  {
    if Occupied(run[k]) {
      OccupiedThen(run, k, n);
    }
    RunKeeps(run, k);
    forall c | c in run[k].clients && Counts(run[k].clients[c]) ensures false {
      CountingMember(run[k], c);
    }
    CountsAreExact(run, k);
  }
}
