/** What a session reads is what was said to it: every event its runtime emits for its request, in
    the order of emission, each at most once and none skipped (hornlab_beat_bem/worker.py). */
module WorkerFidelity {
  import opened Prelude
  import opened Workers

  /** A run with the moves that made it. */
  ghost predicate Plays(run: seq<State>, moves: seq<Move>) {
    && |run| == |moves| + 1 && Init(run[0])
    && forall k :: 0 <= k < |moves| ==> Enabled(run[k], moves[k]) && run[k + 1] == Apply(run[k], moves[k])
  }

  /** What a move makes a runtime say for request `i`: it is busy with it. */
  function Saying(s: State, m: Move, i: Request): seq<Event> {
    if m.Emit? && m.p in s.procs && s.procs[m.p].mode == Busy(i) then [Event(Some(i), m.kind)] else []
  }

  /** All that was said for request `i` in the first `n` steps. */
  ghost function Said(run: seq<State>, moves: seq<Move>, n: nat, i: Request): seq<Event>
    requires n <= |moves| && |run| == |moves| + 1
  {
    if n == 0 then [] else Said(run, moves, n - 1, i) + Saying(run[n - 1], moves[n - 1], i)
  }

  /** The events for request `i` among others. */
  function For(events: seq<Event>, i: Request): seq<Event> {
    if events == [] then []
    else (if events[0].owner == Some(i) then [events[0]] else []) + For(events[1..], i)
  }

  lemma {:induction false} ForAppend(events: seq<Event>, e: Event, i: Request)
    ensures For(events + [e], i) == For(events, i) + if e.owner == Some(i) then [e] else []
  {
    if events == [] {
      assert events + [e] == [e];
    } else {
      var tail, head := events[1..], if events[0].owner == Some(i) then [events[0]] else [];
      var last := if e.owner == Some(i) then [e] else [];
      assert (events + [e])[0] == events[0] && (events + [e])[1..] == tail + [e];
      ForAppend(tail, e, i);
      assert head + (For(tail, i) + last) == head + For(tail, i) + last;
    }
  }

  lemma {:induction false} ForAll(events: seq<Event>, i: Request)
    requires forall e :: e in events ==> e.owner == Some(i)
    ensures For(events, i) == events
  {
    if events != [] {
      ForAll(events[1..], i);
    }
  }

  /* ---------- The invariant ---------- */

  /** The request was written to the runtime `p`. */
  predicate WrittenTo(s: State, r: Request, p: Pid) {
    r in s.sessions && s.sessions[r].written == Some(p)
  }

  /** A runtime knows of no request but those that were written to it. */
  predicate Knows(s: State, p: Pid)
    requires p in s.procs
  {
    var pr := s.procs[p];
    && (forall r :: r in pr.stdin ==> WrittenTo(s, r, p))
    && (pr.mode.Busy? ==> WrittenTo(s, pr.mode.request, p))
  }

  ghost predicate AllKnow(s: State) {
    && (forall p :: p in s.procs ==> Knows(s, p))
    && forall i :: i in s.sessions && s.sessions[i].written.Some? ==> s.sessions[i].written.value in s.procs
  }

  /** What was said for the request is what its session has read of it, and then what is still in
      the pipe of the runtime it was written to. */
  predicate Faithful(s: State, i: Request, said: seq<Event>)
    requires i in s.sessions
  {
    var me := s.sessions[i];
    if me.written.None? then said == [] && me.log == []
    else me.written.value in s.procs && said == For(me.log, i) + For(s.procs[me.written.value].pipe, i)
  }

  ghost predicate Accounted(s: State, i: Request, said: seq<Event>) {
    AllKnow(s) && i in s.sessions && Faithful(s, i, said)
  }

  /* ---------- Every step keeps it ---------- */

  /** Runtimes have the same to read, to do and to say, and new ones have nothing. */
  predicate SameRuntimes(s: State, s': State) {
    && (forall p :: p in s.procs ==>
          && p in s'.procs && s'.procs[p].pipe == s.procs[p].pipe
          && s'.procs[p].stdin == s.procs[p].stdin && s'.procs[p].mode == s.procs[p].mode)
    && forall p :: p in s'.procs && p !in s.procs ==> s'.procs[p].stdin == [] && !s'.procs[p].mode.Busy?
  }

  predicate SameRecords(s: State, s': State) {
    && s'.sessions.Keys == s.sessions.Keys
    && forall i :: i in s.sessions ==>
         s'.sessions[i].log == s.sessions[i].log && s'.sessions[i].written == s.sessions[i].written
  }

  lemma NothingSaid(s: State, s': State, i: Request, said: seq<Event>)
    requires Accounted(s, i, said) && SameRuntimes(s, s') && SameRecords(s, s')
    ensures Accounted(s', i, said)
  {
    forall q | q in s'.procs ensures Knows(s', q) {
      assert q in s.procs ==> Knows(s, q);
    }
  }

  lemma SilentActs(s: State, j: Request, a: Act)
    requires CanDo(s, j, a) && !a.Read? && !a.ReadStartup? && !a.Write?
    requires (a.Spawn? ==> s.nextPid !in s.procs) && (s.process.Some? ==> s.process.value in s.procs)
    ensures SameRuntimes(s, DoStep(s, j, a)) && SameRecords(s, DoStep(s, j, a))
  {
    if a.Spawn? {
      SpawnActs(s, j);
    } else if a.Retire? {
      RetireActs(s, j, a.killed);
    } else {
      OtherActs(s, j, a);
    }
    ActRecords(s, j, a);
  }

  lemma SpawnActs(s: State, j: Request)
    requires CanDo(s, j, Spawn) && s.nextPid !in s.procs
    ensures SameRuntimes(s, DoStep(s, j, Spawn))
  {
    assert DoStep(s, j, Spawn).procs == s.procs[s.nextPid := Proc(true, Booting, [], [])];
  }

  lemma RetireActs(s: State, j: Request, killed: bool)
    requires CanDo(s, j, Retire(killed)) && (s.process.Some? ==> s.process.value in s.procs)
    ensures SameRuntimes(s, DoStep(s, j, Retire(killed)))
  {
    assert DoStep(s, j, Retire(killed)).procs in {s.procs, Kill(s, killed).procs};
    KillEffect(s, killed);
  }

  lemma OtherActs(s: State, j: Request, a: Act)
    requires CanDo(s, j, a) && !a.Read? && !a.ReadStartup? && !a.Write? && !a.Spawn? && !a.Retire?
    ensures DoStep(s, j, a).procs == s.procs
  {
  }

  lemma ActRecords(s: State, j: Request, a: Act)
    requires CanDo(s, j, a) && !a.Read? && !a.ReadStartup? && !a.Write?
    ensures SameRecords(s, DoStep(s, j, a))
  {
    ActOthers(s, j, a);
    ActOwn(s, j, a);
  }

  lemma ActOthers(s: State, j: Request, a: Act)
    requires CanDo(s, j, a) && !a.Read? && !a.ReadStartup? && !a.Write?
    ensures var after := DoStep(s, j, a).sessions; j in after && after == s.sessions[j := after[j]]
  {
  }

  lemma ActOwn(s: State, j: Request, a: Act)
    requires CanDo(s, j, a) && !a.Read? && !a.ReadStartup? && !a.Write?
    ensures var after := DoStep(s, j, a).sessions;
            j in after && after[j].log == s.sessions[j].log && after[j].written == s.sessions[j].written
  {
  }

  lemma SilentMoves(s: State, m: Move)
    requires Enabled(s, m) && (m.Die? || m.Terminate? || m.Shut?)
    ensures SameRuntimes(s, Apply(s, m)) && SameRecords(s, Apply(s, m))
  {
  }

  lemma WriteFaithful(s: State, j: Request, i: Request, said: seq<Event>)
    requires Accounted(s, i, said) && CanDo(s, j, Write) && s.sessions[j].written.None?
    requires i == j ==> For(s.procs[s.sessions[j].pc.pid].pipe, j) == []
    ensures Accounted(DoStep(s, j, Write), i, said)
  {
    var s' := DoStep(s, j, Write);
    forall q | q in s'.procs ensures Knows(s', q) {
      assert Knows(s, q);
    }
  }

  /** What the invariant says of the runtime that a request is about to be written to ... */
  lemma WriteFacts(s: State, j: Request)
    requires Inv(s) && CanDo(s, j, Write)
    ensures s.sessions[j].written.None? && forall e :: e in s.procs[s.sessions[j].pc.pid].pipe ==> e.owner == None
  {
    assert SessionInv(s.sessions[j]) && HolderInv(s, j);
  }

  /** ... of the one a session reads its job's events from ... */
  lemma ReadFacts(s: State, j: Request, distrust: bool)
    requires Inv(s) && CanDo(s, j, Read(distrust))
    ensures var p := s.sessions[j].reader.pid;
            s.sessions[j].written == Some(p) && s.procs[p].pipe[0].owner in {Some(j), None}
  {
    assert SessionInv(s.sessions[j]) && HolderInv(s, j);
    JobPopped(s.procs[s.sessions[j].reader.pid], j, s.exposed);
  }

  /** ... and of the one it is starting. */
  lemma StartupFacts(s: State, j: Request, killed: bool)
    requires Inv(s) && CanDo(s, j, ReadStartup(killed))
    ensures s.procs[s.sessions[j].pc.pid].pipe[0].owner == None
  {
    assert HolderInv(s, j);
    assert s.procs[s.sessions[j].pc.pid].pipe[0] in s.procs[s.sessions[j].pc.pid].pipe;
  }

  lemma {:induction false} NoneFor(events: seq<Event>, i: Request)
    requires forall e :: e in events ==> e.owner == None
    ensures For(events, i) == []
  {
    if events != [] {
      NoneFor(events[1..], i);
    }
  }

  /** The first event is taken off the pipe of `p`. */
  predicate Popped(s: State, s': State, p: Pid) {
    && p in s.procs && s.procs[p].pipe != [] && s'.procs.Keys == s.procs.Keys
    && s'.procs[p].pipe == s.procs[p].pipe[1..]
    && (forall q :: q in s.procs && q != p ==> s'.procs[q].pipe == s.procs[q].pipe)
    && forall q :: q in s.procs ==> s'.procs[q].stdin == s.procs[q].stdin && s'.procs[q].mode == s.procs[q].mode
  }

  lemma ReadEffect(s: State, j: Request, distrust: bool)
    requires CanDo(s, j, Read(distrust))
    ensures var s', p := DoStep(s, j, Read(distrust)), s.sessions[j].reader.pid;
            && Popped(s, s', p) && s'.sessions.Keys == s.sessions.Keys
            && s'.sessions[j].log == s.sessions[j].log + [s.procs[p].pipe[0]]
            && s'.sessions[j].written == s.sessions[j].written
            && forall k :: k in s.sessions && k != j ==> s'.sessions[k] == s.sessions[k]
  {
  }

  lemma StartupEffect(s: State, j: Request, killed: bool)
    requires CanDo(s, j, ReadStartup(killed)) && (s.process.Some? ==> s.process.value in s.procs)
    ensures Popped(s, DoStep(s, j, ReadStartup(killed)), s.sessions[j].pc.pid)
    ensures SameRecords(s, DoStep(s, j, ReadStartup(killed)))
  {
    StartupProcs(s, j, killed);
    KillEffect(StartupPop(s, j), killed);
    StartupRecords(s, j, killed);
  }

  /** The first event of the runtime that `j` is starting is taken off its pipe. */
  function StartupPop(s: State, j: Request): State
    requires j in s.sessions && s.sessions[j].pc.Starting? && Has(s, s.sessions[j].pc.pid)
    requires s.procs[s.sessions[j].pc.pid].pipe != []
  {
    var p := s.sessions[j].pc.pid;
    WithProc(s, p, s.procs[p].(pipe := s.procs[p].pipe[1..]))
  }

  lemma StartupProcs(s: State, j: Request, killed: bool)
    requires CanDo(s, j, ReadStartup(killed))
    ensures DoStep(s, j, ReadStartup(killed)).procs in {StartupPop(s, j).procs, Kill(StartupPop(s, j), killed).procs}
  {
  }

  lemma KillEffect(s: State, killed: bool)
    requires s.process.Some? ==> s.process.value in s.procs
    ensures var s' := Kill(s, killed);
            && s'.procs.Keys == s.procs.Keys && s'.sessions == s.sessions
            && forall q :: q in s.procs ==>
                 && s'.procs[q].pipe == s.procs[q].pipe
                 && s'.procs[q].stdin == s.procs[q].stdin && s'.procs[q].mode == s.procs[q].mode
  {
  }

  lemma StartupRecords(s: State, j: Request, killed: bool)
    requires CanDo(s, j, ReadStartup(killed))
    ensures SameRecords(s, DoStep(s, j, ReadStartup(killed)))
  {
    StartupOthers(s, j, killed);
    StartupOwn(s, j, killed);
  }

  lemma StartupOthers(s: State, j: Request, killed: bool)
    requires CanDo(s, j, ReadStartup(killed))
    ensures var after := DoStep(s, j, ReadStartup(killed)).sessions;
            j in after && after == s.sessions[j := after[j]]
  {
  }

  lemma StartupOwn(s: State, j: Request, killed: bool)
    requires CanDo(s, j, ReadStartup(killed))
    ensures var after := DoStep(s, j, ReadStartup(killed)).sessions;
            j in after && after[j].log == s.sessions[j].log && after[j].written == s.sessions[j].written
  {
  }

  lemma KnowsStays(s: State, s': State)
    requires AllKnow(s) && s'.procs.Keys == s.procs.Keys && s'.sessions.Keys == s.sessions.Keys
    requires forall q :: q in s.procs ==> s'.procs[q].stdin == s.procs[q].stdin && s'.procs[q].mode == s.procs[q].mode
    requires forall i :: i in s.sessions ==> s'.sessions[i].written == s.sessions[i].written
    ensures AllKnow(s')
  {
    forall q | q in s'.procs ensures Knows(s', q) {
      assert Knows(s, q);
    }
  }

  lemma ReadFaithful(s: State, j: Request, distrust: bool, i: Request, said: seq<Event>)
    requires Accounted(s, i, said) && CanDo(s, j, Read(distrust))
    requires var p := s.sessions[j].reader.pid;
             s.sessions[j].written == Some(p) && s.procs[p].pipe[0].owner in {Some(j), None}
    ensures Accounted(DoStep(s, j, Read(distrust)), i, said)
  {
    var s' := DoStep(s, j, Read(distrust));
    ReadEffect(s, j, distrust);
    KnowsStays(s, s');
    var pipe := s.procs[s.sessions[j].reader.pid].pipe;
    ForPopped(s.sessions[j].log, pipe, i);
  }

  /** Reading moves an event from what is to be read to what was. */
  lemma ForPopped(log: seq<Event>, pipe: seq<Event>, i: Request)
    requires pipe != []
    ensures For(log + [pipe[0]], i) + For(pipe[1..], i) == For(log, i) + For(pipe, i)
    ensures pipe[0].owner != Some(i) ==> For(pipe[1..], i) == For(pipe, i)
  {
    ForAppend(log, pipe[0], i);
    Regroup(For(log, i), if pipe[0].owner == Some(i) then [pipe[0]] else [], For(pipe[1..], i));
  }

  lemma Regroup(a: seq<Event>, b: seq<Event>, c: seq<Event>)
    ensures (a + b) + c == a + (b + c) && [] + c == c
  {
  }

  lemma StartupFaithful(s: State, j: Request, killed: bool, i: Request, said: seq<Event>)
    requires Accounted(s, i, said) && CanDo(s, j, ReadStartup(killed))
    requires (s.process.Some? ==> s.process.value in s.procs) && s.procs[s.sessions[j].pc.pid].pipe[0].owner == None
    ensures Accounted(DoStep(s, j, ReadStartup(killed)), i, said)
  {
    StartupEffect(s, j, killed);
    KnowsStays(s, DoStep(s, j, ReadStartup(killed)));
    ForPopped([], s.procs[s.sessions[j].pc.pid].pipe, i);
  }

  lemma EmitFaithful(s: State, p: Pid, kind: Kind, i: Request, said: seq<Event>)
    requires Accounted(s, i, said) && Enabled(s, Emit(p, kind))
    ensures Accounted(Apply(s, Emit(p, kind)), i, said + Saying(s, Emit(p, kind), i))
  {
    var s', pr := Apply(s, Emit(p, kind)), s.procs[p];
    assert Knows(s, p);
    forall q | q in s'.procs ensures Knows(s', q) {
      assert Knows(s, q);
    }
    var e := Event(if pr.mode.Busy? then Some(pr.mode.request) else None, kind);
    assert s'.procs[p].pipe == pr.pipe + [e];
    ForAppend(pr.pipe, e, i);
    var log := For(s.sessions[i].log, i);
    assert log + (For(pr.pipe, i) + Saying(s, Emit(p, kind), i)) == log + For(pr.pipe, i) + Saying(s, Emit(p, kind), i);
  }

  lemma TakeFaithful(s: State, p: Pid, i: Request, said: seq<Event>)
    requires Accounted(s, i, said) && Enabled(s, Take(p))
    ensures Accounted(Apply(s, Take(p)), i, said)
  {
    var s', pr := Apply(s, Take(p)), s.procs[p];
    assert Knows(s, p) && pr.stdin[0] in pr.stdin && forall r :: r in pr.stdin[1..] ==> r in pr.stdin;
    forall q | q in s'.procs ensures Knows(s', q) {
      assert Knows(s, q);
    }
  }

  lemma ActFaithful(s: State, j: Request, a: Act, i: Request, said: seq<Event>)
    requires Inv(s) && Accounted(s, i, said) && CanDo(s, j, a)
    ensures Accounted(DoStep(s, j, a), i, said)
  {
    if a.Read? {
      ReadFacts(s, j, a.distrust);
      ReadFaithful(s, j, a.distrust, i, said);
    } else if a.ReadStartup? {
      StartupFacts(s, j, a.killed);
      StartupFaithful(s, j, a.killed, i, said);
    } else if a.Write? {
      WriteFacts(s, j);
      NoneFor(s.procs[s.sessions[j].pc.pid].pipe, j);
      WriteFaithful(s, j, i, said);
    } else {
      SilentActs(s, j, a);
      NothingSaid(s, DoStep(s, j, a), i, said);
    }
  }

  lemma StepFaithful(s: State, m: Move, i: Request, said: seq<Event>)
    requires Inv(s) && Accounted(s, i, said) && Enabled(s, m)
    ensures Accounted(Apply(s, m), i, said + Saying(s, m, i))
  {
    assert said + [] == said;
    if m.Do? {
      ActMove(s, m.i, m.act, i, said);
    } else if m.Emit? {
      EmitFaithful(s, m.p, m.kind, i, said);
    } else if m.Take? {
      TakeFaithful(s, m.p, i, said);
    } else {
      SilentMove(s, m, i, said);
    }
  }

  lemma ActMove(s: State, j: Request, a: Act, i: Request, said: seq<Event>)
    requires Inv(s) && Accounted(s, i, said) && Enabled(s, Do(j, a))
    ensures Accounted(Apply(s, Do(j, a)), i, said)
  {
    ActFaithful(s, j, a, i, said);
  }

  lemma SilentMove(s: State, m: Move, i: Request, said: seq<Event>)
    requires Accounted(s, i, said) && Enabled(s, m) && (m.Die? || m.Terminate? || m.Shut?)
    ensures Accounted(Apply(s, m), i, said)
  {
    SilentMoves(s, m);
    NothingSaid(s, Apply(s, m), i, said);
  }

  /* ---------- Every run ---------- */

  lemma PlayKeeps(run: seq<State>, moves: seq<Move>, n: nat)
    requires Plays(run, moves) && n <= |moves|
    ensures Inv(run[n])
  {
    if n == 0 {
      InitInv(run[0]);
    } else {
      PlayKeeps(run, moves, n - 1);
      StepKeeps(run[n - 1], moves[n - 1]);
    }
  }

  lemma {:induction false} AllFaithful(run: seq<State>, moves: seq<Move>, n: nat, i: Request)
    requires Plays(run, moves) && n <= |moves| && i in run[0].sessions
    ensures Accounted(run[n], i, Said(run, moves, n, i))
  {
    if n > 0 {
      AllFaithful(run, moves, n - 1, i);
      PlayKeeps(run, moves, n - 1);
      assert run[n - 1 + 1] == Apply(run[n - 1], moves[n - 1]);
      StepFaithful(run[n - 1], moves[n - 1], i, Said(run, moves, n - 1, i));
    }
  }

  /** In every state of every run: what was said for a request is exactly what its session has read
      of it, in that order, followed by what is still in the pipe. So nothing is read twice, nothing
      skipped, nothing out of order; and unless a start-up was cut short under a live runtime, what
      the session has read is the beginning of what was said, and nothing else. */
  lemma ReadInOrder(run: seq<State>, moves: seq<Move>, n: nat, i: Request)
    requires Plays(run, moves) && n <= |moves| && i in run[0].sessions
    ensures i in run[n].sessions
    ensures var me := run[n].sessions[i];
            && (me.written.None? ==> Said(run, moves, n, i) == [] && me.log == [])
            && (me.written.Some? ==>
                  && me.written.value in run[n].procs
                  && Said(run, moves, n, i) == For(me.log, i) + For(run[n].procs[me.written.value].pipe, i))
    ensures For(run[n].sessions[i].log, i) <= Said(run, moves, n, i)
    ensures !run[n].exposed ==> run[n].sessions[i].log <= Said(run, moves, n, i)
  {
    AllFaithful(run, moves, n, i);
    PlayKeeps(run, moves, n);
    if !run[n].exposed {
      assert OwnEvents(run[n], i);
      ForAll(run[n].sessions[i].log, i);
    }
  }
}
