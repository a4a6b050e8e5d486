/** What the host relays to a client is what it read of the client's job: every event, in order,
    each once, up to the one that could not be sent (hornlab_beat_bem/worker_host.py). */
module HostFidelity {
  import opened Prelude
  import W = Workers
  import F = WorkerFidelity
  import opened Host
  import HP = HostProofs

  /** A run with the moves that made it. */
  ghost predicate Plays(run: seq<State>, moves: seq<Move>) {
    && |run| == |moves| + 1 && Init(run[0])
    && forall k :: 0 <= k < |moves| ==> Enabled(run[k], moves[k]) && run[k + 1] == Apply(run[k], moves[k])
  }

  /** By this move an event of request `r` is read whose frame cannot be sent. */
  predicate Loses(s: State, m: Move, r: W.Request) {
    m.Relay? && !m.delivered && IsJob(s, m.c, None) && s.clients[m.c].request == r
  }

  /** What a move makes a runtime say for request `r`. */
  function Saying(s: State, m: Move, r: W.Request): seq<W.Event> {
    if m.Runtime? then F.Saying(s.engine, m.move, r) else []
  }

  /** All that was said for request `r` in the first `n` steps. */
  ghost function Said(run: seq<State>, moves: seq<Move>, n: nat, r: W.Request): seq<W.Event>
    requires n <= |moves| && |run| == |moves| + 1
  {
    if n == 0 then [] else Said(run, moves, n - 1, r) + Saying(run[n - 1], moves[n - 1], r)
  }

  /* ---------- The invariant ---------- */

  predicate Past(pc: W.Pc) {
    pc.Retiring? || pc.Closing? || pc.Gone?
  }

  /** A session has read nothing before its request is written, and nothing after its end. */
  predicate Ended(me: W.Session) {
    && (!me.pc.Streaming? && !Past(me.pc) ==> me.log == [])
    && forall k :: 0 <= k < |me.log| && W.Terminal(me.log[k].kind) ==> k == |me.log| - 1 && Past(me.pc)
  }

  /** What was sent for `r` is what was read, or all but the last of it, which was `lost`. */
  predicate Told(s: State, r: W.Request, lost: bool) {
    && r in s.engine.sessions
    && var me, sent := s.engine.sessions[r], Sent(s, r);
       && Ended(me)
       && if lost then sent <= me.log && |me.log| == |sent| + 1 && Past(me.pc) else sent == me.log
  }

  /* ---------- Every step keeps it ---------- */

  /** An act that reads no event of the job. */
  lemma ActReadsNothing(e: W.State, i: W.Request, a: W.Act)
    requires W.CanDo(e, i, a) && !a.Read?
    ensures i in W.DoStep(e, i, a).sessions && W.DoStep(e, i, a).sessions[i].log == e.sessions[i].log
    ensures Past(e.sessions[i].pc) ==> Past(W.DoStep(e, i, a).sessions[i].pc)
    ensures e.sessions[i].pc.Streaming? ==>
              W.DoStep(e, i, a).sessions[i].pc.Streaming? || Past(W.DoStep(e, i, a).sessions[i].pc)
  {
  }

  lemma ReadReads(e: W.State, i: W.Request)
    requires W.CanDo(e, i, W.Read(false))
    ensures var me, e' := e.sessions[i], W.DoStep(e, i, W.Read(false));
            && i in e'.sessions && e'.sessions == e.sessions[i := e'.sessions[i]]
            && var event := e.procs[me.reader.pid].pipe[0];
               && e'.sessions[i].log == me.log + [event]
               && (if W.Terminal(event.kind) then e'.sessions[i].pc.Retiring? else e'.sessions[i].pc.Streaming?)
  {
  }

  /** The session of `r` has read no more than before. */
  predicate NoMoreRead(e: W.State, e': W.State, r: W.Request) {
    && r in e.sessions && r in e'.sessions && e'.sessions[r].log == e.sessions[r].log
    && (Past(e.sessions[r].pc) ==> Past(e'.sessions[r].pc))
    && (e.sessions[r].pc.Streaming? ==> e'.sessions[r].pc.Streaming? || Past(e'.sessions[r].pc))
  }

  lemma ActNoMore(e: W.State, i: W.Request, a: W.Act, r: W.Request)
    requires W.CanDo(e, i, a) && !a.Read? && r in e.sessions
    ensures NoMoreRead(e, W.DoStep(e, i, a), r)
  {
    HP.DoFrame(e, i, a);
    if r == i {
      ActReadsNothing(e, i, a);
    }
  }

  lemma QuietTold(s: State, s': State, r: W.Request, lost: bool)
    requires Told(s, r, lost) && NoMoreRead(s.engine, s'.engine, r) && s'.sent == s.sent
    ensures Told(s', r, lost)
  {
  }

  /** Steps of the host other than a relay read nothing. */
  lemma NotRelayed(s: State, m: Move, r: W.Request)
    requires Enabled(s, m) && !m.Relay? && r in s.engine.sessions
    ensures NoMoreRead(s.engine, Apply(s, m).engine, r) && Apply(s, m).sent == s.sent
  {
    if m.Engine? {
      ActNoMore(s.engine, s.clients[m.c].request, m.act, r);
    } else if m.WarmUp? {
      ActNoMore(s.engine, m.request, m.act, r);
    } else if m.RetireJob? {
      RetireNoMore(s, m.c, m.dead, r);
    } else {
      SameSessions(s, m);
    }
  }

  lemma RetireNoMore(s: State, c: Client, dead: set<W.Pid>, r: W.Request)
    requires Enabled(s, RetireJob(c, dead)) && r in s.engine.sessions
    ensures NoMoreRead(s.engine, Apply(s, RetireJob(c, dead)).engine, r)
    ensures Apply(s, RetireJob(c, dead)).sent == s.sent
  {
    var terminated, i := W.Apply(s.engine, W.Terminate(dead)), s.clients[c].request;
    if W.CanDo(terminated, i, W.Retire(false)) {
      ActNoMore(terminated, i, W.Retire(false), r);
    }
  }

  lemma SameSessions(s: State, m: Move)
    requires Enabled(s, m) && !m.Relay? && !m.Engine? && !m.WarmUp? && !m.RetireJob?
    ensures Apply(s, m).engine.sessions == s.engine.sessions && Apply(s, m).sent == s.sent
  {
    if !m.Runtime? && !m.RefuseAll? && !m.Stop? && !m.RetireForClient? {
      SameEngine(s, m);
    }
  }

  lemma SameEngine(s: State, m: Move)
    requires Enabled(s, m) && !m.Relay? && !m.Engine? && !m.WarmUp? && !m.RetireJob?
    requires !m.Runtime? && !m.RefuseAll? && !m.Stop? && !m.RetireForClient?
    ensures Apply(s, m).engine == s.engine && Apply(s, m).sent == s.sent
  {
  }

  /** A relay sends what it read, or ends the reading ... */
  lemma RelayOwn(s: State, c: Client, delivered: bool, lost: bool)
    requires Enabled(s, Relay(c, delivered)) && Told(s, s.clients[c].request, lost)
    ensures Told(Apply(s, Relay(c, delivered)), s.clients[c].request, lost || !delivered)
  {
    var r := s.clients[c].request;
    ReadReads(s.engine, r);
    if !delivered {
      RelayLost(s, c);
    }
  }

  lemma RelayLost(s: State, c: Client)
    requires Enabled(s, Relay(c, false))
    ensures var s', r := Apply(s, Relay(c, false)), s.clients[c].request;
            && s'.sent == s.sent && r in s'.engine.sessions && Past(s'.engine.sessions[r].pc)
            && s'.engine.sessions[r].log == W.DoStep(s.engine, r, W.Read(false)).sessions[r].log
  {
    var r := s.clients[c].request;
    ReadReads(s.engine, r);
    var read := W.DoStep(s.engine, r, W.Read(false));
    if W.CanDo(read, r, W.Abandon) {
      ActReadsNothing(read, r, W.Abandon);
    }
  }

  /** ... and is nothing to anybody else's job. */
  lemma RelayOther(s: State, c: Client, delivered: bool, r: W.Request, lost: bool)
    requires Enabled(s, Relay(c, delivered)) && Told(s, r, lost) && s.clients[c].request != r
    ensures Told(Apply(s, Relay(c, delivered)), r, lost)
  {
    var i := s.clients[c].request;
    ReadReads(s.engine, i);
    var read := W.DoStep(s.engine, i, W.Read(false));
    if !delivered && W.CanDo(read, i, W.Abandon) {
      HP.DoFrame(read, i, W.Abandon);
    }
  }

  lemma StepTold(s: State, m: Move, r: W.Request, lost: bool)
    requires Told(s, r, lost) && Enabled(s, m)
    ensures Told(Apply(s, m), r, lost || Loses(s, m, r))
  {
    if m.Relay? {
      if s.clients[m.c].request == r {
        RelayOwn(s, m.c, m.delivered, lost);
      } else {
        RelayOther(s, m.c, m.delivered, r, lost);
      }
    } else {
      NotRelayed(s, m, r);
      QuietTold(s, Apply(s, m), r, lost);
    }
  }

  /** The host's steps make the runtimes say what `Saying` says, and no session miss any of it. */
  lemma StepAccounted(s: State, m: Move, r: W.Request, said: seq<W.Event>)
    requires Inv(s) && Enabled(s, m) && F.Accounted(s.engine, r, said)
    ensures F.Accounted(Apply(s, m).engine, r, said + Saying(s, m, r))
  {
    if m.Runtime? {
      RuntimeStep(s, m.move, r, said);
    } else {
      SilentStep(s, m, r, said);
      assert said + [] == said;
    }
  }

  lemma RuntimeStep(s: State, w: W.Move, r: W.Request, said: seq<W.Event>)
    requires Inv(s) && Enabled(s, Runtime(w)) && F.Accounted(s.engine, r, said)
    ensures F.Accounted(Apply(s, Runtime(w)).engine, r, said + F.Saying(s.engine, w, r))
  {
    F.StepFaithful(s.engine, w, r, said);
  }

  lemma SilentStep(s: State, m: Move, r: W.Request, said: seq<W.Event>)
    requires Inv(s) && Enabled(s, m) && !m.Runtime? && F.Accounted(s.engine, r, said)
    ensures F.Accounted(Apply(s, m).engine, r, said)
  {
    var first, second := HP.EngineRuns(s, m);
    OneOrTwo(s.engine, first, second, r, said);
  }

  lemma OneOrTwo(e: W.State, first: Option<W.Move>, second: Option<W.Move>, r: W.Request, said: seq<W.Event>)
    requires W.Inv(e) && F.Accounted(e, r, said)
    requires first.Some? ==> W.Enabled(e, first.value) && !first.value.Emit?
    requires second.Some? ==> first.Some? && W.Enabled(W.Apply(e, first.value), second.value) && !second.value.Emit?
    ensures first.Some? ==> F.Accounted(W.Apply(e, first.value), r, said)
    ensures second.Some? ==> F.Accounted(W.Apply(W.Apply(e, first.value), second.value), r, said)
  {
    if first.Some? {
      Silent(e, first.value, r, said);
      if second.Some? {
        Silent(W.Apply(e, first.value), second.value, r, said);
      }
    }
  }

  lemma Silent(e: W.State, m: W.Move, r: W.Request, said: seq<W.Event>)
    requires W.Inv(e) && W.Enabled(e, m) && !m.Emit? && F.Accounted(e, r, said)
    ensures W.Inv(W.Apply(e, m)) && F.Accounted(W.Apply(e, m), r, said)
  {
    W.StepKeeps(e, m);
    F.StepFaithful(e, m, r, said);
    assert said + [] == said;
  }

  /* ---------- Every run ---------- */

  /** Some event of `r` was read and could not be sent in the first `n` steps. */
  ghost predicate Lost(run: seq<State>, moves: seq<Move>, n: nat, r: W.Request)
    requires n <= |moves| && |run| == |moves| + 1
  {
    exists k :: 0 <= k < n && Loses(run[k], moves[k], r)
  }

  lemma {:induction false} PlayKeeps(run: seq<State>, moves: seq<Move>, n: nat, r: W.Request)
    requires Plays(run, moves) && n <= |moves| && r in run[0].engine.sessions
    ensures Inv(run[n]) && Told(run[n], r, Lost(run, moves, n, r))
    ensures F.Accounted(run[n].engine, r, Said(run, moves, n, r))
  {
    if n == 0 {
      InitInv(run[0]);
    } else {
      PlayKeeps(run, moves, n - 1, r);
      var s, m := run[n - 1], moves[n - 1];
      assert run[n - 1 + 1] == Apply(s, m);
      HP.StepKeeps(s, m);
      StepTold(s, m, r, Lost(run, moves, n - 1, r));
      StepAccounted(s, m, r, Said(run, moves, n - 1, r));
      assert Lost(run, moves, n, r) == (Lost(run, moves, n - 1, r) || Loses(s, m, r));
    }
  }

  /** In every state of every run of the host: what was sent to the client of request `r` is what
      was read of its job, in that order and each event once, exactly if no frame of it was lost;
      and a lost one is the last that was read. */
  lemma SentAsRead(run: seq<State>, moves: seq<Move>, n: nat, r: W.Request)
    requires Plays(run, moves) && n <= |moves| && r in run[0].engine.sessions
    ensures r in run[n].engine.sessions
    ensures var log, sent := run[n].engine.sessions[r].log, Sent(run[n], r);
            && sent <= log && |log| <= |sent| + 1
            && (sent == log <==>
                forall k :: 0 <= k < n && moves[k].Relay? && !moves[k].delivered ==>
                  !(IsJob(run[k], moves[k].c, None) && run[k].clients[moves[k].c].request == r))
  {
    PlayKeeps(run, moves, n, r);
    assert Lost(run, moves, n, r) <==> exists k :: 0 <= k < n && Loses(run[k], moves[k], r);
  }

  /** ... so unless a start-up was cut short under a live runtime, it is the beginning of what the
      runtimes said for that request. */
  lemma SentInOrder(run: seq<State>, moves: seq<Move>, n: nat, r: W.Request)
    requires Plays(run, moves) && n <= |moves| && r in run[0].engine.sessions
    ensures !run[n].engine.exposed ==> Sent(run[n], r) <= Said(run, moves, n, r)
  {
    PlayKeeps(run, moves, n, r);
    if !run[n].engine.exposed {
      SentIsSaid(run[n], r, Lost(run, moves, n, r), Said(run, moves, n, r));
    }
  }

  lemma SentIsSaid(s: State, r: W.Request, lost: bool, said: seq<W.Event>)
    requires Inv(s) && Told(s, r, lost) && F.Accounted(s.engine, r, said) && !s.engine.exposed
    ensures Sent(s, r) <= said
  {
    assert W.OwnEvents(s.engine, r);
    F.ForAll(s.engine.sessions[r].log, r);
  }
}
