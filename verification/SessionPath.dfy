/** What `BeatSolveSession` does to its worker is a path of the worker's own step system: for every
    way the events of a submitted job end for the session, there are moves of `Workers` by which
    it ends so, and by which the runtime is retired and the slot given back exactly as, and in the
    order in which, the session's class does it. */
module SessionPaths {
  import opened Prelude
  import W = Workers
  import L = WorkerLapses
  import S = Sessions

  /** What a session makes of an event. */
  function Seen(k: W.Kind): S.Kind {
    match k
    case Status => S.Status
    case Initialized => S.Initialized
    case Failed => S.Failed
    case Completed => S.Completed
    case Cancelled => S.Cancelled
    case _ => S.Other
  }

  function Script(pipe: seq<W.Event>): seq<S.Kind> {
    seq(|pipe|, k requires 0 <= k < |pipe| => Seen(pipe[k].kind))
  }

  /** The last event of a job. */
  predicate Ends(k: S.Kind) {
    k == S.Failed || k == S.Completed || k == S.Cancelled
  }

  /** The first `n` events decide nothing, and then it ends as `v` says. */
  predicate Stops(script: seq<S.Kind>, n: nat, v: S.Verdict) {
    && n <= |script|
    && (forall k :: 0 <= k < n ==> !Ends(script[k]))
    && match v
       case Began => n < |script| && script[n] == S.Initialized
       case SolverFailed => n < |script| && script[n] == S.Failed
       case OverEarly => n < |script| && (script[n] == S.Completed || script[n] == S.Cancelled)
       case StreamOver => n == |script|
       case _ => true
  }

  lemma {:induction false} JobStops(script: seq<S.Kind>, patience: nat, raiseAt: int) returns (n: nat)
    requires patience > 0
    ensures Stops(script, n, S.JobVerdict(script, patience, raiseAt))
    decreases |script|
  {
    n := 0;
    if script != [] && !Ends(script[0]) {
      var yielded := script[0] != S.Status;
      if yielded && patience == 1 {
        n := 1;
      } else if yielded || raiseAt != 0 {
        n := JobStops(script[1..], if yielded then patience - 1 else patience, raiseAt - 1);
        n := n + 1;
      }
    }
  }

  lemma {:induction false} StartStops(script: seq<S.Kind>, raiseAt: int) returns (n: nat)
    ensures Stops(script, n, S.StartVerdict(script, raiseAt))
    decreases |script|
  {
    n := 0;
    if script != [] && !Ends(script[0]) && script[0] != S.Initialized && !(script[0] == S.Status && raiseAt == 0) {
      n := StartStops(script[1..], raiseAt - 1);
      n := n + 1;
    }
  }

  /* ---------- What moves do to the worker ---------- */

  /** What one move makes session `i` do: a retirement that is its to make, and giving the slot
      back. */
  function Deed(s: W.State, i: W.Request, m: W.Move): seq<S.Deed>
    requires W.Enabled(s, m)
  {
    (if m.Do? && m.i == i && m.act.Retire? && s.sessions[i].condemned && s.holder == Some(i) then [S.Killed] else [])
    + (if s.holder == Some(i) && W.Apply(s, m).holder != Some(i) then [S.Freed] else [])
  }

  function Deeds(s: W.State, i: W.Request, moves: seq<W.Move>): seq<S.Deed>
    requires L.CanPlay(s, moves)
    decreases |moves|
  {
    if moves == [] then [] else Deed(s, i, moves[0]) + Deeds(W.Apply(s, moves[0]), i, moves[1..])
  }

  /** The deeds that are done to the worker itself; a cancel is a file in the job's directory. */
  function OfWorker(deeds: seq<S.Deed>): seq<S.Deed> {
    if deeds == [] then []
    else (if deeds[0].AskedToCancel? then [] else [deeds[0]]) + OfWorker(deeds[1..])
  }

  lemma EndingOfWorker(v: S.Verdict)
    ensures OfWorker(S.EndingDeeds(v))
            == match v
               case Began => []
               case OverEarly => [S.Freed]
               case StreamOver => [S.Freed]
               case _ => [S.Killed, S.Freed]
  {
    assert OfWorker([S.Killed, S.Freed]) == [S.Killed, S.Freed];
    assert OfWorker([S.Freed]) == [S.Freed];
    assert OfWorker([S.AskedToCancel]) == [];
    assert [S.AskedToCancel, S.Killed, S.Freed][1..] == [S.Killed, S.Freed];
    assert [S.Freed, S.AskedToCancel][1..] == [S.AskedToCancel];
  }

  /** Moves of session `i` alone, but for the death of its runtime. */
  predicate Alone(moves: seq<W.Move>, i: W.Request, p: W.Pid) {
    forall m :: m in moves ==> (m.Do? && m.i == i) || m == W.Die(p)
  }

  lemma Then(s: W.State, i: W.Request, p: W.Pid, m: W.Move, rest: seq<W.Move>)
    requires W.Enabled(s, m) && L.CanPlay(W.Apply(s, m), rest) && Alone(rest, i, p)
    requires (m.Do? && m.i == i) || m == W.Die(p)
    ensures L.CanPlay(s, [m] + rest) && L.End(s, [m] + rest) == L.End(W.Apply(s, m), rest)
    ensures Deeds(s, i, [m] + rest) == Deed(s, i, m) + Deeds(W.Apply(s, m), i, rest)
    ensures Alone([m] + rest, i, p)
  {
    L.Then(s, m, rest);
    assert ([m] + rest)[1..] == rest;
  }

  /** Session `i` has the slot and reads from the runtime `p`. */
  predicate Streams(s: W.State, i: W.Request, p: W.Pid) {
    && s.holder == Some(i) && i in s.sessions && p in s.procs
    && s.sessions[i].pc.Streaming? && s.sessions[i].reader == W.Reading(p)
    && !s.sessions[i].finished && !s.sessions[i].condemned
  }

  /** Where the session ends up: gone, without the slot, with its job finished or not, and the
      runtime forgotten if it was killed. */
  predicate Over(s: W.State, i: W.Request, v: S.Verdict) {
    && i in s.sessions && s.sessions[i].pc.Gone? && s.holder != Some(i)
    && s.sessions[i].finished == (v.SolverFailed? || v.OverEarly?)
    && (S.Killed in S.EndingDeeds(v) ==> s.process == None)
  }

  /** Out of the stream: the retirement and the release. */
  lemma Leaves(s: W.State, i: W.Request, p: W.Pid) returns (moves: seq<W.Move>)
    requires i in s.sessions && s.sessions[i].pc.Retiring?
    ensures L.CanPlay(s, moves) && Alone(moves, i, p)
    ensures var e := L.End(s, moves);
            && i in e.sessions && e.sessions[i].pc.Gone? && e.holder != Some(i)
            && e.sessions[i].finished == s.sessions[i].finished
            && (e.process == if s.sessions[i].condemned && s.holder == Some(i) then None else s.process)
    ensures Deeds(s, i, moves)
            == (if s.sessions[i].condemned && s.holder == Some(i) then [S.Killed] else [])
               + (if s.holder == Some(i) then [S.Freed] else [])
  {
    var retired := W.Apply(s, W.Do(i, W.Retire(true)));
    Then(retired, i, p, W.Do(i, W.Close), []);
    Then(s, i, p, W.Do(i, W.Retire(true)), [W.Do(i, W.Close)]);
    moves := [W.Do(i, W.Retire(true))] + [W.Do(i, W.Close)];
  }

  /** The stream ends here. */
  lemma EndsHere(s: W.State, i: W.Request, p: W.Pid, v: S.Verdict) returns (moves: seq<W.Move>)
    requires Streams(s, i, p) && Stops(Script(s.procs[p].pipe), 0, v) && !v.Began?
    ensures L.CanPlay(s, moves) && Alone(moves, i, p) && Over(L.End(s, moves), i, v)
    ensures Deeds(s, i, moves) == OfWorker(S.EndingDeeds(v))
  {
    EndingOfWorker(v);
    if v.SolverFailed? || v.OverEarly? {
      moves := EndsByEvent(s, i, p);
    } else if v.StreamOver? {
      moves := EndsByDeath(s, i, p);
    } else {
      var m := W.Do(i, W.Abandon);
      var s' := W.Apply(s, m);
      moves := Leaves(s', i, p);
      assert Deed(s, i, m) == [] && s'.sessions[i].condemned && s'.holder == Some(i);
      Then(s, i, p, m, moves);
      moves := [m] + moves;
    }
  }

  lemma EndsByEvent(s: W.State, i: W.Request, p: W.Pid) returns (moves: seq<W.Move>)
    requires Streams(s, i, p) && s.procs[p].pipe != [] && Ends(Seen(s.procs[p].pipe[0].kind))
    ensures L.CanPlay(s, moves) && Alone(moves, i, p)
    ensures var failed, e := s.procs[p].pipe[0].kind.Failed?, L.End(s, moves);
            && i in e.sessions && e.sessions[i].pc.Gone? && e.holder != Some(i) && e.sessions[i].finished
            && (failed ==> e.process == None)
            && Deeds(s, i, moves) == if failed then [S.Killed, S.Freed] else [S.Freed]
  {
    var m := W.Do(i, W.Read(true));
    var s' := W.Apply(s, m);
    moves := Leaves(s', i, p);
    assert Deed(s, i, m) == [] && s'.sessions[i].finished && s'.holder == Some(i);
    assert s'.sessions[i].condemned == s.procs[p].pipe[0].kind.Failed?;
    Then(s, i, p, m, moves);
    moves := [m] + moves;
  }

  lemma EndsByDeath(s: W.State, i: W.Request, p: W.Pid) returns (moves: seq<W.Move>)
    requires Streams(s, i, p) && s.procs[p].pipe == []
    ensures L.CanPlay(s, moves) && Alone(moves, i, p)
    ensures var e := L.End(s, moves);
            && i in e.sessions && e.sessions[i].pc.Gone? && e.holder != Some(i) && !e.sessions[i].finished
            && Deeds(s, i, moves) == [S.Freed]
  {
    var dead := W.Apply(s, W.Die(p));
    var over := W.Apply(dead, W.Do(i, W.Eof));
    moves := Leaves(over, i, p);
    assert Deed(dead, i, W.Do(i, W.Eof)) == [S.Freed] && over.holder == None;
    Then(dead, i, p, W.Do(i, W.Eof), moves);
    moves := [W.Do(i, W.Eof)] + moves;
    assert Deed(s, i, W.Die(p)) == [];
    Then(s, i, p, W.Die(p), moves);
    moves := [W.Die(p)] + moves;
  }

  /** An event that decides nothing is read. */
  lemma ReadsOn(s: W.State, i: W.Request, p: W.Pid)
    requires Streams(s, i, p) && s.procs[p].pipe != [] && !Ends(Seen(s.procs[p].pipe[0].kind))
    ensures W.Enabled(s, W.Do(i, W.Read(true))) && Deed(s, i, W.Do(i, W.Read(true))) == []
    ensures var s' := W.Apply(s, W.Do(i, W.Read(true)));
            Streams(s', i, p) && s'.procs[p].pipe == s.procs[p].pipe[1..]
  {
  }

  lemma {:induction false} EndsAfter(s: W.State, i: W.Request, p: W.Pid, n: nat, v: S.Verdict)
    returns (moves: seq<W.Move>)
    requires Streams(s, i, p) && Stops(Script(s.procs[p].pipe), n, v) && !v.Began?
    ensures L.CanPlay(s, moves) && Alone(moves, i, p) && Over(L.End(s, moves), i, v)
    ensures Deeds(s, i, moves) == OfWorker(S.EndingDeeds(v))
    decreases n
  {
    if n == 0 {
      moves := EndsHere(s, i, p, v);
    } else {
      StopsLater(s.procs[p].pipe, n, v);
      ReadsOn(s, i, p);
      moves := EndsAfter(W.Apply(s, W.Do(i, W.Read(true))), i, p, n - 1, v);
      Then(s, i, p, W.Do(i, W.Read(true)), moves);
      moves := [W.Do(i, W.Read(true))] + moves;
    }
  }

  lemma StopsLater(pipe: seq<W.Event>, n: nat, v: S.Verdict)
    requires n > 0 && Stops(Script(pipe), n, v)
    ensures pipe != [] && !Ends(Seen(pipe[0].kind)) && Stops(Script(pipe[1..]), n - 1, v)
  {
    assert Script(pipe)[0] == Seen(pipe[0].kind);
    assert forall k :: 0 <= k < |pipe| - 1 ==> Script(pipe[1..])[k] == Script(pipe)[k + 1];
  }

  lemma {:induction false} BeginsAfter(s: W.State, i: W.Request, p: W.Pid, n: nat) returns (moves: seq<W.Move>)
    requires Streams(s, i, p) && Stops(Script(s.procs[p].pipe), n, S.Began)
    ensures L.CanPlay(s, moves) && Alone(moves, i, p) && Streams(L.End(s, moves), i, p)
    ensures Deeds(s, i, moves) == []
    decreases n
  {
    assert Script(s.procs[p].pipe)[0] == Seen(s.procs[p].pipe[0].kind);
    ReadsOn(s, i, p);
    if n == 0 {
      moves := [];
    } else {
      StopsLater(s.procs[p].pipe, n, S.Began);
      moves := BeginsAfter(W.Apply(s, W.Do(i, W.Read(true))), i, p, n - 1);
    }
    Then(s, i, p, W.Do(i, W.Read(true)), moves);
    moves := [W.Do(i, W.Read(true))] + moves;
  }

  /* ---------- The session's paths ---------- */

  /** `events()`, whatever the runtime has said by then: the session's moves in the worker do to it
      what the class does. */
  lemma JobIsPath(s: W.State, i: W.Request, p: W.Pid, patience: nat, raiseAt: int) returns (moves: seq<W.Move>)
    requires Streams(s, i, p) && patience > 0
    ensures var v := S.JobVerdict(Script(s.procs[p].pipe), patience, raiseAt);
            && L.CanPlay(s, moves) && Alone(moves, i, p) && Over(L.End(s, moves), i, v)
            && Deeds(s, i, moves) == OfWorker(S.EndingDeeds(v))
  {
    var n := JobStops(Script(s.procs[p].pipe), patience, raiseAt);
    moves := EndsAfter(s, i, p, n, S.JobVerdict(Script(s.procs[p].pipe), patience, raiseAt));
  }

  /** ... and so for the first events, which the constructor reads. */
  lemma StartIsPath(s: W.State, i: W.Request, p: W.Pid, raiseAt: int) returns (moves: seq<W.Move>)
    requires Streams(s, i, p)
    ensures var v := S.StartVerdict(Script(s.procs[p].pipe), raiseAt);
            && L.CanPlay(s, moves) && Alone(moves, i, p)
            && (if v.Began? then Streams(L.End(s, moves), i, p) else Over(L.End(s, moves), i, v))
            && Deeds(s, i, moves) == OfWorker(S.EndingDeeds(v))
  {
    var v := S.StartVerdict(Script(s.procs[p].pipe), raiseAt);
    var n := StartStops(Script(s.procs[p].pipe), raiseAt);
    if v.Began? {
      moves := BeginsAfter(s, i, p, n);
    } else {
      moves := EndsAfter(s, i, p, n, v);
    }
  }

  /** An exception at one of the lines between the stores and the first event, before the stream is
      opened: the same as out of a callback. */
  lemma LineIsPath(s: W.State, i: W.Request, p: W.Pid, line: S.Line) returns (moves: seq<W.Move>)
    requires s.holder == Some(i) && i in s.sessions && s.sessions[i].pc.Streaming? && s.sessions[i].reader.Unopened?
    requires !s.sessions[i].finished && S.Stored(line) && line != S.Nowhere
    ensures L.CanPlay(s, moves) && Alone(moves, i, p) && Over(L.End(s, moves), i, S.CallbackRaised)
    ensures Deeds(s, i, moves) == OfWorker(S.EndingDeeds(S.CallbackRaised))
  {
    EndingOfWorker(S.CallbackRaised);
    var m := W.Do(i, W.Abandon);
    moves := Leaves(W.Apply(s, m), i, p);
    assert Deed(s, i, m) == [];
    Then(s, i, p, m, moves);
    moves := [m] + moves;
  }

  /** An exception inside `submit`, before the request is written: the slot is given back. */
  lemma SubmitIsPath(s: W.State, i: W.Request, p: W.Pid)
    requires s.holder == Some(i) && i in s.sessions
    requires s.sessions[i].pc.Holding? || s.sessions[i].pc.Started? || s.sessions[i].pc.Aimed?
    ensures var moves := [W.Do(i, W.GiveBack)];
            && L.CanPlay(s, moves) && Deeds(s, i, moves) == [S.Freed]
            && i in L.End(s, moves).sessions && L.End(s, moves).sessions[i].pc.Gone? && L.End(s, moves).holder == None
  {
    var m := W.Do(i, W.GiveBack);
    var s' := W.Apply(s, m);
    assert L.CanPlay(s', []) && Deeds(s', i, []) == [];
    Then(s, i, p, m, []);
    assert [m] + [] == [m];
  }
}
