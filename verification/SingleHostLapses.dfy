/** Where two hosts of one key can come to live: after a draining host has removed a key file that
    is not its own, and after a client has given up on a host that is still starting
    (hornlab_beat_bem/worker_host.py, worker_client.py). For both it is decided exactly when. */
module SingleHostLapses {
  import opened Prelude
  import opened SingleHost

  /* ---------- Moves in a row ---------- */

  /** Moves of which none does either of the two things. */
  predicate CanPlay(s: State, moves: seq<Move>)
    decreases |moves|
  {
    moves == [] || (Enabled(s, moves[0]) && Safe(s, moves[0]) && CanPlay(Apply(s, moves[0]), moves[1..]))
  }

  function End(s: State, moves: seq<Move>): State
    requires CanPlay(s, moves)
    decreases |moves|
  {
    if moves == [] then s else End(Apply(s, moves[0]), moves[1..])
  }

  /** Two hosts of the key serve or are starting. */
  ghost predicate TwoLive(s: State) {
    exists g, h :: g != h && Live(s, g) && Live(s, h)
  }

  /** What clients and hosts do, without doing it again, can bring that about. */
  ghost predicate CanBeTwo(s: State) {
    exists moves :: CanPlay(s, moves) && TwoLive(End(s, moves))
  }

  lemma {:induction false} OneStays(s: State, moves: seq<Move>)
    requires Inv(s) && CanPlay(s, moves)
    ensures !TwoLive(End(s, moves))
    decreases |moves|
  {
    if moves == [] {
      forall g, h | Live(s, g) && Live(s, h) ensures g == h {
        assert HostInv(s, g) && HostInv(s, h);
      }
    } else {
      StepKeeps(s, moves[0]);
      OneStays(Apply(s, moves[0]), moves[1..]);
    }
  }

  lemma CannotBeTwo(s: State)
    requires Inv(s)
    ensures !CanBeTwo(s)
  {
    forall moves | CanPlay(s, moves) ensures !TwoLive(End(s, moves)) {
      OneStays(s, moves);
    }
  }

  lemma CanBeTwoBefore(s: State, m: Move)
    requires Enabled(s, m) && Safe(s, m) && CanBeTwo(Apply(s, m))
    ensures CanBeTwo(s)
  {
    var rest :| CanPlay(Apply(s, m), rest) && TwoLive(End(Apply(s, m), rest));
    var moves := [m] + rest;
    assert moves[1..] == rest;
    assert CanPlay(s, moves) && End(s, moves) == End(Apply(s, m), rest);
  }

  /* ---------- A live host without a record ---------- */

  /** A host lives that no record names. */
  predicate Unseen(s: State, g: Pid) {
    s.record == None && Live(s, g) && g < s.nextPid
  }

  lemma LaunchingMakesTwo(s: State, c: Client, g: Pid)
    requires Unseen(s, g) && c in s.clients && s.clients[c].Launching?
    ensures CanBeTwo(s)
  {
    var s' := Apply(s, Launch(c, 0));
    assert Live(s', g) && Live(s', s.nextPid);
    assert CanPlay(s', []) && TwoLive(End(s', []));
    CanBeTwoBefore(s, Launch(c, 0));
  }

  lemma ClearingMakesTwo(s: State, c: Client, g: Pid)
    requires Unseen(s, g) && c in s.clients && s.clients[c].Clearing?
    ensures CanBeTwo(s)
  {
    LaunchingMakesTwo(Apply(s, Clear(c)), c, g);
    CanBeTwoBefore(s, Clear(c));
  }

  /** Whoever has the spawn lock and looks again finds nothing to adopt. */
  lemma UnderMakesTwo(s: State, c: Client, g: Pid)
    requires Unseen(s, g) && c in s.clients && s.clients[c].Under?
    ensures CanBeTwo(s)
  {
    ClearingMakesTwo(Apply(s, Relook(c)), c, g);
    CanBeTwoBefore(s, Relook(c));
  }

  /** So does the next client, if the lock is free. */
  lemma BeginMakesTwo(s: State, c: Client, g: Pid)
    requires Unseen(s, g) && s.lock == None && c in s.clients && s.clients[c].Begin?
    ensures CanBeTwo(s)
  {
    var looked := Apply(s, Look(c));
    UnderMakesTwo(Apply(looked, TakeLock(c)), c, g);
    CanBeTwoBefore(looked, TakeLock(c));
    CanBeTwoBefore(s, Look(c));
  }

  /** A client that waits for the very host gives up on it first, now that no record comes. */
  lemma PollingMakesTwo(s: State, d: Client, c: Client, g: Pid)
    requires Unseen(s, g) && d in s.clients && s.clients[d].Polling? && !Orphans(s, d)
    requires c in s.clients && s.clients[c].Begin?
    ensures CanBeTwo(s)
  {
    BeginMakesTwo(Apply(s, GiveUp(d)), c, g);
    CanBeTwoBefore(s, GiveUp(d));
  }

  /* ---------- The two lapses ---------- */

  /** After a draining host's removal of the key file two hosts can come to live, with a client
      still to come, exactly if the key file named a host that serves. */
  lemma RemovalMakesTwo(s: State, h: Pid, c: Client)
    requires Inv(s) && Enabled(s, RemoveKey(h)) && c in s.clients && s.clients[c].Begin?
    ensures CanBeTwo(Apply(s, RemoveKey(h)))
            <==> s.record.Some? && s.record.value.pid in s.hosts && s.hosts[s.record.value.pid].phase.Serving?
  {
    var s' := Apply(s, RemoveKey(h));
    RemovalIsHarmless(s, h);
    if s.record.Some? && s.record.value.pid in s.hosts && s.hosts[s.record.value.pid].phase.Serving? {
      var g := s.record.value.pid;
      assert HostInv(s, g) && Unseen(s', g);
      if s.lock.None? {
        BeginMakesTwo(s', c, g);
      } else {
        var d := s.lock.value;
        assert ClientInv(s, d);
        if s.clients[d].Under? {
          UnderMakesTwo(s', d, g);
        } else {
          assert s.clients[d].Polling? && s.clients[d].pid == g;
          PollingMakesTwo(s', d, c, g);
        }
      }
    } else {
      CannotBeTwo(s');
    }
  }

  /** After a client has given up two hosts can come to live, with another client still to come,
      exactly if the host it launched is still starting. */
  lemma GivingUpMakesTwo(s: State, d: Client, c: Client)
    requires Inv(s) && Enabled(s, GiveUp(d)) && c in s.clients && s.clients[c].Begin?
    ensures CanBeTwo(Apply(s, GiveUp(d))) <==> Orphans(s, d)
  {
    var s' := Apply(s, GiveUp(d));
    GivingUpIsHarmless(s, d);
    if Orphans(s, d) {
      var g := s.clients[d].pid;
      assert ClientInv(s, d) && HostInv(s, g);
      BeginMakesTwo(s', c, g);
    } else {
      CannotBeTwo(s');
    }
  }
}
