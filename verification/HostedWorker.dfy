/** `HostedBeatWorker._connect` and `_spawn_host` (hornlab_beat_bem/worker_client.py) as the code
    of one client, with the other clients and the hosts moving between any two of its steps.
    Every step it takes is one of `SingleHost`, so it keeps what is proved there. */
module HostedWorkers {
  import opened Prelude
  import opened SingleHost

  class Registry {
    var s: State

    constructor (initial: State)
      requires Init(initial)
      ensures s == initial && Inv(s)
    {
      s := initial;
      InitInv(initial);
    }

    predicate MoverIs(m: Move, c: Client) {
      (m.Look? || m.Greet? || m.TakeLock? || m.Relook? || m.Clear? || m.Launch? || m.Poll? || m.GiveUp?) && m.c == c
    }

    /** Any number of steps of other clients and of hosts. */
    method Others(c: Client)
      requires Inv(s) && c in s.clients
      modifies this
      ensures Inv(s) && c in s.clients && s.clients[c] == old(s.clients[c])
      ensures old(s.lost) ==> s.lost
    {
      var n: nat := *;
      while n > 0
        invariant Inv(s) && c in s.clients && s.clients[c] == old(s.clients[c])
        invariant old(s.lost) ==> s.lost
      {
        var m: Move := *;
        if Enabled(s, m) && Safe(s, m) && !MoverIs(m, c) {
          Step(m);
        }
        n := n - 1;
      }
    }

    method Step(m: Move)
      requires Inv(s) && Enabled(s, m) && Safe(s, m)
      modifies this
      ensures s == Apply(old(s), m) && Inv(s)
    {
      StepKeeps(s, m);
      s := Apply(s, m);
    }

    /** `_handshake`: the host a record names answers, or it does not. */
    method Handshake(c: Client, record: Record) returns (answered: bool)
      requires Inv(s) && c in s.clients && s.clients[c].Greeting? && s.clients[c].record == record
      modifies this
      ensures Inv(s) && c in s.clients && (old(s.lost) ==> s.lost)
      ensures answered <==> s.clients[c] == Connected(record.pid)
      ensures answered <==>
                && record.pid in s.hosts && s.hosts[record.pid].phase.Serving?
                && s.hosts[record.pid].token == record.token
      ensures !answered ==> s.clients[c] == if old(s.clients[c]).second then Failed else NeedHost(Some(record))
    {
      Others(c);
      answered := Answers(s, record);
      Step(Greet(c));
    }

    /** This client gave up on a host it had launched, and let go of the spawn lock while that
        host was still starting. What the others rely on is then gone. */
    ghost predicate Orphaned(c: Client)
      reads this
    {
      && c in s.clients && s.clients[c] == Failed && s.lock == None
      && exists h :: h in s.hosts && s.hosts[h].phase.Starting?
    }

    /** `_spawn_host`: look again under the spawn lock; adopt what is there unless it is the
        record that could not be used; otherwise clear it, launch, and wait for the host to
        publish itself, for as long as `patience` lasts. None if the lock could not be had, if the
        launched host died, or if it was too slow. */
    method SpawnHost(c: Client, replacing: Option<Record>, patience: nat, token: nat) returns (record: Option<Record>)
      requires Inv(s) && c in s.clients && s.clients[c] == NeedHost(replacing)
      modifies this
      ensures c in s.clients && (old(s.lost) ==> s.lost)
      ensures Inv(s) || (record.None? && Orphaned(c))
      ensures record.Some? ==> s.clients[c] == Greeting(record.value, true)
      ensures record.None? ==> s.clients[c] == NeedHost(replacing) || (s.clients[c] == Failed && s.lost)
      ensures !HasLock(s.clients[c])
    {
      var locked := AwaitLock(c, replacing, patience);
      if !locked {
        return None;
      }
      Others(c);
      record := LiveRecord(s);
      Step(Relook(c));
      if record.None? || record == replacing {
        record := Replace(c, patience, token);
      }
    }

    /** The spawn lock, polled for as long as `patience` lasts. */
    method AwaitLock(c: Client, replacing: Option<Record>, patience: nat) returns (locked: bool)
      requires Inv(s) && c in s.clients && s.clients[c] == NeedHost(replacing)
      modifies this
      ensures Inv(s) && c in s.clients && (old(s.lost) ==> s.lost)
      ensures s.clients[c] == if locked then Under(replacing) else NeedHost(replacing)
    {
      var left := patience;
      Others(c);
      while s.lock.Some? && left > 0
        invariant Inv(s) && c in s.clients && s.clients[c] == NeedHost(replacing) && (old(s.lost) ==> s.lost)
      {
        Others(c);
        left := left - 1;
      }
      locked := s.lock.None?;
      if locked {
        Step(TakeLock(c));
      }
    }

    /** The entry is cleared and a host launched in its place. */
    method Replace(c: Client, patience: nat, token: nat) returns (record: Option<Record>)
      requires Inv(s) && c in s.clients && s.clients[c] == Clearing
      modifies this
      ensures c in s.clients && (old(s.lost) ==> s.lost)
      ensures Inv(s) || (record.None? && Orphaned(c))
      ensures if record.Some? then s.clients[c] == Greeting(record.value, true) else s.clients[c] == Failed && s.lost
    {
      Others(c);
      Step(Clear(c));
      Others(c);
      var launched := s.nextPid;
      Step(Launch(c, token));
      record := AwaitHost(c, launched, patience);
    }

    /** The wait ends with a live record, with the death of the launched host, or because it took
        too long; then the launched host is left as it is. */
    method AwaitHost(c: Client, launched: Pid, patience: nat) returns (record: Option<Record>)
      requires Inv(s) && c in s.clients && s.clients[c] == Polling(launched)
      modifies this
      ensures c in s.clients && (old(s.lost) ==> s.lost)
      ensures Inv(s) || (record.None? && Orphaned(c))
      ensures if record.Some? then s.clients[c] == Greeting(record.value, true) else s.clients[c] == Failed && s.lost
    {
      Wait(c, launched, patience);
      record := LiveRecord(s);
      if record.None? && Alive(s, launched) {
        Others(c);
        GivingUpIsHarmless(s, c);
        s := Apply(s, GiveUp(c));
      } else {
        Step(Poll(c));
        assert ClientInv(s, c);
      }
    }

    /** The polling itself. */
    method Wait(c: Client, launched: Pid, patience: nat)
      requires Inv(s) && c in s.clients && s.clients[c] == Polling(launched)
      modifies this
      ensures Inv(s) && c in s.clients && s.clients[c] == Polling(launched) && (old(s.lost) ==> s.lost)
    {
      var left := patience;
      Others(c);
      while LiveRecord(s).None? && Alive(s, launched) && left > 0
        invariant Inv(s) && c in s.clients && s.clients[c] == Polling(launched) && (old(s.lost) ==> s.lost)
      {
        Others(c);
        left := left - 1;
      }
    }

    /** `_connect`. A client that returns a process id is connected to the host of that id, which
        serves and is the one the registry names, and left the spawn lock free; one that fails does
        so only because it could not get the lock in time, or because some host was lost or given up
        on; and what holds between clients and hosts holds on, unless this client itself gave up on
        a host that was still starting. */
    method Connect(c: Client, patience: nat, token: nat) returns (hostPid: Option<Pid>)
      requires Inv(s) && c in s.clients && s.clients[c] == Begin
      modifies this
      ensures c in s.clients && !HasLock(s.clients[c])
      ensures Inv(s) || (hostPid.None? && Orphaned(c))
      ensures hostPid.Some? ==>
                && s.clients[c] == Connected(hostPid.value)
                && hostPid.value in s.hosts && s.hosts[hostPid.value].phase.Serving?
                && s.record == Some(Record(hostPid.value, s.hosts[hostPid.value].token))
      ensures hostPid.None? ==> s.clients[c].NeedHost? || (s.clients[c] == Failed && s.lost)
    {
      Others(c);
      var record := LiveRecord(s);
      Step(Look(c));
      if record.Some? {
        var answered := Handshake(c, record.value);
        if answered {
          assert HostInv(s, record.value.pid);
          return Some(record.value.pid);
        }
      }
      record := SpawnHost(c, record, patience, token);
      if record.None? {
        return None;
      }
      var answered := Handshake(c, record.value);
      assert ClientInv(s, c) && (answered ==> HostInv(s, record.value.pid));
      hostPid := if answered then Some(record.value.pid) else None;
    }
  }
}
