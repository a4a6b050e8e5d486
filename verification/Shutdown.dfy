/** `shutdown_workers` (hornlab_beat_bem/worker.py): letting go of every worker of a process. */
module Shutdown {
  import opened Prelude

  datatype Worker = Hosted(name: nat) | Child(name: nat)

  datatype Act = Refuse(name: nat) | Detach(name: nat) | ShutDown(name: nat) | Terminate(name: nat)

  /** How one worker is stopped. A child process has nothing to detach from. */
  function Stop(w: Worker, detach: bool): Act {
    match w
    case Hosted(n) => if detach then Detach(n) else ShutDown(n)
    case Child(n) => Terminate(n)
  }

  /** The workers whose stop raises, in order of stopping. */
  function Failing(workers: seq<Worker>, broken: set<nat>): seq<nat> {
    if workers == [] then []
    else
      var last := workers[|workers| - 1];
      Failing(workers[..|workers| - 1], broken) + if last.name in broken then [last.name] else []
  }

  class Registry {
    var workers: seq<Worker>

    /** Every slot is closed before any worker is stopped, every worker is stopped whichever of
        the others fail, the first failure is raised afterwards, and the registry is empty. An
        exception out of closing a slot is swallowed, so `deaf` has no effect. */
    method ShutdownWorkers(detach: bool, deaf: set<nat>, broken: set<nat>) returns (trace: seq<Act>, r: Outcome<nat>)
      modifies this
      ensures workers == []
      ensures var dropped := old(workers);
              && |trace| == 2 * |dropped|
              && (forall k :: 0 <= k < |dropped| ==> trace[k] == Refuse(dropped[k].name))
              && (forall k :: 0 <= k < |dropped| ==> trace[|dropped| + k] == Stop(dropped[k], detach))
              && (forall k :: 0 <= k < |dropped| ==>
                    match dropped[k]
                    case Hosted(n) => trace[|dropped| + k] == (if detach then Detach(n) else ShutDown(n))
                    case Child(n) => trace[|dropped| + k] == Terminate(n))
              && r == (if Failing(dropped, broken) == [] then Done else Raised(Failing(dropped, broken)[0]))
    {
      var dropped := workers;
      workers := [];
      trace, r := [], Done;
      for k := 0 to |dropped|
        invariant |trace| == k && forall j :: 0 <= j < k ==> trace[j] == Refuse(dropped[j].name)
      {
        trace := trace + [Refuse(dropped[k].name)];
      }
      for k := 0 to |dropped|
        invariant |trace| == |dropped| + k
        invariant forall j :: 0 <= j < |dropped| ==> trace[j] == Refuse(dropped[j].name)
        invariant forall j :: 0 <= j < k ==> trace[|dropped| + j] == Stop(dropped[j], detach)
        invariant r == if Failing(dropped[..k], broken) == [] then Done else Raised(Failing(dropped[..k], broken)[0])
      {
        assert dropped[..k + 1][..k] == dropped[..k];
        trace := trace + [Stop(dropped[k], detach)];
        if dropped[k].name in broken && r.Done? {
          r := Raised(dropped[k].name);
        }
      }
      assert dropped[..|dropped|] == dropped;
    }
  }

  /** No failure goes unreported, and none is invented. */
  lemma {:induction false} FailingIffBroken(workers: seq<Worker>, broken: set<nat>)
    ensures Failing(workers, broken) == [] <==> forall w :: w in workers ==> w.name !in broken
    ensures forall n :: n in Failing(workers, broken) <==> n in broken && exists w :: w in workers && w.name == n
  {
    if workers != [] {
      var last := workers[|workers| - 1];
      FailingIffBroken(workers[..|workers| - 1], broken);
      assert workers == workers[..|workers| - 1] + [last];
      forall n | n in Failing(workers, broken)
        ensures n in broken && exists w :: w in workers && w.name == n
      {
        if n == last.name {
          assert last in workers;
        }
      }
    }
  }
}
