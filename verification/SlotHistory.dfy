/** What the ownership of a slot looks like from outside, as a history of events, and what
    every such history therefore satisfies. `SlotMachine` shows that each interleaving of the
    real critical sections produces only histories that replay here. */
module SlotHistory {
  import opened Prelude
  import opened SubmissionSlots

  datatype Event =
    | Admit(serial: Serial)
    | Free(serial: Serial)
    | Shut
    | RetireBegin(serial: Serial)
    | RetireEnd(serial: Serial)

  /** The whole of the abstract slot: who owns it, what was issued last, and which
      retirement's action is running. */
  datatype Abs = Abs(holder: Option<Serial>, nextSerial: Serial, closed: bool, retiring: Option<Serial>)

  const FRESH := Abs(None, 1, false, None)

  function After(a: Abs, e: Event): Option<Abs> {
    match e
    case Admit(k) =>
      if a.holder.None? && !a.closed && a.retiring.None? && k == a.nextSerial
      then Some(a.(holder := Some(k), nextSerial := k + 1)) else None
    case Free(k) =>
      if a.holder == Some(k) && a.retiring.None? then Some(a.(holder := None)) else None
    case Shut =>
      if a.retiring.None? then Some(a.(closed := true)) else None
    case RetireBegin(k) =>
      if a.holder == Some(k) && a.retiring.None? then Some(a.(retiring := Some(k))) else None
    case RetireEnd(k) =>
      if a.retiring == Some(k) then Some(a.(retiring := None)) else None
  }

  /** The abstract slot after a history, or None if the history is not one it can have. */
  function Replay(h: seq<Event>): Option<Abs> {
    if h == [] then Some(FRESH)
    else
      var before := Replay(h[..|h| - 1]);
      if before.None? then None else After(before.value, h[|h| - 1])
  }

  lemma ReplayAppend(h: seq<Event>, e: Event)
    ensures Replay(h + [e]) == if Replay(h).None? then None else After(Replay(h).value, e)
  {
  }

  /** How many releases a history records. */
  function Frees(h: seq<Event>): nat {
    if h == [] then 0 else Frees(h[..|h| - 1]) + if h[|h| - 1].Free? then 1 else 0
  }

  lemma FreesAppend(h: seq<Event>, e: Event)
    ensures Frees(h + [e]) == Frees(h) + if e.Free? then 1 else 0
  {
  }

  lemma {:induction false} ReplayPrefix(h: seq<Event>, n: nat)
    requires n <= |h| && Replay(h).Some?
    ensures Replay(h[..n]).Some?
    decreases |h|
  {
    if n == |h| {
      assert h[..n] == h;
    } else {
      ReplayPrefix(h[..|h| - 1], n);
      assert h[..|h| - 1][..n] == h[..n];
    }
  }

  /** The state between the two events around position `n`. */
  lemma {:induction false} ReplayStep(h: seq<Event>, n: nat)
    requires n < |h| && Replay(h).Some?
    ensures Replay(h[..n]).Some? && Replay(h[..n + 1]) == After(Replay(h[..n]).value, h[n])
    ensures Replay(h[..n + 1]).Some?
  {
    ReplayPrefix(h, n);
    ReplayPrefix(h, n + 1);
    assert h[..n + 1][..n] == h[..n];
  }

  /** What one abstract slot always satisfies, and what two of them satisfy in order of time. */
  predicate Sound(a: Abs) {
    && (a.holder.Some? ==> a.holder.value < a.nextSerial)
    && (a.retiring.Some? ==> a.retiring == a.holder)
  }

  predicate Evolves(a: Abs, b: Abs) {
    && a.nextSerial <= b.nextSerial
    && (a.closed ==> b.closed)
    && (b.holder.Some? && b.holder.value < a.nextSerial ==> b.holder == a.holder)
  }

  lemma AfterKeeps(a: Abs, e: Event)
    requires Sound(a) && After(a, e).Some?
    ensures Sound(After(a, e).value) && Evolves(a, After(a, e).value)
  {
  }

  lemma {:induction false} StateAt(h: seq<Event>, i: nat)
    requires i <= |h| && Replay(h).Some?
    ensures Replay(h[..i]).Some? && Sound(Replay(h[..i]).value)
  {
    ReplayPrefix(h, i);
    if i == 0 {
      assert h[..i] == [];
    } else {
      StateAt(h, i - 1);
      ReplayStep(h, i - 1);
      AfterKeeps(Replay(h[..i - 1]).value, h[i - 1]);
    }
  }

  /** Serials issued so far lie below the counter, the counter never goes back, a closed slot
      stays closed, and an old serial is held later only if it was held all along. */
  lemma {:induction false} StateBetween(h: seq<Event>, i: nat, j: nat)
    requires i <= j <= |h| && Replay(h).Some?
    ensures Replay(h[..i]).Some? && Replay(h[..j]).Some?
    ensures Sound(Replay(h[..i]).value) && Sound(Replay(h[..j]).value)
    ensures Evolves(Replay(h[..i]).value, Replay(h[..j]).value)
    decreases j
  {
    StateAt(h, i);
    if i < j {
      StateBetween(h, i, j - 1);
      ReplayStep(h, j - 1);
      AfterKeeps(Replay(h[..j - 1]).value, h[j - 1]);
    }
  }

  /** Ownership never changes hands without a release: between two admissions the earlier
      submission was freed, and the later serial is larger. */
  lemma {:induction false} AdmissionsAreSeparated(h: seq<Event>, i: nat, j: nat)
    requires Replay(h).Some? && i < j < |h| && h[i].Admit? && h[j].Admit?
    ensures h[i].serial < h[j].serial
    ensures exists k :: i < k < j && h[k] == Free(h[i].serial)
  {
    ReplayStep(h, i);
    ReplayStep(h, j);
    StateBetween(h, i + 1, j);
    var _ := FreedBetween(h, i + 1, j, h[i].serial);
  }

  /** If a serial is held at one point and not at a later one, it was freed in between. */
  lemma {:induction false} FreedBetween(h: seq<Event>, i: nat, j: nat, k: Serial) returns (at: nat)
    requires Replay(h).Some? && i <= j <= |h|
    requires Replay(h[..i]).Some? && Replay(h[..i]).value.holder == Some(k)
    requires Replay(h[..j]).Some? && Replay(h[..j]).value.holder != Some(k)
    ensures i <= at < j && h[at] == Free(k)
    decreases j - i
  {
    ReplayStep(h, i);
    if h[i] == Free(k) {
      at := i;
    } else {
      at := FreedBetween(h, i + 1, j, k);
    }
  }

  /** A submission is freed at most once, only after it was admitted, and is never the holder
      again from then on. */
  lemma {:induction false} FreedIsFinal(h: seq<Event>, i: nat, j: nat)
    requires Replay(h).Some? && i < j <= |h| && h[i].Free?
    ensures Replay(h[..j]).Some? && Replay(h[..j]).value.holder != Some(h[i].serial)
    ensures j < |h| ==> h[j] != Free(h[i].serial) && h[j] != Admit(h[i].serial) && h[j] != RetireBegin(h[i].serial)
  {
    ReplayStep(h, i);
    StateBetween(h, i, i);
    StateBetween(h, i + 1, j);
    if j < |h| {
      ReplayStep(h, j);
    }
  }

  lemma {:induction false} FreedWasAdmitted(h: seq<Event>, j: nat)
    requires Replay(h).Some? && j < |h| && h[j].Free?
    ensures exists i :: 0 <= i < j && h[i] == Admit(h[j].serial)
  {
    ReplayStep(h, j);
    var _ := HeldWasAdmitted(h, j, h[j].serial);
  }

  lemma {:induction false} HeldWasAdmitted(h: seq<Event>, j: nat, k: Serial) returns (at: nat)
    requires Replay(h).Some? && j <= |h| && Replay(h[..j]).Some? && Replay(h[..j]).value.holder == Some(k)
    ensures at < j && h[at] == Admit(k)
  {
    assert h[..0] == [];
    ReplayStep(h, j - 1);
    if h[j - 1] == Admit(k) {
      at := j - 1;
    } else {
      at := HeldWasAdmitted(h, j - 1, k);
    }
  }

  /** Nothing at all happens to the slot while a retirement's action runs: the event after the
      beginning of a retirement is its own end. */
  lemma {:induction false} RetirementIsExclusive(h: seq<Event>, i: nat)
    requires Replay(h).Some? && i + 1 < |h| && h[i].RetireBegin?
    ensures h[i + 1] == RetireEnd(h[i].serial)
  {
    ReplayStep(h, i);
    ReplayStep(h, i + 1);
  }

  lemma {:induction false} ClosedAdmitsNobody(h: seq<Event>, i: nat, j: nat)
    requires Replay(h).Some? && i < j < |h| && h[i].Shut?
    ensures !h[j].Admit?
  {
    ReplayStep(h, i);
    StateBetween(h, i + 1, j);
    ReplayStep(h, j);
  }
}
