/** The readiness records of a runtime directory (hornlab_beat_bem/provision.py): one file per
    backend, which is the authority, and the legacy `state.json`, which mirrors the newest
    write and which a directory from before the split has instead. Together they have to be a
    plain map from backend to record, whatever the directory was and wherever a writer dies. */
module StateStore {
  import opened Prelude

  type Backend = string

  /** `BEAT_BACKENDS`, in its order. */
  const BACKENDS: seq<Backend> := ["cpu", "cuda", "rocm", "metal"]

  const STATE_SCHEMA_VERSION := 2

  /** A record's `backend` field is None where the key is missing or is no string; `schema` is 1
      in a record that predates the split. `body` stands for everything else. */
  datatype Record = Record(backend: Option<Backend>, schema: int, updatedAt: int, status: string, body: int)

  /** What is at a path: nothing, something that is not a JSON object, or a record. */
  datatype File = Absent | Corrupt | Valid(record: Record)

  datatype Disk = Disk(own: map<Backend, File>, legacy: File)

  /** One atomic replace. */
  datatype Replace = Own(backend: Backend, record: Record) | Mirror(record: Record)

  function OwnFile(d: Disk, b: Backend): File {
    if b in d.own then d.own[b] else Absent
  }

  /** `_read_json`. */
  function ReadJson(f: File): Option<Record> {
    if f.Valid? then Some(f.record) else None
  }

  /** `read_state(backend=b)`. */
  function ReadState(d: Disk, b: Backend): Option<Record> {
    if OwnFile(d, b).Valid? then Some(OwnFile(d, b).record)
    else if d.legacy.Valid? && d.legacy.record.backend == Some(b) then Some(d.legacy.record)
    else None
  }

  function After(d: Disk, r: Replace): Disk {
    match r
    case Own(b, record) => d.(own := d.own[b := Valid(record)])
    case Mirror(record) => d.(legacy := Valid(record))
  }

  function AfterAll(d: Disk, rs: seq<Replace>): Disk
    decreases |rs|
  {
    if rs == [] then d else After(AfterAll(d, rs[..|rs| - 1]), rs[|rs| - 1])
  }

  /** The replace `_preserve_legacy_record` makes, if any. */
  function Migration(d: Disk): seq<Replace> {
    if d.legacy.Valid? && d.legacy.record.backend.Some? && d.legacy.record.backend.value in BACKENDS
       && OwnFile(d, d.legacy.record.backend.value).Absent?
    then [Own(d.legacy.record.backend.value, d.legacy.record)] else []
  }

  function Stamped(r: Record, now: int): Record {
    r.(schema := STATE_SCHEMA_VERSION, updatedAt := now)
  }

  /** The replaces of one `_write_state`, in order. */
  function Plan(d: Disk, r: Record, now: int): seq<Replace> {
    Migration(d)
    + (if r.backend.Some? && r.backend.value != "" then [Own(r.backend.value, Stamped(r, now))] else [])
    + [Mirror(Stamped(r, now))]
  }

  function Least(a: nat, b: nat): nat {
    if a < b then a else b
  }

  /** A `_write_state` by a process that dies after `budget` replaces, if it has that many. */
  function Written(d: Disk, r: Record, now: int, budget: nat): Disk {
    AfterAll(d, Plan(d, r, now)[..Least(budget, |Plan(d, r, now)|)])
  }

  /** The write got as far as the backend's own file. */
  predicate Reached(d: Disk, r: Record, budget: nat) {
    budget > |Migration(d)|
  }

  lemma OneMore(d: Disk, rs: seq<Replace>, k: nat)
    requires k < |rs|
    ensures AfterAll(d, rs[..k + 1]) == After(AfterAll(d, rs[..k]), rs[k])
  {
    assert rs[..k + 1][..k] == rs[..k];
  }

  lemma PlanParts(d: Disk, r: Record, now: int)
    ensures var plan, m := Plan(d, r, now), |Migration(d)|;
            && (forall k :: 0 <= k <= m ==> plan[..k] == Migration(d)[..k])
            && (if r.backend.Some? && r.backend.value != ""
                then |plan| == m + 2 && plan[m] == Own(r.backend.value, Stamped(r, now))
                    && plan[m + 1] == Mirror(Stamped(r, now))
                else |plan| == m + 1 && plan[m] == Mirror(Stamped(r, now)))
            && plan[..|plan|] == plan && Migration(d)[..m] == Migration(d)
  {
  }

  class RuntimeDir {
    var own: map<Backend, File>
    var legacy: File

    ghost function View(): Disk
      reads this
    {
      Disk(own, legacy)
    }

    constructor (d: Disk)
      ensures View() == d
    {
      own, legacy := d.own, d.legacy;
    }

    method ReadJsonAt(b: Backend) returns (r: Option<Record>)
      ensures r == ReadJson(OwnFile(View(), b))
    {
      if b in own && own[b].Valid? {
        return Some(own[b].record);
      }
      r := None;
    }

    /** `_preserve_legacy_record`; false if the process died in front of its replace. */
    method PreserveLegacyRecord(budget: nat) returns (left: int)
      modifies this`own
      ensures View() == AfterAll(old(View()), Migration(old(View()))[..Least(budget, |Migration(old(View()))|)])
      ensures left == budget - |Migration(old(View()))|
    {
      left := budget;
      if !legacy.Valid? {
        return;
      }
      var backend := legacy.record.backend;
      if backend.None? || backend.value !in BACKENDS {
        return;
      }
      if backend.value in own && own[backend.value] != Absent {
        return;
      }
      left := budget - 1;
      if left >= 0 {
        own := own[backend.value := Valid(legacy.record)];
      }
    }

    /** `_write_state`, by a process with `budget` replaces left to live. */
    method WriteState(state: Record, now: int, budget: nat) returns (finished: bool)
      modifies this
      ensures View() == Written(old(View()), state, now, budget)
      ensures finished <==> budget >= |Plan(old(View()), state, now)|
      ensures finished ==>
                var record := Record(state.backend, 2, now, state.status, state.body);
                && legacy == Valid(record)
                && (state.backend.Some? && state.backend.value != "" ==>
                      state.backend.value in own && own[state.backend.value] == Valid(record))
    {
      ghost var d, plan := View(), Plan(View(), state, now);
      ghost var m := |Migration(d)|;
      PlanParts(d, state, now);
      var left := PreserveLegacyRecord(budget);
      if left < 0 {
        return false;
      }
      var stamped := state.(schema := STATE_SCHEMA_VERSION, updatedAt := now);
      if state.backend.Some? && state.backend.value != "" {
        if left == 0 {
          return false;
        }
        own := own[state.backend.value := Valid(stamped)];
        OneMore(d, plan, m);
        left := left - 1;
        m := m + 1;
      }
      assert View() == AfterAll(d, plan[..m]);
      if left == 0 {
        return false;
      }
      legacy := Valid(stamped);
      OneMore(d, plan, m);
      finished := true;
    }

    /** `read_backend_states`. */
    method ReadBackendStates() returns (states: map<Backend, Record>)
      ensures forall b :: b in BACKENDS ==>
                (b in states <==> ReadState(View(), b).Some?)
                    && (b in states ==> states[b] == ReadState(View(), b).value)
      ensures forall b :: b in states && b !in BACKENDS ==>
          legacy.Valid? && legacy.record.backend == Some(b) && states[b] == legacy.record
    {
      states := map[];
      for k := 0 to |BACKENDS|
        invariant forall b :: b in states <==> b in BACKENDS[..k] && OwnFile(View(), b).Valid?
        invariant forall b :: b in states ==> states[b] == OwnFile(View(), b).record
      {
        var recorded := ReadJsonAt(BACKENDS[k]);
        if recorded.Some? {
          states := states[BACKENDS[k] := recorded.value];
        }
      }
      assert BACKENDS[..|BACKENDS|] == BACKENDS;
      if legacy.Valid? && legacy.record.backend.Some? && legacy.record.backend.value !in states {
        states := states[legacy.record.backend.value := legacy.record];
      }
    }
  }

  /* ---------- The store is a map ---------- */

  /** The one way a record can be lost: the only copy is the legacy file, and the migration will
      not save it, because what is at the backend's own path exists without being readable, or
      because the backend is not one this package knows. */
  predicate Exposed(d: Disk, b: Backend) {
    && d.legacy.Valid? && d.legacy.record.backend == Some(b)
    && (OwnFile(d, b).Corrupt? || (OwnFile(d, b).Absent? && b !in BACKENDS))
  }

  predicate WellFormed(d: Disk) {
    forall b :: b in BACKENDS ==> !Exposed(d, b)
  }

  lemma AfterTwo(d: Disk, x: Replace, y: Replace)
    ensures AfterAll(d, [x]) == After(d, x)
    ensures AfterAll(d, [x, y]) == After(After(d, x), y)
  {
  }

  /** The disk a write leaves, by how far it got. */
  lemma WriteStages(d: Disk, r: Record, now: int, budget: nat)
    requires r.backend.Some? && r.backend.value != ""
    ensures var m := if Migration(d) == [] then d else After(d, Migration(d)[0]);
            var own := After(m, Own(r.backend.value, Stamped(r, now)));
            Written(d, r, now, budget)
              == if budget == 0 then d
                 else if budget == |Migration(d)| then m
                 else if budget == |Migration(d)| + 1 then own
                 else After(own, Mirror(Stamped(r, now)))
  {
    var own, mirror := Own(r.backend.value, Stamped(r, now)), Mirror(Stamped(r, now));
    var plan := Plan(d, r, now);
    if Migration(d) == [] {
      assert plan == [own, mirror];
      AfterTwo(d, own, mirror);
      assert plan[..0] == [] && plan[..1] == [own] && plan[..2] == plan;
    } else {
      var m := Migration(d)[0];
      assert plan == [m, own, mirror];
      AfterTwo(d, m, own);
      assert plan[..0] == [] && plan[..1] == [m] && plan[..2] == [m, own] && plan[..3] == plan;
    }
  }

  /** A write for one backend, wherever it is cut, is atomic for that backend and invisible to
      every other that is not exposed: the view becomes exactly the old one, or the old one
      with the new record in it. */
  lemma WriteIsAtomic(d: Disk, r: Record, now: int, budget: nat, b: Backend)
    requires r.backend.Some? && r.backend.value != "" && !Exposed(d, b)
    ensures ReadState(Written(d, r, now, budget), b)
            == if Some(b) == r.backend && Reached(d, r, budget) then Some(Stamped(r, now)) else ReadState(d, b)
  {
    WriteStages(d, r, now, budget);
  }

  /** ... and being exposed is exactly what it takes to lose another backend's record. */
  lemma LostIffExposed(d: Disk, r: Record, now: int, budget: nat, b: Backend)
    requires r.backend.Some? && r.backend.value != "" && Some(b) != r.backend && budget >= |Plan(d, r, now)|
    ensures ReadState(Written(d, r, now, budget), b) == ReadState(d, b) <==> !Exposed(d, b)
  {
    WriteStages(d, r, now, budget);
  }

  /** A directory stays well formed through any write of a known backend's record, cut or not. */
  lemma WriteKeepsWellFormed(d: Disk, r: Record, now: int, budget: nat)
    requires WellFormed(d) && r.backend.Some? && r.backend.value != "" && r.backend.value in BACKENDS
    ensures WellFormed(Written(d, r, now, budget))
  {
    WriteStages(d, r, now, budget);
    assert forall b :: b in BACKENDS ==> !Exposed(d, b);
  }

  /** Some process's attempt to record something, and how long it lived. */
  datatype Write = Write(record: Record, now: int, budget: nat)

  function Disks(d: Disk, ws: seq<Write>): Disk {
    if ws == [] then d
    else
      var w := ws[|ws| - 1];
      Written(Disks(d, ws[..|ws| - 1]), w.record, w.now, w.budget)
  }

  /** The plain map: backend `b`'s record after a series of writes, each of which took effect or
      did not. */
  function Latest(d: Disk, ws: seq<Write>, b: Backend): Option<Record> {
    if ws == [] then ReadState(d, b)
    else
      var w := ws[|ws| - 1];
      if w.record.backend == Some(b) && Reached(Disks(d, ws[..|ws| - 1]), w.record, w.budget)
      then Some(Stamped(w.record, w.now)) else Latest(d, ws[..|ws| - 1], b)
  }

  predicate KnownBackends(ws: seq<Write>) {
    forall w :: w in ws ==> w.record.backend.Some? && w.record.backend.value != "" && w.record.backend.value in BACKENDS
  }

  /** The store refines a map: after any series of serialised writes to a well-formed directory,
      with any of them cut short anywhere, each backend reads as the last write of it that took
      effect, or as it was. */
  lemma {:induction false} StoreRefinesMap(d: Disk, ws: seq<Write>, b: Backend)
    requires WellFormed(d) && KnownBackends(ws) && b in BACKENDS
    ensures ReadState(Disks(d, ws), b) == Latest(d, ws, b)
    ensures WellFormed(Disks(d, ws))
  {
    if ws != [] {
      var w := ws[|ws| - 1];
      var before := ws[..|ws| - 1];
      assert w in ws;
      StoreRefinesMap(d, before, b);
      WriteIsAtomic(Disks(d, before), w.record, w.now, w.budget, b);
      WriteKeepsWellFormed(Disks(d, before), w.record, w.now, w.budget);
    }
  }

  /** When every writer finishes, `Latest` is what its name says. */
  lemma {:induction false} LatestIsLast(d: Disk, ws: seq<Write>, b: Backend, k: nat)
    requires k < |ws| && ws[k].record.backend == Some(b) && ws[k].budget >= 3
    requires forall j :: k < j < |ws| ==> ws[j].record.backend != Some(b)
    ensures Latest(d, ws, b) == Some(Record(Some(b), 2, ws[k].now, ws[k].record.status, ws[k].record.body))
  {
    if k < |ws| - 1 {
      LatestIsLast(d, ws[..|ws| - 1], b, k);
    }
  }

  lemma {:induction false} UntouchedIsInitial(d: Disk, ws: seq<Write>, b: Backend)
    requires forall j :: 0 <= j < |ws| ==> ws[j].record.backend != Some(b)
    ensures Latest(d, ws, b) == ReadState(d, b)
  {
    if ws != [] {
      UntouchedIsInitial(d, ws[..|ws| - 1], b);
    }
  }

  /** A consumer from before the split reads the mirror: after a finished write it is that write,
      so a consumer comparing the backend it names never takes one backend's record for
      another's. */
  lemma MirrorIsNewest(d: Disk, r: Record, now: int, budget: nat)
    requires r.backend.Some? && r.backend.value != ""
    ensures budget >= |Plan(d, r, now)| ==>
              Written(d, r, now, budget).legacy == Valid(Record(r.backend, 2, now, r.status, r.body))
    ensures budget < |Plan(d, r, now)| ==> Written(d, r, now, budget).legacy == d.legacy
  {
    WriteStages(d, r, now, budget);
  }

  /* ---------- Readers without the lock ---------- */

  /** `read_state` takes two reads, of the backend's own file and then of the mirror; a reader
      without the lock may find writes of other backends between them. */
  function TornRead(first: Disk, second: Disk, b: Backend): Option<Record> {
    if OwnFile(first, b).Valid? then Some(OwnFile(first, b).record)
    else if second.legacy.Valid? && second.legacy.record.backend == Some(b) then Some(second.legacy.record)
    else None
  }

  lemma {:induction false} MirrorMovesOn(d: Disk, ws: seq<Write>, b: Backend)
    requires KnownBackends(ws) && forall w :: w in ws ==> w.record.backend != Some(b)
    ensures Disks(d, ws).legacy == d.legacy
            || (Disks(d, ws).legacy.Valid? && Disks(d, ws).legacy.record.backend != Some(b))
  {
    if ws != [] {
      var w := ws[|ws| - 1];
      assert w in ws;
      MirrorMovesOn(d, ws[..|ws| - 1], b);
      WriteStages(Disks(d, ws[..|ws| - 1]), w.record, w.now, w.budget);
    }
  }

  /** Such a reader is never told anything but the backend's record. It can only miss it, and
      does so exactly if the record was still only in the mirror and the mirror has moved on. */
  lemma TornReadMissesOnly(d: Disk, ws: seq<Write>, b: Backend)
    requires KnownBackends(ws) && forall w :: w in ws ==> w.record.backend != Some(b)
    ensures TornRead(d, Disks(d, ws), b) in {ReadState(d, b), None}
    ensures TornRead(d, Disks(d, ws), b) == ReadState(d, b)
            <==> OwnFile(d, b).Valid? || ReadState(d, b).None? || Disks(d, ws).legacy == d.legacy
  {
    MirrorMovesOn(d, ws, b);
  }

  /* ---------- A writer without the lock ---------- */

  /** Others' writes, each whole, between the steps of a writer that has no lock: after its look
      for a record to migrate, after its migration, and after the write of its own file. */
  datatype Between = Between(looked: seq<Write>, migrated: seq<Write>, written: seq<Write>)

  predicate Known(m: Between) {
    KnownBackends(m.looked) && KnownBackends(m.migrated) && KnownBackends(m.written)
  }

  function Migrated(d: Disk, e: Disk): Disk {
    if Migration(d) == [] then e else After(e, Migration(d)[0])
  }

  /** The disk when its own file is to be written ... */
  function BeforeOwn(d: Disk, m: Between): Disk {
    Disks(Migrated(d, Disks(d, m.looked)), m.migrated)
  }

  /** ... and in the end: the migration planned on `d` is made on what `d` has become. */
  function Unlocked(d: Disk, r: Record, now: int, m: Between): Disk
    requires r.backend.Some?
  {
    var own := After(BeforeOwn(d, m), Own(r.backend.value, Stamped(r, now)));
    After(Disks(own, m.written), Mirror(Stamped(r, now)))
  }

  /** Its migration is of backend `b`. */
  predicate Migrates(d: Disk, b: Backend) {
    Migration(d) != [] && Migration(d)[0].backend == b
  }

  /** What the mirror names has a file of its own, but for what it named on `d` already. */
  predicate Filed(d: Disk, e: Disk, b: Backend) {
    e.legacy.Valid? && e.legacy.record.backend == Some(b) ==>
      OwnFile(e, b).Valid? || (OwnFile(e, b).Absent? && e.legacy == d.legacy)
  }

  lemma {:induction false} WritesFile(d: Disk, e: Disk, ws: seq<Write>, b: Backend)
    requires KnownBackends(ws) && Filed(d, e, b) && b in BACKENDS
    ensures Filed(d, Disks(e, ws), b) && (OwnFile(e, b).Valid? ==> OwnFile(Disks(e, ws), b).Valid?)
  {
    if ws != [] {
      var w := ws[|ws| - 1];
      assert w in ws;
      WritesFile(d, e, ws[..|ws| - 1], b);
      WriteStages(Disks(e, ws[..|ws| - 1]), w.record, w.now, w.budget);
    }
  }

  lemma MigratedKeeps(d: Disk, e: Disk, b: Backend)
    requires WellFormed(e) && Filed(d, e, b) && b in BACKENDS
    ensures WellFormed(Migrated(d, e)) && Filed(d, Migrated(d, e), b)
    ensures Migrates(d, b) ==> OwnFile(Migrated(d, e), b).Valid?
    ensures OwnFile(e, b).Valid? ==> OwnFile(Migrated(d, e), b).Valid?
    ensures ReadState(Migrated(d, e), b) == if Migrates(d, b) then ReadState(d, b) else ReadState(e, b)
  {
    assert forall c :: c in BACKENDS ==> !Exposed(e, c);
  }

  lemma OwnKeeps(d: Disk, e: Disk, r: Record, b: Backend)
    requires WellFormed(e) && Filed(d, e, b) && r.backend.Some? && r.backend != Some(b)
    ensures var e' := After(e, Own(r.backend.value, r));
            WellFormed(e') && Filed(d, e', b) && OwnFile(e', b) == OwnFile(e, b) && ReadState(e', b) == ReadState(e, b)
  {
    assert forall c :: c in BACKENDS ==> !Exposed(e, c);
  }

  lemma OwnStays(d: Disk, m: Between, r: Record, now: int, b: Backend)
    requires WellFormed(d) && Known(m) && r.backend.Some? && r.backend != Some(b) && b in BACKENDS
    ensures var own := After(BeforeOwn(d, m), Own(r.backend.value, Stamped(r, now)));
            && WellFormed(own) && ReadState(own, b) == ReadState(BeforeOwn(d, m), b)
            && Filed(d, Disks(own, m.written), b)
            && (OwnFile(d, b).Valid? || Migrates(d, b) ==> OwnFile(Disks(own, m.written), b).Valid?)
    ensures ReadState(BeforeOwn(d, m), b) == Latest(Migrated(d, Disks(d, m.looked)), m.migrated, b)
    ensures ReadState(Migrated(d, Disks(d, m.looked)), b)
            == if Migrates(d, b) then ReadState(d, b) else Latest(d, m.looked, b)
  {
    var looked := Disks(d, m.looked);
    assert !Exposed(d, b);
    WritesFile(d, d, m.looked, b);
    StoreRefinesMap(d, m.looked, b);
    MigratedKeeps(d, looked, b);
    var migrated := Migrated(d, looked);
    WritesFile(d, migrated, m.migrated, b);
    StoreRefinesMap(migrated, m.migrated, b);
    OwnKeeps(d, BeforeOwn(d, m), Stamped(r, now), b);
    var own := After(BeforeOwn(d, m), Own(r.backend.value, Stamped(r, now)));
    WritesFile(d, own, m.written, b);
  }

  /** What such a writer leaves of another backend's record: the last of the others' writes to it,
      but those that came between its look and its migration are undone if the migration is of that
      backend. */
  lemma UnlockedWrite(d: Disk, r: Record, now: int, m: Between, b: Backend)
    requires WellFormed(d) && Known(m) && r.backend.Some? && r.backend != Some(b) && b in BACKENDS
    ensures ReadState(Unlocked(d, r, now, m), b)
            == Latest(After(BeforeOwn(d, m), Own(r.backend.value, Stamped(r, now))), m.written, b)
    ensures ReadState(After(BeforeOwn(d, m), Own(r.backend.value, Stamped(r, now))), b)
            == Latest(Migrated(d, Disks(d, m.looked)), m.migrated, b)
    ensures ReadState(Migrated(d, Disks(d, m.looked)), b)
            == if Migrates(d, b) then ReadState(d, b) else Latest(d, m.looked, b)
  {
    OwnStays(d, m, r, now, b);
    var own := After(BeforeOwn(d, m), Own(r.backend.value, Stamped(r, now)));
    StoreRefinesMap(own, m.written, b);
    assert !Exposed(d, b);
  }

  /** So it takes another backend's newest record away exactly if it had looked while that backend's
      only record was the legacy file, the record was written meanwhile, and not again after the
      migration. */
  lemma StaleMigration(d: Disk, r: Record, now: int, m: Between, b: Backend)
    requires WellFormed(d) && Known(m) && r.backend.Some? && r.backend != Some(b) && b in BACKENDS
    requires forall w :: w in m.migrated + m.written ==> w.record.backend != Some(b)
    ensures ReadState(Unlocked(d, r, now, m), b) == Latest(d, m.looked, b)
            <==> !Migrates(d, b) || Latest(d, m.looked, b) == ReadState(d, b)
  {
    UnlockedWrite(d, r, now, m, b);
    forall w | w in m.migrated || w in m.written ensures w.record.backend != Some(b) {
      assert w in m.migrated + m.written;
    }
    UntouchedIsInitial(After(BeforeOwn(d, m), Own(r.backend.value, Stamped(r, now))), m.written, b);
    UntouchedIsInitial(Migrated(d, Disks(d, m.looked)), m.migrated, b);
  }

  /** It happens: a directory from before the split, whose cpu record says "failed"; a run for cpu
      records "ready" while a run for cuda, which could not have the lock, is between its look and
      its migration. */
  lemma ReadyIsUndone() returns (d: Disk, r: Record, m: Between)
    ensures WellFormed(d) && Known(m) && r.backend == Some("cuda")
    ensures var newest, last := ReadState(Disks(d, m.looked), "cpu"), ReadState(Unlocked(d, r, 0, m), "cpu");
            newest.Some? && newest.value.status == "ready" && last.Some? && last.value.status == "failed"
  {
    var failed := Record(Some("cpu"), 1, 0, "failed", 0);
    var ready := Write(Record(Some("cpu"), 1, 0, "ready", 0), 0, 3);
    d, r, m := Disk(map[], Valid(failed)), Record(Some("cuda"), 1, 0, "failed", 0), Between([ready], [], []);
    assert BACKENDS[0] == "cpu";
    assert KnownBackends(m.looked) && KnownBackends(m.migrated) && KnownBackends(m.written);
    StoreRefinesMap(d, m.looked, "cpu");
    LatestIsLast(d, m.looked, "cpu", 0);
    StaleMigration(d, r, 0, m, "cpu");
    UnlockedWrite(d, r, 0, m, "cpu");
  }
}
