/** The event loop of `solve_frequencies` (hornlab_beat_bem/sweep.py): result events become
    rows of a preallocated result, each checked against the frequency it was asked for and
    rescaled from a velocity to an acceleration drive. Arithmetic is exact; rounding is not
    modelled except as a bound on the echoed frequency. */
module Sweep {
  import opened Prelude

  datatype Complex = Complex(re: real, im: real)

  function Mul(a: Complex, b: Complex): Complex {
    Complex(a.re * b.re - a.im * b.im, a.re * b.im + a.im * b.re)
  }

  type Plane = string

  /** A result event off the wire. No channel name stands for the default one; a non-finite
      impedance component is None; `cuts` holds the first row of each plane's block. */
  datatype Raw = Raw(
    echoed: real,
    channels: nat,
    cuts: map<Plane, seq<Complex>>,
    impedance: seq<seq<Option<real>>>,
    sphere: Option<seq<Complex>>,
    traces: Option<(seq<Complex>, seq<Complex>)>)

  datatype Event = Other | Result(raw: Raw) | Completed | Cancelled | Failed

  /** What the solver said before the first result. */
  datatype Metadata = Metadata(angles: nat)

  datatype Config = Config(
    planes: seq<Plane>,
    spherePoints: Option<nat>,
    surfaceTraces: bool,
    forceFactor: real,
    symmetryFactor: real,
    sourceArea: real,
    twoPi: real)

  datatype Row = Row(
    frequency: real,
    pressure: seq<seq<Complex>>,
    impedance: Option<Complex>,
    sphere: Option<seq<Complex>>,
    traces: Option<(seq<Complex>, seq<Complex>)>)

  datatype Error =
    | BadRequest
    | NoMetadata
    | TooMany
    | OutOfOrder
    | BadShape
    | CallbackRaised
    | SolverFailed
    | EndedEarly
    | Incomplete

  datatype Solved = Ok(rows: seq<Row>, cancelled: bool, requested: nat) | Err(error: Error)

  /* ---------- One result ---------- */

  function Abs(x: real): real {
    if x < 0.0 then -x else x
  }

  function Max(a: real, b: real): real {
    if a < b then b else a
  }

  const REL_TOL := 0.000001
  const ABS_TOL := 0.000001

  /** `math.isclose` with the tolerances of the echo check. */
  predicate IsClose(a: real, b: real) {
    Abs(a - b) <= Max(REL_TOL * Max(Abs(a), Abs(b)), ABS_TOL)
  }

  function Omega(config: Config, frequency: real): real {
    config.twoPi * frequency
  }

  /** 1 / (-i omega). */
  function AccelerationScale(omega: real): Complex
    requires omega != 0.0
  {
    Complex(0.0, 1.0 / omega)
  }

  function ScaleAll(row: seq<Complex>, scale: Complex): (r: seq<Complex>)
    ensures |r| == |row| && forall k :: 0 <= k < |row| ==> r[k] == Mul(row[k], scale)
  {
    seq(|row|, k requires 0 <= k < |row| => Mul(row[k], scale))
  }

  /** The rows asked for are there and as wide as the angle grid. The horizontal and vertical
      cuts are unpacked whether or not they are asked for. */
  predicate CutsFit(raw: Raw, planes: seq<Plane>, angles: nat) {
    && "horizontal" in raw.cuts && "vertical" in raw.cuts
    && ("diagonal" in planes ==> "diagonal" in raw.cuts)
    && planes != []
    && forall p :: p in planes ==> p in raw.cuts && |raw.cuts[p]| == angles
  }

  predicate SphereFits(raw: Raw, config: Config) {
    config.spherePoints.Some? ==> raw.sphere.Some? && |raw.sphere.value| == config.spherePoints.value
  }

  /** The traces are as long as those of the first result, which set the size. */
  predicate TracesFit(raw: Raw, first: Raw, config: Config) {
    config.surfaceTraces ==>
      && raw.traces.Some? && first.traces.Some?
      && |raw.traces.value.0| == |first.traces.value.0| && |raw.traces.value.1| == |first.traces.value.1|
  }

  predicate ShapeFits(raw: Raw, first: Raw, config: Config, angles: nat) {
    raw.channels <= 1 && CutsFit(raw, config.planes, angles) && SphereFits(raw, config) && TracesFit(raw, first, config)
  }

  predicate HasImpedance(raw: Raw) {
    raw.impedance != [] && |raw.impedance[0]| == 2 && raw.impedance[0][0].Some? && raw.impedance[0][1].Some?
  }

  function ImpedanceOf(raw: Raw, config: Config, scale: Complex): Option<Complex>
    requires config.forceFactor * config.symmetryFactor * config.sourceArea != 0.0
  {
    if HasImpedance(raw) then
      var divisor := config.forceFactor * config.symmetryFactor * config.sourceArea;
      var mean := Complex(2.0 * raw.impedance[0][0].value / divisor, -2.0 * raw.impedance[0][1].value / divisor);
      Some(Mul(mean, scale))
    else None
  }

  function Planes(raw: Raw, planes: seq<Plane>, scale: Complex): (r: seq<seq<Complex>>)
    requires forall p :: p in planes ==> p in raw.cuts
    ensures |r| == |planes| && forall k :: 0 <= k < |planes| ==> r[k] == ScaleAll(raw.cuts[planes[k]], scale)
  {
    seq(|planes|, k requires 0 <= k < |planes| => ScaleAll(raw.cuts[planes[k]], scale))
  }

  predicate Usable(config: Config) {
    config.twoPi > 0.0 && config.forceFactor * config.symmetryFactor * config.sourceArea != 0.0
  }

  function RowOf(raw: Raw, frequency: real, config: Config): Row
    requires Usable(config) && frequency > 0.0
    requires forall p :: p in config.planes ==> p in raw.cuts
  {
    Positive(config.twoPi, frequency);
    var scale := AccelerationScale(Omega(config, frequency));
    Row(frequency, Planes(raw, config.planes, scale), ImpedanceOf(raw, config, scale),
        if config.spherePoints.Some? && raw.sphere.Some? then Some(ScaleAll(raw.sphere.value, scale)) else None,
        if config.surfaceTraces && raw.traces.Some?
        then Some((ScaleAll(raw.traces.value.0, scale), ScaleAll(raw.traces.value.1, scale))) else None)
  }

  lemma Positive(a: real, b: real)
    requires a > 0.0 && b > 0.0
    ensures a * b > 0.0
  {
  }

  /** What the rescale means: times -i omega, every field of a row is what the solver sent. */
  lemma RescaleUndone(v: Complex, omega: real)
    requires omega > 0.0
    ensures Mul(Mul(v, AccelerationScale(omega)), Complex(0.0, -omega)) == v
  {
  }

  /** Times -i omega, written out by real and imaginary part, a row is the wire's. */
  predicate Undoes(row: seq<Complex>, wire: seq<Complex>, omega: real) {
    && |row| == |wire|
    && forall k :: 0 <= k < |row| ==> row[k].im * omega == wire[k].re && -row[k].re * omega == wire[k].im
  }

  lemma FieldUndone(wire: seq<Complex>, omega: real)
    requires omega > 0.0
    ensures Undoes(ScaleAll(wire, AccelerationScale(omega)), wire, omega)
  {
    forall k | 0 <= k < |wire|
      ensures var z := ScaleAll(wire, AccelerationScale(omega))[k];
              z.im * omega == wire[k].re && -z.re * omega == wire[k].im
    {
      EntryUndone(wire[k], omega);
    }
  }

  lemma EntryUndone(v: Complex, omega: real)
    requires omega > 0.0
    ensures var z := Mul(v, AccelerationScale(omega)); z.im * omega == v.re && -z.re * omega == v.im
  {
  }

  /** What a row says of the result it was made from, by its fields: times -i (2 pi f) the pressures,
      sphere and traces are the wire's, which are there if they were asked for. The impedance is
      there exactly if the first pair on the wire was a finite one; and then it is the mean, over
      the driven area, of a force F of which the pair is (Re F / 2, -Im F / 2), rescaled alike. */
  predicate Means(row: Row, raw: Raw, frequency: real, config: Config)
    requires forall q :: q in config.planes ==> q in raw.cuts
  {
    && row.frequency == frequency && FieldsMean(row, raw, config, config.twoPi * frequency)
    && ImpedanceMeans(row.impedance, raw.impedance, config, config.twoPi * frequency)
  }

  predicate FieldsMean(row: Row, raw: Raw, config: Config, omega: real)
    requires forall q :: q in config.planes ==> q in raw.cuts
  {
    && |row.pressure| == |config.planes|
    && (forall p :: 0 <= p < |config.planes| ==> Undoes(row.pressure[p], raw.cuts[config.planes[p]], omega))
    && (if config.spherePoints.Some?
        then row.sphere.Some? && raw.sphere.Some? && Undoes(row.sphere.value, raw.sphere.value, omega)
        else row.sphere.None?)
    && (if config.surfaceTraces
        then row.traces.Some? && raw.traces.Some? && Undoes(row.traces.value.0, raw.traces.value.0, omega)
             && Undoes(row.traces.value.1, raw.traces.value.1, omega)
        else row.traces.None?)
  }

  predicate ImpedanceMeans(mean: Option<Complex>, pairs: seq<seq<Option<real>>>, config: Config, omega: real) {
    && (mean.Some? <==> pairs != [] && |pairs[0]| == 2 && pairs[0][0].Some? && pairs[0][1].Some?)
    && (mean.Some? ==>
          var area := config.forceFactor * config.symmetryFactor * config.sourceArea;
          && mean.value.im * omega * area / 2.0 == pairs[0][0].value
          && mean.value.re * omega * area / 2.0 == pairs[0][1].value)
  }

  /** Every row means that. */
  lemma RowMeaning(raw: Raw, frequency: real, config: Config)
    requires Usable(config) && frequency > 0.0 && forall q :: q in config.planes ==> q in raw.cuts
    requires config.spherePoints.Some? ==> raw.sphere.Some?
    requires config.surfaceTraces ==> raw.traces.Some?
    ensures Means(RowOf(raw, frequency, config), raw, frequency, config)
  {
    Positive(config.twoPi, frequency);
    FieldsMeaning(raw, frequency, config, config.twoPi * frequency);
    ImpedanceMeaning(raw, config, config.twoPi * frequency);
  }

  lemma FieldsMeaning(raw: Raw, frequency: real, config: Config, omega: real)
    requires Usable(config) && frequency > 0.0 && forall q :: q in config.planes ==> q in raw.cuts
    requires config.spherePoints.Some? ==> raw.sphere.Some?
    requires config.surfaceTraces ==> raw.traces.Some?
    requires omega > 0.0 && omega == Omega(config, frequency)
    ensures FieldsMean(RowOf(raw, frequency, config), raw, config, omega)
  {
    var row, scale := RowOf(raw, frequency, config), AccelerationScale(omega);
    assert row.pressure == Planes(raw, config.planes, scale);
    PlanesMean(raw, config.planes, omega);
    if config.spherePoints.Some? {
      FieldUndone(raw.sphere.value, omega);
    }
    if config.surfaceTraces {
      FieldUndone(raw.traces.value.0, omega);
      FieldUndone(raw.traces.value.1, omega);
    }
  }

  lemma PlanesMean(raw: Raw, planes: seq<Plane>, omega: real)
    requires omega > 0.0 && forall q :: q in planes ==> q in raw.cuts
    ensures forall p :: 0 <= p < |planes| ==>
              Undoes(Planes(raw, planes, AccelerationScale(omega))[p], raw.cuts[planes[p]], omega)
  {
    forall p | 0 <= p < |planes|
      ensures Undoes(Planes(raw, planes, AccelerationScale(omega))[p], raw.cuts[planes[p]], omega)
    {
      FieldUndone(raw.cuts[planes[p]], omega);
    }
  }

  lemma ImpedanceMeaning(raw: Raw, config: Config, omega: real)
    requires Usable(config) && omega > 0.0
    ensures ImpedanceMeans(ImpedanceOf(raw, config, AccelerationScale(omega)), raw.impedance, config, omega)
  {
    if HasImpedance(raw) {
      var area := config.forceFactor * config.symmetryFactor * config.sourceArea;
      HalfUndone(raw.impedance[0][0].value, raw.impedance[0][1].value, area, omega);
    }
  }

  lemma HalfUndone(a: real, b: real, area: real, omega: real)
    requires area != 0.0 && omega > 0.0
    ensures var z := Mul(Complex(2.0 * a / area, -2.0 * b / area), AccelerationScale(omega));
            z.im * omega * area / 2.0 == a && z.re * omega * area / 2.0 == b
  {
    EntryUndone(Complex(2.0 * a / area, -2.0 * b / area), omega);
  }

  /* ---------- The stream ---------- */

  datatype Ending = ByCompleted | ByCancelled | ByFailure | StreamOver

  /** The results before the stream's first terminal event. */
  function Results(script: seq<Event>): seq<Raw> {
    if script == [] then []
    else match script[0]
      case Other => Results(script[1..])
      case Result(raw) => [raw] + Results(script[1..])
      case _ => []
  }

  function EndingOf(script: seq<Event>): Ending {
    if script == [] then StreamOver
    else match script[0]
      case Completed => ByCompleted
      case Cancelled => ByCancelled
      case Failed => ByFailure
      case _ => EndingOf(script[1..])
  }

  /** How many results are among the first `n` events. */
  function Counted(script: seq<Event>, n: nat): nat
    requires n <= |script|
  {
    if n == 0 then 0 else Counted(script, n - 1) + if script[n - 1].Result? then 1 else 0
  }

  predicate Passing(e: Event) {
    e.Other? || e.Result?
  }

  lemma {:induction false} CountedLater(script: seq<Event>, n: nat)
    requires script != [] && 1 <= n <= |script|
    ensures Counted(script, n) == (if script[0].Result? then 1 else 0) + Counted(script[1..], n - 1)
  {
    if n > 1 {
      CountedLater(script, n - 1);
      assert script[1..][n - 2] == script[n - 1];
    }
  }

  /** By position: the stream ends at the first event that is neither a result nor one the loop skips,
      as that event says, and its results are those before it, in order and each once. */
  lemma {:induction false} StreamMeaning(script: seq<Event>, n: nat, k: nat)
    requires k <= n <= |script| && (forall j :: 0 <= j < n ==> Passing(script[j]))
    requires n < |script| ==> !Passing(script[n])
    ensures EndingOf(script) == if n == |script| then StreamOver else if script[n].Completed? then ByCompleted
                                else if script[n].Cancelled? then ByCancelled else ByFailure
    ensures |Results(script)| == Counted(script, n)
    ensures k < n && script[k].Result? ==>
              Counted(script, k) < |Results(script)| && Results(script)[Counted(script, k)] == script[k].raw
    decreases n
  {
    if n > 0 {
      CountedLater(script, n);
      StreamMeaning(script[1..], n - 1, if k == 0 then 0 else k - 1);
      if k > 0 {
        CountedLater(script, k);
      }
    }
  }

  predicate Requestable(frequencies: seq<real>) {
    && frequencies != []
    && (forall k :: 0 <= k < |frequencies| ==> frequencies[k] > 0.0)
    && forall j, k :: 0 <= j < k < |frequencies| ==> frequencies[j] != frequencies[k]
  }

  /** A result is accepted as the answer to request `k`: there is such a request, the echo and the
      shape fit, and the callback does not raise. */
  predicate Answers(raw: Raw, first: Raw, k: nat, frequencies: seq<real>, config: Config, angles: nat,
                    raising: set<nat>) {
    && k < |frequencies|
    && IsClose(raw.echoed, frequencies[k])
    && ShapeFits(raw, first, config, angles)
    && k !in raising
  }

  /** Result `k` is one the loop takes as the answer to request `k`. */
  predicate Taken(rs: seq<Raw>, k: nat, frequencies: seq<real>, config: Config, angles: nat, raising: set<nat>)
    requires k < |rs|
  {
    Answers(rs[k], rs[0], k, frequencies, config, angles, raising)
  }

  predicate AllTaken(rs: seq<Raw>, n: nat, frequencies: seq<real>, config: Config, angles: nat, raising: set<nat>)
    requires n <= |rs|
  {
    forall k :: 0 <= k < n ==> Taken(rs, k, frequencies, config, angles, raising)
  }

  class Session {
    /** The solver's events, up to the end of the stream. */
    const script: seq<Event>
    const metadata: Option<Metadata>
    var cancelRequested: bool
    var closed: bool

    constructor (script: seq<Event>, metadata: Option<Metadata>)
      ensures this.script == script && this.metadata == metadata && !cancelRequested && !closed
    {
      this.script, this.metadata := script, metadata;
      cancelRequested, closed := false, false;
    }

    method RequestCancel()
      modifies this`cancelRequested
      ensures cancelRequested
    {
      cancelRequested := true;
    }

    method Close()
      modifies this`closed
      ensures closed
    {
      closed := true;
    }

    /** One result, as the answer to request `index`; `first` is the first result. */
    method Take(raw: Raw, first: Raw, index: nat, frequencies: seq<real>, config: Config, angles: nat,
                raising: set<nat>, table: array<Option<Row>>)
      returns (error: Option<Error>)
      requires Requestable(frequencies) && Usable(config) && table.Length == |frequencies|
      modifies table
      ensures error.None? <==> Answers(raw, first, index, frequencies, config, angles, raising)
      ensures error.Some? ==>
                && (error == Some(TooMany) <==> index >= |frequencies|)
                && (error == Some(OutOfOrder) <==> index < |frequencies| && !IsClose(raw.echoed, frequencies[index]))
                && error.value in {TooMany, OutOfOrder, BadShape, CallbackRaised}
      ensures error.None? ==> CutsFit(raw, config.planes, angles)
      ensures error.None? ==> table[index] == Some(RowOf(raw, frequencies[index], config))
      ensures forall k :: 0 <= k < table.Length && k != index ==> table[k] == old(table[k])
    {
      if index >= |frequencies| {
        return Some(TooMany);
      }
      if !IsClose(raw.echoed, frequencies[index]) {
        return Some(OutOfOrder);
      }
      if !ShapeFits(raw, first, config, angles) {
        return Some(BadShape);
      }
      table[index] := Some(RowOf(raw, frequencies[index], config));
      error := if index in raising then Some(CallbackRaised) else None;
    }

    /** The loop itself, up to the end of the events. */
    method Loop(frequencies: seq<real>, config: Config, angles: nat, raising: set<nat>, stopping: set<nat>,
                table: array<Option<Row>>)
      returns (count: nat, ending: Ending, error: Option<Error>)
      requires Requestable(frequencies) && Usable(config) && table.Length == |frequencies| && !cancelRequested
      modifies this`cancelRequested, table
      ensures error.None?
              <==> && !EndingOf(script).ByFailure?
                   && AllTaken(Results(script), |Results(script)|, frequencies, config, angles, raising)
      ensures error == Some(SolverFailed)
              <==> && EndingOf(script).ByFailure?
                   && AllTaken(Results(script), |Results(script)|, frequencies, config, angles, raising)
      ensures error.None? ==> count == |Results(script)| && count <= |frequencies| && ending == EndingOf(script)
      ensures error.None? ==> Filled(table[..], Results(script), count, frequencies, config, angles)
      ensures error.None? ==> (cancelRequested <==> exists k :: 0 <= k < count && k in stopping)
    {
      count, ending, error := 0, StreamOver, None;
      ghost var rs := Results(script);
      var first: Option<Raw> := None;
      for at := 0 to |script|
        invariant count <= |rs| && count <= |frequencies| && ending == StreamOver && error == None
        invariant Results(script[at..]) == rs[count..] && EndingOf(script[at..]) == EndingOf(script)
        invariant AllTaken(rs, count, frequencies, config, angles, raising)
        invariant first == if count == 0 then None else Some(rs[0])
        invariant Filled(table[..], rs, count, frequencies, config, angles)
        invariant cancelRequested <==> exists k :: 0 <= k < count && k in stopping
      {
        Unfold(script, at);
        var event := script[at];
        if event.Completed? || event.Cancelled? {
          return count, if event.Completed? then ByCompleted else ByCancelled, None;
        }
        if event.Failed? {
          return count, ByFailure, Some(SolverFailed);
        }
        if event.Other? {
          continue;
        }
        assert rs[count..][0] == event.raw && rs[count..][1..] == rs[count + 1..];
        var sizes := if first.Some? then first.value else event.raw;
        ghost var before := table[..];
        error := Take(event.raw, sizes, count, frequencies, config, angles, raising, table);
        assert error.None? <==> Taken(rs, count, frequencies, config, angles, raising);
        if error.Some? {
          return;
        }
        FilledOne(before, table[..], rs, count, frequencies, config, angles);
        first := Some(sizes);
        if count in stopping {
          RequestCancel();
        }
        count := count + 1;
      }
      assert script[|script|..] == [];
    }
  }

  /** The first `n` places hold the rows of the first `n` results. */
  ghost predicate Filled(rows: seq<Option<Row>>, rs: seq<Raw>, n: nat, frequencies: seq<real>, config: Config,
                         angles: nat)
    requires n <= |rs| && Requestable(frequencies) && Usable(config) && |rows| == |frequencies|
  {
    && n <= |rows|
    && forall k :: 0 <= k < n ==>
        (CutsFit(rs[k], config.planes, angles) && rows[k] == Some(RowOf(rs[k], frequencies[k], config)))
  }

  lemma FilledOne(before: seq<Option<Row>>, after: seq<Option<Row>>, rs: seq<Raw>, n: nat, frequencies: seq<real>,
                  config: Config, angles: nat)
    requires n < |rs| && n < |frequencies| && Requestable(frequencies) && Usable(config)
    requires |before| == |after| == |frequencies| && Filled(before, rs, n, frequencies, config, angles)
    requires CutsFit(rs[n], config.planes, angles) && after[n] == Some(RowOf(rs[n], frequencies[n], config))
    requires forall k :: 0 <= k < |after| && k != n ==> after[k] == before[k]
    ensures Filled(after, rs, n + 1, frequencies, config, angles)
  {
  }

  lemma Unfold(script: seq<Event>, at: nat)
    requires at < |script|
    ensures Results(script[at..]) ==
            if script[at].Result? then [script[at].raw] + Results(script[at + 1..])
            else if script[at].Other? then Results(script[at + 1..]) else []
    ensures EndingOf(script[at..]) ==
            if script[at].Result? || script[at].Other? then EndingOf(script[at + 1..])
            else if script[at].Completed? then ByCompleted
            else if script[at].Cancelled? then ByCancelled else ByFailure
  {
  }

  lemma RowsMean(rows: seq<Row>, rs: seq<Raw>, frequencies: seq<real>, config: Config, angles: nat, raising: set<nat>)
    requires Usable(config) && Requestable(frequencies) && |rows| == |rs| <= |frequencies|
    requires AllTaken(rs, |rs|, frequencies, config, angles, raising)
    requires forall k :: 0 <= k < |rs| ==>
               CutsFit(rs[k], config.planes, angles) && rows[k] == RowOf(rs[k], frequencies[k], config)
    ensures forall k :: 0 <= k < |rs| ==>
              CutsFit(rs[k], config.planes, angles) && Means(rows[k], rs[k], frequencies[k], config)
              && Sized(rows[k], rows[0], config, angles)
  {
    forall k | 0 <= k < |rs|
      ensures CutsFit(rs[k], config.planes, angles) && Means(rows[k], rs[k], frequencies[k], config)
              && Sized(rows[k], rows[0], config, angles)
    {
      assert Taken(rs, k, frequencies, config, angles, raising) && Taken(rs, 0, frequencies, config, angles, raising);
      RowMeaning(rs[k], frequencies[k], config);
    }
  }

  /** A row is as wide as the angle grid, its sphere has the points asked for, and its traces are as
      long as the first row's. */
  predicate Sized(row: Row, first: Row, config: Config, angles: nat) {
    && (forall p :: 0 <= p < |row.pressure| ==> |row.pressure[p]| == angles)
    && (config.spherePoints.Some? ==> row.sphere.Some? && |row.sphere.value| == config.spherePoints.value)
    && (config.surfaceTraces ==>
          && row.traces.Some? && first.traces.Some? && |row.traces.value.0| == |first.traces.value.0|
          && |row.traces.value.1| == |first.traces.value.1|)
  }

  /** `solve_frequencies` past the checks of its configuration. It returns rows exactly if the
      stream reached a cancelled event, or a completed one with every request answered, and
      every result before it was taken; row k then is the k-th result rescaled for the k-th
      request, there are no other rows, and the session is closed however it went. `raising`
      and `stopping` are the results at which a callback raises, or asks to stop. */
  method SolveFrequencies(frequencies: seq<real>, config: Config, session: Session, raising: set<nat>,
                          stopping: set<nat>) returns (r: Solved)
    requires Usable(config) && !session.closed && !session.cancelRequested
    modifies session
    ensures Requestable(frequencies) ==> session.closed
    ensures r.Ok? <==>
              && Requestable(frequencies) && session.metadata.Some? && session.metadata.value.angles > 0
              && var rs, ending := Results(session.script), EndingOf(session.script);
                 && (ending.ByCancelled? || (ending.ByCompleted? && |rs| == |frequencies|))
                 && AllTaken(rs, |rs|, frequencies, config, session.metadata.value.angles, raising)
    ensures r.Ok? ==>
              var rs := Results(session.script);
              && |r.rows| == |rs| <= |frequencies| == r.requested
              && (r.cancelled <==> EndingOf(session.script).ByCancelled?)
              && (!r.cancelled ==> |r.rows| == |frequencies|)
              && forall k :: 0 <= k < |rs| ==>
                   CutsFit(rs[k], config.planes, session.metadata.value.angles)
                       && Means(r.rows[k], rs[k], frequencies[k], config)
                       && Sized(r.rows[k], r.rows[0], config, session.metadata.value.angles)
    ensures r.Ok? ==> (session.cancelRequested <==> exists k :: 0 <= k < |r.rows| && k in stopping)
    ensures if frequencies == [] || (exists k :: 0 <= k < |frequencies| && frequencies[k] <= 0.0)
               || (exists j, k :: 0 <= j < k < |frequencies| && frequencies[j] == frequencies[k])
            then r == Err(BadRequest)
            else if session.metadata.None? || session.metadata.value.angles == 0 then r == Err(NoMetadata)
            else
              var rs, ending := Results(session.script), EndingOf(session.script);
              AllTaken(rs, |rs|, frequencies, config, session.metadata.value.angles, raising) ==>
                && (ending.ByFailure? ==> r == Err(SolverFailed))
                && (ending.StreamOver? ==> r == Err(EndedEarly))
                && (ending.ByCompleted? && |rs| != |frequencies| ==> r == Err(Incomplete))
  {
    if |frequencies| == 0 || (exists k :: 0 <= k < |frequencies| && frequencies[k] <= 0.0)
       || (exists j, k :: 0 <= j < k < |frequencies| && frequencies[j] == frequencies[k])
    {
      return Err(BadRequest);
    }
    r := Collect(frequencies, config, session, raising, stopping);
    if r.Ok? {
      RowsMean(r.rows, Results(session.script), frequencies, config, session.metadata.value.angles, raising);
    }
    session.Close();
  }

  /** Everything between opening the session and closing it. */
  method Collect(frequencies: seq<real>, config: Config, session: Session, raising: set<nat>, stopping: set<nat>)
      returns (r: Solved)
    requires Requestable(frequencies) && Usable(config) && !session.cancelRequested
    modifies session`cancelRequested
    ensures r.Ok? <==>
              && session.metadata.Some? && session.metadata.value.angles > 0
              && var rs, ending := Results(session.script), EndingOf(session.script);
                 && (ending.ByCancelled? || (ending.ByCompleted? && |rs| == |frequencies|))
                 && AllTaken(rs, |rs|, frequencies, config, session.metadata.value.angles, raising)
    ensures r.Ok? ==>
              var rs := Results(session.script);
              && |r.rows| == |rs| <= |frequencies| == r.requested
              && (r.cancelled <==> EndingOf(session.script).ByCancelled?)
              && (!r.cancelled ==> |r.rows| == |frequencies|)
              && forall k :: 0 <= k < |rs| ==>
                   CutsFit(rs[k], config.planes, session.metadata.value.angles)
                       && r.rows[k] == RowOf(rs[k], frequencies[k], config)
    ensures r.Ok? ==> (session.cancelRequested <==> exists k :: 0 <= k < |r.rows| && k in stopping)
    ensures if session.metadata.None? || session.metadata.value.angles == 0 then r == Err(NoMetadata)
            else
              var rs, ending := Results(session.script), EndingOf(session.script);
              AllTaken(rs, |rs|, frequencies, config, session.metadata.value.angles, raising) ==>
                && (ending.ByFailure? ==> r == Err(SolverFailed))
                && (ending.StreamOver? ==> r == Err(EndedEarly))
                && (ending.ByCompleted? && |rs| != |frequencies| ==> r == Err(Incomplete))
  {
    if session.metadata.None? || session.metadata.value.angles == 0 {
      return Err(NoMetadata);
    }
    var table := new Option<Row>[|frequencies|](_ => None);
    var count, ending, error := session.Loop(frequencies, config, session.metadata.value.angles, raising, stopping,
                                             table);
    if error.Some? {
      return Err(error.value);
    }
    if ending.StreamOver? {
      return Err(EndedEarly);
    }
    if ending.ByCompleted? && count != |frequencies| {
      return Err(Incomplete);
    }
    var rows: seq<Row> := [];
    for k := 0 to count
      invariant |rows| == k
      invariant forall j :: 0 <= j < k ==> rows[j] == RowOf(Results(session.script)[j], frequencies[j], config)
    {
      rows := rows + [table[k].value];
    }
    r := Ok(rows, ending.ByCancelled?, |frequencies|);
  }

  /* ---------- The echo as a check of order ---------- */

  const ECHO_ERROR := 0.00000006
  const SEPARATION := 0.0000011

  /** The echo of a frequency that went through a 32-bit float. */
  predicate EchoOf(echoed: real, frequency: real) {
    Abs(echoed - frequency) <= ECHO_ERROR * frequency
  }

  /** Far enough apart for the check to tell them from one another. */
  predicate Separated(f: real, g: real) {
    Abs(f - g) > SEPARATION * Max(Max(f, g), 1.0)
  }

  lemma EchoTellsApart(echoed: real, own: real, other: real)
    requires own > 0.0 && other > 0.0 && EchoOf(echoed, own) && Separated(own, other)
    ensures !IsClose(echoed, other)
  {
  }

  /** A stream whose results answer the requests in any order, echoed with no more error than a
      32-bit float brings, is taken only in the order of the requests. */
  lemma TakenInOrder(rs: seq<Raw>, answers: seq<nat>, frequencies: seq<real>, config: Config, angles: nat,
                     raising: set<nat>, k: nat)
    requires Requestable(frequencies) && |answers| == |rs| && k < |rs|
    requires forall j :: 0 <= j < |rs| ==> answers[j] < |frequencies| && EchoOf(rs[j].echoed, frequencies[answers[j]])
    requires forall i, j :: 0 <= i < j < |frequencies| ==> Separated(frequencies[i], frequencies[j])
    requires AllTaken(rs, |rs|, frequencies, config, angles, raising)
    ensures answers[k] == k
  {
    assert Taken(rs, k, frequencies, config, angles, raising);
    var i := answers[k];
    if i < k {
      EchoTellsApart(rs[k].echoed, frequencies[i], frequencies[k]);
    } else if k < i {
      assert Separated(frequencies[k], frequencies[i]);
      EchoTellsApart(rs[k].echoed, frequencies[i], frequencies[k]);
    }
  }

  /** ... and a result that answers its own request is never refused for its frequency. */
  lemma OwnEchoIsClose(echoed: real, frequency: real)
    requires frequency > 0.0 && EchoOf(echoed, frequency)
    ensures IsClose(echoed, frequency)
  {
  }

  /** Close enough for the check to take either for the other. */
  predicate Within(f: real, g: real) {
    Abs(f - g) <= Max(0.000001 * Max(Abs(f), Abs(g)), 0.000001)
  }

  /** Every request is answered once, in some order. */
  ghost predicate Permutes(answers: seq<nat>, n: nat) {
    && |answers| == n && (forall k :: 0 <= k < n ==> answers[k] < n)
    && forall j, k :: 0 <= j < k < n ==> answers[j] != answers[k]
  }

  ghost predicate OutOfPlace(answers: seq<nat>) {
    exists k :: 0 <= k < |answers| && answers[k] != k
  }

  /** The results answer the requests in the order of `answers`, and echo them exactly. */
  ghost predicate ExactAnswers(rs: seq<Raw>, answers: seq<nat>, frequencies: seq<real>) {
    && Permutes(answers, |frequencies|) && |rs| == |frequencies|
    && forall k :: 0 <= k < |rs| ==> rs[k].echoed == frequencies[answers[k]]
  }

  /** A whole stream of results out of order, each echoed exactly, that the loop takes. */
  ghost predicate Misplaced(rs: seq<Raw>, answers: seq<nat>, frequencies: seq<real>, config: Config, angles: nat) {
    && ExactAnswers(rs, answers, frequencies) && OutOfPlace(answers)
    && AllTaken(rs, |rs|, frequencies, config, angles, {})
  }

  ghost predicate SomeWithin(frequencies: seq<real>) {
    exists i, j :: 0 <= i < j < |frequencies| && Within(frequencies[i], frequencies[j])
  }

  /** Where the check is blind: a stream that answers the requests out of order is taken by the
      loop, with every echo exact, for some order exactly if some two requests differ by no more
      than the tolerance. */
  lemma ExchangeUnnoticed(frequencies: seq<real>, config: Config, angles: nat)
    requires Requestable(frequencies) && config.planes != []
    ensures (exists rs, answers :: Misplaced(rs, answers, frequencies, config, angles)) <==> SomeWithin(frequencies)
  {
    if rs, answers :| Misplaced(rs, answers, frequencies, config, angles) {
      var k :| 0 <= k < |answers| && answers[k] != k;
      assert Taken(rs, k, frequencies, config, angles, {});
      var m := answers[k];
      assert Within(frequencies[if m < k then m else k], frequencies[if m < k then k else m]);
    }
    if i, j :| 0 <= i < j < |frequencies| && Within(frequencies[i], frequencies[j]) {
      var rs, answers := Exchange(frequencies, config, angles, i, j);
    }
  }

  /** A result with the shape asked for. */
  function Plain(echoed: real, config: Config, angles: nat): Raw {
    var row := seq(angles, _ => Complex(0.0, 0.0));
    var planes := (set p | p in config.planes) + {"horizontal", "vertical", "diagonal"};
    Raw(echoed, 1, map p | p in planes :: row, [],
        if config.spherePoints.Some? then Some(seq(config.spherePoints.value, _ => Complex(0.0, 0.0))) else None,
        Some((row, row)))
  }

  /** Two answers exchanged, all others in their places. */
  lemma Exchange(frequencies: seq<real>, config: Config, angles: nat, i: nat, j: nat)
    returns (rs: seq<Raw>, answers: seq<nat>)
    requires Requestable(frequencies) && config.planes != []
    requires i < j < |frequencies| && Within(frequencies[i], frequencies[j])
    ensures Misplaced(rs, answers, frequencies, config, angles)
  {
    var n := |frequencies|;
    answers := seq(n, k => if k == i then j else if k == j then i else k);
    rs := seq(n, k requires 0 <= k < n => Plain(frequencies[answers[k]], config, angles));
    assert answers[i] != i;
    forall k | 0 <= k < n ensures Taken(rs, k, frequencies, config, angles, {}) {
      assert IsClose(rs[k].echoed, frequencies[k]);
    }
  }

  /** Such requests: a thousand hertz, and half a millihertz more. */
  lemma TwoRequestsExchanged(config: Config, angles: nat) returns (rs: seq<Raw>, answers: seq<nat>)
    requires config.planes != []
    ensures Requestable([1000.0, 1000.0005]) && Misplaced(rs, answers, [1000.0, 1000.0005], config, angles)
  {
    rs, answers := Exchange([1000.0, 1000.0005], config, angles, 0, 1);
  }
}
