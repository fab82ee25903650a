/** What one call of LayoutDesignFunction.Run computes for one cell, as
    functions: the filter, the one base draw, the single default call when
    there are no regions, the scan over the regions in order with one data
    function call per flagged region, and the range check with its fallback. */
module BayAssigner {
  import opened Builtins
  import opened Metadata
  import opened Host
  import opened Randomness
  import opened RegionSelector

  /** The controller's configuration, fixed at construction: the cleaned
      regions, the global falloff, the 1-based filter, the distance threshold
      and the data function, if one was bound. */
  datatype Config<!B> = Config(regions: seq<Region>, falloffRadius: real, filter: seq<int>,
                               threshold: real, dataFunction: Option<DataFunction<B>>)

  /** What stays fixed during one cell's scan, the cell's draw included. */
  datatype Ctx<!B> = Ctx(f: DataFunction<B>, bays: seq<B>, cell: Cell<B>, env: Env, rnd: Unit, seed: int)

  /** The scan so far: newBayIndex, the random object's cursor and the
      patterns the data function has been called with; or the exception that
      stopped it, with the cursor and calls reached by then. */
  datatype ScanState =
    | Going(index: int, cursor: nat, calls: seq<Pattern>)
    | Stopped(error: PyError, cursor: nat, calls: seq<Pattern>)

  /** What Run returns: [bay, bayIndex], or the exception it raises. */
  datatype Outcome<B> = Returned(bay: B, bayIndex: int) | Failed(error: PyError)

  /** The result of Run together with the state it leaves: the cursor of the
      shared random object, the warnings it appends and the data function calls
      it made, by pattern. */
  datatype RunTrace<B> = RunTrace(outcome: Outcome<B>, cursor: nat, warnings: seq<string>, calls: seq<Pattern>)

  const InvalidBayWarning: string := "Invalid panel bay id value: newBayIndex - default panel id used"

  /** One call of the data function's Run with a pattern; newBayIndex becomes
      its answer and the random object moves past the values it drew. */
  function Consult<B>(f: DataFunction<B>, bays: seq<B>, pattern: Pattern, cell: Cell<B>,
                      seed: int, cursor: nat, calls: seq<Pattern>): (s: ScanState)
    ensures s.Going? && s.cursor >= cursor && s.calls == calls + [pattern]
  {
    var reply := f.run(DataCall(bays, pattern, cell, seed, cursor));
    Going(reply.index, cursor + reply.draws, calls + [pattern])
  }

  /** One iteration of the loop over the regions. */
  function Step<B>(region: Region, ctx: Ctx<B>, s: ScanState): (r: ScanState)
    ensures s.Stopped? ==> r == s
    ensures r.cursor >= s.cursor
    ensures |s.calls| <= |r.calls| <= |s.calls| + 1
  {
    match s
    case Stopped(_, _, _) => s
    case Going(_, cursor, calls) =>
      match Evaluate(region, ctx.cell, ctx.env, ctx.rnd)
      case Err(e) => Stopped(e, cursor, calls)
      case Ok(Unflagged) => s
      case Ok(Flagged(p)) => Consult(ctx.f, ctx.bays, p, ctx.cell, ctx.seed, cursor, calls)
  }

  /** The loop over the regions, in their configured order. The random object
      only moves forward and the calls are only appended to. */
  function Scan<B>(regions: seq<Region>, ctx: Ctx<B>, s: ScanState): (r: ScanState)
    ensures r.cursor >= s.cursor
    ensures |r.calls| >= |s.calls| && r.calls[..|s.calls|] == s.calls
    decreases |regions|
  {
    if regions == [] then s
    else Step(regions[|regions| - 1], ctx, Scan(regions[..|regions| - 1], ctx, s))
  }

  /** The patterns of the regions that flag the cell, in region order. */
  function FlaggedPatterns<B>(regions: seq<Region>, cell: Cell<B>, env: Env, rnd: Unit): (ps: seq<Pattern>)
    ensures |ps| <= |regions|
    decreases |regions|
  {
    if regions == [] then []
    else
      FlaggedPatterns(regions[..|regions| - 1], cell, env, rnd) +
      match Evaluate(regions[|regions| - 1], cell, env, rnd)
      case Ok(Flagged(p)) => [p]
      case _ => []
  }

  /** A filter of 1-based bay ids admits the 0-based position k; an empty
      filter admits every position. */
  predicate Eligible(filter: seq<int>, k: int)
  {
    filter == [] || k + 1 in filter
  }

  /** [PanelBay_List[i], bayIndex]. */
  function Select<B>(bays: seq<B>, i: int, bayIndex: int): (o: Outcome<B>)
    ensures o.Returned? <==> -|bays| <= i < |bays|
    ensures o.Returned? ==> o.bayIndex == bayIndex && o.bay == bays[if i < 0 then |bays| + i else i]
    ensures o.Failed? ==> o.error == IndexError
  {
    match Subscript(bays, i)
    case Ok(bay) => Returned(bay, bayIndex)
    case Err(e) => Failed(e)
  }

  /** The range check: an index at or past the end falls back to the cell's
      original bay; a negative one is not checked. */
  function Validated<B>(bays: seq<B>, newIndex: int, bayIndex: int): (o: Outcome<B>)
    ensures 0 <= newIndex < |bays| ==> o == Returned(bays[newIndex], bayIndex)
    ensures newIndex >= |bays| && 0 <= bayIndex < |bays| ==> o == Returned(bays[bayIndex], bayIndex)
    ensures o.Returned? ==> o.bayIndex == bayIndex
  {
    if newIndex >= |bays| then Select(bays, bayIndex, bayIndex) else Select(bays, newIndex, bayIndex)
  }

  function RangeWarnings<B>(bays: seq<B>, newIndex: int): (w: seq<string>)
    ensures |w| <= 1
  {
    if newIndex >= |bays| then [InvalidBayWarning] else []
  }

  /** The settings a region is judged with during Run. */
  function EnvOf<B>(cfg: Config<B>, tolerance: real): Env
  {
    Env(tolerance, cfg.threshold, cfg.falloffRadius)
  }

  /** The state after the data function has had its say, for an eligible
      cell at position k, with the base draw taken at `cursor`. */
  function Delegated<B>(cfg: Config<B>, f: DataFunction<B>, stream: (int, nat) -> Unit, seed: int, cursor: nat,
                        bays: seq<B>, cell: Cell<B>, tolerance: real, k: nat): (s: ScanState)
    ensures s.cursor > cursor
  {
    if cfg.regions == [] then Consult(f, bays, [], cell, seed, cursor + 1, [])
    else Scan(cfg.regions, Ctx(f, bays, cell, EnvOf(cfg, tolerance), stream(seed, cursor), seed), Going(k, cursor + 1, []))
  }

  /** LayoutDesignFunction.Run for one cell, given the random object's stream,
      seed and cursor. Every [bay, bayIndex] it returns carries the cell's
      original bay index, it appends at most one warning, and it never moves
      the random object backwards. */
  function RunSpec<B(==)>(cfg: Config<B>, stream: (int, nat) -> Unit, seed: int, cursor: nat,
                          bays: seq<B>, currentBay: B, cell: Cell<B>, tolerance: real): (t: RunTrace<B>)
    ensures t.outcome.Returned? ==> t.outcome.bayIndex == cell.bayIndex
    ensures |t.warnings| <= 1
    ensures t.cursor >= cursor
  {
    match IndexOf(bays, currentBay)
    case None => RunTrace(Failed(ValueError), cursor, [], [])
    case Some(k) =>
      if cfg.dataFunction.None? then RunTrace(Select(bays, cell.bayIndex, cell.bayIndex), cursor, [], [])
      else if !Eligible(cfg.filter, k) then RunTrace(Returned(bays[k], cell.bayIndex), cursor, [], [])
      else
        match Delegated(cfg, cfg.dataFunction.value, stream, seed, cursor, bays, cell, tolerance, k)
        case Stopped(e, c, calls) => RunTrace(Failed(e), c, [], calls)
        case Going(index, c, calls) =>
          RunTrace(Validated(bays, index, cell.bayIndex), c, RangeWarnings(bays, index), calls)
  }

  // ------------------------------------------------------------ the scan

  /** Once an exception is raised, the remaining regions change nothing. */
  lemma {:induction false} ScanFromStopped<B>(regions: seq<Region>, ctx: Ctx<B>, s: ScanState)
    requires s.Stopped?
    ensures Scan(regions, ctx, s) == s
    decreases |regions|
  {
    if regions != [] {
      ScanFromStopped(regions[..|regions| - 1], ctx, s);
    }
  }

  /** Scanning a concatenation scans the first part, then the second. */
  lemma {:induction false} ScanConcat<B>(a: seq<Region>, b: seq<Region>, ctx: Ctx<B>, s: ScanState)
    ensures Scan(a + b, ctx, s) == Scan(b, ctx, Scan(a, ctx, s))
    decreases |b|
  {
    if b == [] {
      assert a + b == a;
    } else {
      var n := |b| - 1;
      assert (a + b)[..|a + b| - 1] == a + b[..n];
      assert (a + b)[|a + b| - 1] == b[n];
      ScanConcat(a, b[..n], ctx, s);
    }
  }

  /** An exception raised in a prefix of the regions is the scan's result. */
  lemma ScanStoppedPrefix<B>(regions: seq<Region>, j: nat, ctx: Ctx<B>, s: ScanState)
    requires j <= |regions| && Scan(regions[..j], ctx, s).Stopped?
    ensures Scan(regions, ctx, s) == Scan(regions[..j], ctx, s)
  {
    assert regions == regions[..j] + regions[j..];
    ScanConcat(regions[..j], regions[j..], ctx, s);
    ScanFromStopped(regions[j..], ctx, Scan(regions[..j], ctx, s));
  }

  /** Regions that do not flag the cell leave newBayIndex, the random
      object and the calls as they were. */
  lemma {:induction false} ScanUnflagged<B>(regions: seq<Region>, ctx: Ctx<B>, s: ScanState)
    requires forall i :: 0 <= i < |regions| ==> Evaluate(regions[i], ctx.cell, ctx.env, ctx.rnd) == Ok(Unflagged)
    ensures Scan(regions, ctx, s) == s
    decreases |regions|
  {
    if regions != [] {
      ScanUnflagged(regions[..|regions| - 1], ctx, s);
    }
  }

  /** Without exceptions, the data function is called once per flagged
      region, in region order, each time with that region's PATTERN. */
  lemma {:induction false} ScanCallsFlagged<B>(regions: seq<Region>, ctx: Ctx<B>, s: ScanState)
    requires s.Going?
    requires forall i :: 0 <= i < |regions| ==> Evaluate(regions[i], ctx.cell, ctx.env, ctx.rnd).Ok?
    ensures Scan(regions, ctx, s).Going?
    ensures Scan(regions, ctx, s).calls == s.calls + FlaggedPatterns(regions, ctx.cell, ctx.env, ctx.rnd)
    decreases |regions|
  {
    if regions != [] {
      var pre := regions[..|regions| - 1];
      ScanCallsFlagged(pre, ctx, s);
      assert s.calls + FlaggedPatterns(pre, ctx.cell, ctx.env, ctx.rnd) + []
          == s.calls + FlaggedPatterns(pre, ctx.cell, ctx.env, ctx.rnd);
    }
  }

  /** The last flagged region wins: after it, regions that do not flag leave
      newBayIndex at the data function's answer for that region's pattern. */
  lemma ScanLastFlaggedWins<B>(pre: seq<Region>, r: Region, post: seq<Region>, ctx: Ctx<B>, s: ScanState, p: Pattern)
    requires Scan(pre, ctx, s).Going?
    requires Evaluate(r, ctx.cell, ctx.env, ctx.rnd) == Ok(Flagged(p))
    requires forall i :: 0 <= i < |post| ==> Evaluate(post[i], ctx.cell, ctx.env, ctx.rnd) == Ok(Unflagged)
    ensures Scan(pre + [r] + post, ctx, s).Going?
    ensures Scan(pre + [r] + post, ctx, s).index ==
            ctx.f.run(DataCall(ctx.bays, p, ctx.cell, ctx.seed, Scan(pre, ctx, s).cursor)).index
  {
    ScanConcat(pre + [r], post, ctx, s);
    assert (pre + [r])[..|pre + [r]| - 1] == pre;
    ScanUnflagged(post, ctx, Scan(pre + [r], ctx, s));
  }

  // ------------------------------------------------------------- Run

  /** Without a data function Run passes the cell through unchanged. */
  lemma RunPassThrough<B>(cfg: Config<B>, stream: (int, nat) -> Unit, seed: int, cursor: nat,
                              bays: seq<B>, currentBay: B, cell: Cell<B>, tolerance: real)
    requires cfg.dataFunction.None? && currentBay in bays && 0 <= cell.bayIndex < |bays|
    ensures RunSpec(cfg, stream, seed, cursor, bays, currentBay, cell, tolerance) ==
            RunTrace(Returned(bays[cell.bayIndex], cell.bayIndex), cursor, [], [])
  {
  }

  /** A cell whose current bay is not in a non-empty filter keeps its current
      bay, without a draw and without a data function call. */
  lemma RunFilteredOut<B>(cfg: Config<B>, stream: (int, nat) -> Unit, seed: int, cursor: nat,
                              bays: seq<B>, currentBay: B, cell: Cell<B>, tolerance: real)
    requires cfg.dataFunction.Some? && cfg.filter != [] && currentBay in bays
    requires IndexOf(bays, currentBay).value + 1 !in cfg.filter
    ensures RunSpec(cfg, stream, seed, cursor, bays, currentBay, cell, tolerance) ==
            RunTrace(Returned(currentBay, cell.bayIndex), cursor, [], [])
  {
  }

  /** Without regions the data function is called exactly once, with the
      empty pattern, after the one base draw; its answer goes through the
      range check. */
  lemma RunWithoutRegions<B>(cfg: Config<B>, stream: (int, nat) -> Unit, seed: int, cursor: nat,
                                 bays: seq<B>, currentBay: B, cell: Cell<B>, tolerance: real)
    requires cfg.dataFunction.Some? && cfg.regions == [] && currentBay in bays
    requires Eligible(cfg.filter, IndexOf(bays, currentBay).value)
    ensures var reply := cfg.dataFunction.value.run(DataCall(bays, [], cell, seed, cursor + 1));
            RunSpec(cfg, stream, seed, cursor, bays, currentBay, cell, tolerance) ==
            RunTrace(Validated(bays, reply.index, cell.bayIndex), cursor + 1 + reply.draws,
                     RangeWarnings(bays, reply.index), [[]])
  {
  }

  /** The range check: an index past the end yields the original bay and
      exactly one warning; an index in range yields that bay and no warning;
      a negative index counts from the end, as Python's subscript does. */
  lemma RunRangeCheck<B>(cfg: Config<B>, stream: (int, nat) -> Unit, seed: int, cursor: nat,
                             bays: seq<B>, currentBay: B, cell: Cell<B>, tolerance: real,
                             index: int, c: nat, calls: seq<Pattern>)
    requires cfg.dataFunction.Some? && currentBay in bays
    requires var k := IndexOf(bays, currentBay).value;
             Eligible(cfg.filter, k) &&
             Delegated(cfg, cfg.dataFunction.value, stream, seed, cursor, bays, cell, tolerance, k) == Going(index, c, calls)
    ensures var t := RunSpec(cfg, stream, seed, cursor, bays, currentBay, cell, tolerance);
            t.cursor == c && t.calls == calls &&
            (index >= |bays| ==> t.outcome == Select(bays, cell.bayIndex, cell.bayIndex) && t.warnings == [InvalidBayWarning]) &&
            (0 <= index < |bays| ==> t.outcome == Returned(bays[index], cell.bayIndex) && t.warnings == []) &&
            (-|bays| <= index < 0 ==> t.outcome == Returned(bays[|bays| + index], cell.bayIndex) && t.warnings == [])
  {
  }

  /** With regions and no exception, every region sees the same base draw,
      and the data function is called exactly with the patterns of the
      flagged regions, in order. */
  lemma RunCallsFlaggedRegions<B>(cfg: Config<B>, stream: (int, nat) -> Unit, seed: int, cursor: nat,
                                      bays: seq<B>, currentBay: B, cell: Cell<B>, tolerance: real)
    requires cfg.dataFunction.Some? && cfg.regions != [] && currentBay in bays
    requires Eligible(cfg.filter, IndexOf(bays, currentBay).value)
    requires forall i :: 0 <= i < |cfg.regions| ==>
               Evaluate(cfg.regions[i], cell, EnvOf(cfg, tolerance), stream(seed, cursor)).Ok?
    ensures RunSpec(cfg, stream, seed, cursor, bays, currentBay, cell, tolerance).calls ==
            FlaggedPatterns(cfg.regions, cell, EnvOf(cfg, tolerance), stream(seed, cursor))
  {
    var k := IndexOf(bays, currentBay).value;
    var ctx := Ctx(cfg.dataFunction.value, bays, cell, EnvOf(cfg, tolerance), stream(seed, cursor), seed);
    ScanCallsFlagged(cfg.regions, ctx, Going(k, cursor + 1, []));
  }

  /** When no region flags the cell, newBayIndex stays the current bay's
      position: the cell keeps its current bay after the one base draw, and
      the data function is not called. */
  lemma RunNothingFlagged<B>(cfg: Config<B>, stream: (int, nat) -> Unit, seed: int, cursor: nat,
                                 bays: seq<B>, currentBay: B, cell: Cell<B>, tolerance: real)
    requires cfg.dataFunction.Some? && cfg.regions != [] && currentBay in bays
    requires Eligible(cfg.filter, IndexOf(bays, currentBay).value)
    requires forall i :: 0 <= i < |cfg.regions| ==>
               Evaluate(cfg.regions[i], cell, EnvOf(cfg, tolerance), stream(seed, cursor)) == Ok(Unflagged)
    ensures RunSpec(cfg, stream, seed, cursor, bays, currentBay, cell, tolerance) ==
            RunTrace(Returned(currentBay, cell.bayIndex), cursor + 1, [], [])
  {
    var k := IndexOf(bays, currentBay).value;
    var ctx := Ctx(cfg.dataFunction.value, bays, cell, EnvOf(cfg, tolerance), stream(seed, cursor), seed);
    ScanUnflagged(cfg.regions, ctx, Going(k, cursor + 1, []));
  }

  /** When every region resolves its FALLOFF to -1 or less, the cell keeps its
      current bay after the one base draw, and the data function is not called. */
  lemma RunAllRegionsSkipped<B>(cfg: Config<B>, stream: (int, nat) -> Unit, seed: int, cursor: nat,
                                    bays: seq<B>, currentBay: B, cell: Cell<B>, tolerance: real)
    requires cfg.dataFunction.Some? && cfg.regions != [] && currentBay in bays
    requires Eligible(cfg.filter, IndexOf(bays, currentBay).value)
    requires forall i :: 0 <= i < |cfg.regions| ==>
               cfg.regions[i].data.Some? &&
               FalloffOf(TokensOf(cfg.regions[i]), cfg.falloffRadius).Ok? &&
               FalloffOf(TokensOf(cfg.regions[i]), cfg.falloffRadius).value <= -1.0
    ensures RunSpec(cfg, stream, seed, cursor, bays, currentBay, cell, tolerance) ==
            RunTrace(Returned(currentBay, cell.bayIndex), cursor + 1, [], [])
  {
    var env := EnvOf(cfg, tolerance);
    forall i | 0 <= i < |cfg.regions|
      ensures Evaluate(cfg.regions[i], cell, env, stream(seed, cursor)) == Ok(Unflagged)
    {
      FalloffSkipsRegion(cfg.regions[i], cell, env, stream(seed, cursor),
                         FalloffOf(TokensOf(cfg.regions[i]), cfg.falloffRadius).value);
    }
    RunNothingFlagged(cfg, stream, seed, cursor, bays, currentBay, cell, tolerance);
  }
}
