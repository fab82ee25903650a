/** The layout design function: a controller built once from the
    component's inputs, then asked by the skin generator, cell by cell, which
    panel bay to place. */
module LayoutController {
  import opened Builtins
  import opened Metadata
  import opened Host
  import opened Randomness
  import opened RegionSelector
  import opened BayAssigner
  import opened RegionCleanup

  const MissingLayoutTypeWarning: string := "Missing 'layoutType' input"

  /** The seed the random object starts from. */
  const DefaultRandomSeed: int := 1

  /** The distance threshold used when regionsDistanceTH is missing or 0. */
  function DefaultThreshold(unitCoef: real): real
  {
    0.1 * unitCoef
  }

  /** The filter of 1-based bay ids, converted on a copy to 0-based positions. */
  method ZeroBasedCopy(filter: seq<int>) returns (positions: seq<int>)
    ensures |positions| == |filter|
    ensures forall i :: 0 <= i < |filter| ==> positions[i] + 1 == filter[i]
    ensures filter != [] ==> forall k :: k in positions <==> k + 1 in filter
  {
    positions := filter;
    for i := 0 to |positions|
      invariant |positions| == |filter|
      invariant forall j :: 0 <= j < i ==> positions[j] + 1 == filter[j]
      invariant forall j :: i <= j < |positions| ==> positions[j] == filter[j]
    {
      positions := positions[i := positions[i] - 1];
    }
    forall k | k + 1 in filter
      ensures k in positions
    {
      var j :| 0 <= j < |filter| && filter[j] == k + 1;
      assert positions[j] == k;
    }
  }

  class LayoutDesignFunction<B(==)> {
    const functionType: string := "Layout"
    /** The cleaned regions, in the order they were given. */
    const modifierObjects: seq<Region>
    const falloffRadius: real
    const filterBayIDList: seq<int>
    const modifierDistThreshold: real
    const randomObject: RandomObject
    const dataFunction: Option<DataFunction<B>>
    var warningData: seq<string>

    /** The configuration Run works with. */
    function Configuration(): Config<B>
    {
      Config(modifierObjects, falloffRadius, filterBayIDList, modifierDistThreshold, dataFunction)
    }

    /** Builds the controller from the component's inputs. unitCoef is the
        document's unit scale and stream the random generator's output. */
    constructor (layoutType: Option<DataFunction<B>>, layoutRegions: seq<RegionEntry>,
                 regionsDistanceTH: Option<real>, regionsEdgeDithering: Option<real>,
                 filter: seq<int>, unitCoef: real, stream: (int, nat) -> Unit)
      ensures modifierObjects == Survivors(layoutRegions)
      ensures modifierDistThreshold ==
              if regionsDistanceTH.Some? && regionsDistanceTH.value != 0.0 then regionsDistanceTH.value
              else DefaultThreshold(unitCoef)
      ensures falloffRadius == if regionsEdgeDithering.Some? then regionsEdgeDithering.value else 0.0
      ensures filterBayIDList == filter
      ensures dataFunction == layoutType
      ensures warningData == EntryWarnings(layoutRegions) +
                             if layoutType.None? then [MissingLayoutTypeWarning] else []
      ensures fresh(randomObject)
      ensures randomObject.stream == stream && randomObject.seed == DefaultRandomSeed && randomObject.cursor == 0
    {
      var threshold := DefaultThreshold(unitCoef);
      if regionsDistanceTH.Some? && regionsDistanceTH.value != 0.0 {
        threshold := regionsDistanceTH.value;
      }
      modifierDistThreshold := threshold;
      var regions, warnings := CleanRegions(layoutRegions);
      modifierObjects := regions;
      falloffRadius := if regionsEdgeDithering.Some? then regionsEdgeDithering.value else 0.0;
      filterBayIDList := filter;
      randomObject := new RandomObject(stream, DefaultRandomSeed);
      if layoutType.None? {
        warnings := warnings + [MissingLayoutTypeWarning];
      }
      dataFunction := layoutType;
      warningData := warnings;
    }

    function IsLayoutType(): (b: bool)
      ensures b
    {
      functionType == "Layout"
    }

    function IsPanelType(): (b: bool)
      ensures !b
    {
      functionType == "Panel"
    }

    /** Restarts the random stream from the data function's RandomSeed, when
        there is a data function and its seed is set and not 0. */
    method Reset()
      modifies randomObject
      ensures if dataFunction.Some? && dataFunction.value.randomSeed.Some? && dataFunction.value.randomSeed.value != 0
              then randomObject.seed == dataFunction.value.randomSeed.value && randomObject.cursor == 0
              else randomObject.seed == old(randomObject.seed) && randomObject.cursor == old(randomObject.cursor)
    {
      if dataFunction.Some? {
        var param := dataFunction.value.randomSeed;
        if param.Some? && param.value != 0 {
          randomObject.Seed(param.value);
        }
      }
    }

    /** What one region of the loop decides for the cell: its FALLOFF and
        geometric tests, the blend with the cell's draw, and, if the cell is
        flagged, its PATTERN; or the exception raised on the way. */
    method JudgeRegion(obj: Region, cell: Cell<B>, tolerance: real, rndVal: Unit) returns (verdict: Result<Verdict>)
      ensures verdict == Evaluate(obj, cell, EnvOf(Configuration(), tolerance), rndVal)
    {
      if obj.data.None? {
        return Err(AttributeError);
      }
      var dataList := Split(obj.data.value, TokenSeparator);
      var falloffValue := ResolveAssignment(dataList, FalloffKey, ParseNumber, falloffRadius);
      if falloffValue.Err? {
        return Err(falloffValue.error);
      }
      var falloff := falloffValue.value;
      var flagPanel := false;
      if falloff > -1.0 {
        var dist: real := 0.0;
        var probe := cell.probe(obj.geo);
        if obj.geo.kind == CurveObject {
          if obj.geo.shape.closed && obj.geo.shape.planar && probe.inPlane {
            if probe.containment == Inside || probe.containment == Coincident {
              flagPanel := true;
            }
          }
          if !flagPanel {
            dist := probe.dist;
            if !obj.geo.shape.closed {
              var heightDist := probe.heightOffset + tolerance;
              var widthDist := probe.widthOffset + tolerance;
              if heightDist < cell.height / 2.0 && widthDist < cell.width / 2.0 {
                flagPanel := true;
              }
            }
          }
        } else if obj.geo.kind == BrepObject {
          dist := probe.dist;
          if dist < tolerance + modifierDistThreshold {
            flagPanel := true;
          }
        } else {
          return Ok(Unflagged);
        }
        if !flagPanel && falloff > 0.0 {
          if rndVal > dist / falloff {
            flagPanel := true;
          } else if rndVal == 0.0 {
            return Err(ZeroDivisionError);
          } else if rndVal > dist - falloff / rndVal / 15.0 {
            flagPanel := true;
          }
        }
      }
      if !flagPanel {
        return Ok(Unflagged);
      }
      var patternValue := ResolveAssignment(dataList, PatternKey, ParsePattern, []);
      if patternValue.Err? {
        return Err(patternValue.error);
      }
      return Ok(Flagged(patternValue.value));
    }

    /** From the base draw on, for an eligible cell at position k: the one
        data function call without regions, or the loop over the regions, in
        order, calling the data function for each region that flags the cell.
        The result is newBayIndex, or the exception that stopped the loop. */
    method Delegate(f: DataFunction<B>, bays: seq<B>, cell: Cell<B>, tolerance: real, k: nat)
      returns (s: ScanState)
      modifies randomObject
      ensures s == Delegated(Configuration(), f, randomObject.stream, old(randomObject.seed), old(randomObject.cursor),
                             bays, cell, tolerance, k)
      ensures randomObject.seed == old(randomObject.seed) && randomObject.cursor == s.cursor
    {
      ghost var seed, cursor0 := randomObject.seed, randomObject.cursor;
      var rndVal := randomObject.Random();
      if modifierObjects == [] {
        var reply := f.run(DataCall(bays, [], cell, randomObject.seed, randomObject.cursor));
        randomObject.Skip(reply.draws);
        return Going(reply.index, randomObject.cursor, [[]]);
      }
      ghost var ctx := Ctx(f, bays, cell, EnvOf(Configuration(), tolerance), rndVal, seed);
      ghost var start := Going(k, cursor0 + 1, []);
      var newBayIndex: int := k;
      var calls: seq<Pattern> := [];
      var i := 0;
      while i < |modifierObjects|
        invariant 0 <= i <= |modifierObjects|
        invariant randomObject.seed == seed
        invariant Scan(modifierObjects[..i], ctx, start) == Going(newBayIndex, randomObject.cursor, calls)
      {
        var obj := modifierObjects[i];
        assert modifierObjects[..i + 1][..i] == modifierObjects[..i];
        assert Scan(modifierObjects[..i + 1], ctx, start) == Step(obj, ctx, Going(newBayIndex, randomObject.cursor, calls));
        var verdict := JudgeRegion(obj, cell, tolerance, rndVal);
        match verdict {
          case Err(e) =>
            ScanStoppedPrefix(modifierObjects, i + 1, ctx, start);
            return Stopped(e, randomObject.cursor, calls);
          case Ok(Unflagged) =>
          case Ok(Flagged(pattern)) =>
            var reply := f.run(DataCall(bays, pattern, cell, randomObject.seed, randomObject.cursor));
            randomObject.Skip(reply.draws);
            newBayIndex := reply.index;
            calls := calls + [pattern];
        }
        i := i + 1;
      }
      assert modifierObjects[..i] == modifierObjects;
      return Going(newBayIndex, randomObject.cursor, calls);
    }

    /** The bay for one cell: currentBay is the bay the earlier design
        functions left there, cell the skin's view of the cell. The ghost
        result lists the patterns the data function was called with. */
    method Run(bays: seq<B>, currentBay: B, cell: Cell<B>, tolerance: real)
      returns (result: Outcome<B>, ghost calls: seq<Pattern>)
      modifies this, randomObject
      ensures var t := RunSpec(Configuration(), randomObject.stream, old(randomObject.seed), old(randomObject.cursor),
                               bays, currentBay, cell, tolerance);
              result == t.outcome && calls == t.calls && randomObject.cursor == t.cursor &&
              warningData == old(warningData) + t.warnings
      ensures randomObject.seed == old(randomObject.seed)
    {
      calls := [];
      var found := IndexOf(bays, currentBay);
      if found.None? {
        return Failed(ValueError), calls;
      }
      var newBayIndex: int := found.value;
      if dataFunction.None? {
        return Select(bays, cell.bayIndex, cell.bayIndex), calls;
      }
      if filterBayIDList != [] {
        var filterBayList := ZeroBasedCopy(filterBayIDList);
        if newBayIndex !in filterBayList {
          return Returned(bays[newBayIndex], cell.bayIndex), calls;
        }
      }
      var s := Delegate(dataFunction.value, bays, cell, tolerance, found.value);
      calls := s.calls;
      if s.Stopped? {
        return Failed(s.error), calls;
      }
      newBayIndex := s.index;
      if newBayIndex >= |bays| {
        warningData := warningData + [InvalidBayWarning];
        return Select(bays, cell.bayIndex, cell.bayIndex), calls;
      }
      return Select(bays, newBayIndex, cell.bayIndex), calls;
    }
  }
}
