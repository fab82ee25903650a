# SkinDesigner layout controller in Dafny

This project models `LayoutDesignFunction`, the layout design function of the
SkinDesigner facade generator. It has two parts:

- **The constructor.** It cleans the list of modifier regions, so that every
  entry becomes a region or is dropped with a numbered warning. A region
  normally carries a `Data` metadata string; a live scene object without a
  name survives without one. It also stores the configuration: the distance
  threshold, the global falloff, the filter of 1-based bay ids, the injected
  layout data function and a seeded random object.
- **`Run`.** It decides the panel bay of one facade cell:
  - pass-through when no data function is bound;
  - the filter check;
  - one base random draw;
  - a scan of the regions in order, each of which may flag the cell by:
    - containment in a closed planar curve,
    - the extent of an open curve,
    - the distance to a surface, or
    - a random blend near the edge;
  - one data function call per flagged region, with that region's PATTERN;
  - the range check, with a fallback to the cell's original bay.

Modules, one file each:

- `Builtins` (`builtins.dfy`): the Python behaviour the code relies on.
  - `list.index`, negative subscripts and `str(n)`;
  - substring `in`, `split("/")` and `list.remove`;
  - the exceptions that can leave `Run`.
- `Metadata` (`metadata.dfy`): a small parser for the `KEY=literal` tokens.
  In the source these are `compile`d and `eval`ed. A later token that
  mentions the key overrides an earlier one. A malformed token raises.
- `Host` (`host.dfy`): values the CAD host supplies.
  - The geometry of a region, reduced to its kind and its `IsClosed`/`IsPlanar` answers.
  - A geometry oracle per cell: `IsInPlane`, `Contains`, the closest-point distance and its offsets.
  - The cell context.
  - The injected data function, whose `Run` answers a bay index and the number of random values it drew.
- `Randomness` (`random_object.dfy`): `random.Random` as a class holding a
  seed and a cursor into a seeded stream. The stream is a parameter.
- `RegionSelector` (`region_selector.dfy`): what one region decides for one
  cell (`Evaluate`), with the blend tests and their properties.
- `BayAssigner` (`bay_assigner.dfy`): `RunSpec`, a function specifying `Run`
  as a fold over the regions, with the lemmas about it.
- `RegionCleanup` (`region_cleanup.dfy`): the constructor's clean-up.
  - `CleanRegions` is the two-loop method, proved against `Survivors` and `EntryWarnings`.
- `LayoutController` (`layout_controller.dfy`): the class `LayoutDesignFunction`.
  - Its constructor, `IsLayoutType`, `IsPanelType` and `Reset`.
  - `Run`, split into `JudgeRegion` (the loop body up to the PATTERN),
    `Delegate` (the draw and the loop) and `Run` itself.
  - Each of `JudgeRegion`, `Delegate` and `Run` is proved equal to its
    counterpart function (`Evaluate`, `Delegated`, `RunSpec`).

Python exceptions are explicit outcomes (`Failed(error)` or `Stopped(error, ...)`).
State changed before the raise is kept: the random cursor and the data
function calls already made.

### Behaviour worth noting

- A resolved FALLOFF of -1 or less skips the region entirely, the containment
  test included (line 195 guards the whole region test).
- Malformed metadata is not dropped at construction: `Run` raises when it
  reaches the token.
- A region without a `Data` string makes `Run` raise (`AttributeError`). This
  is the case of a live scene object without a name.
- A negative index from the data function is not range-checked; Python reads
  it from the end of the bay list.

## Model

| member | source | states |
|---|---|---|
| Builtins.IndexOf | src/SkinDesigner_LayoutController.py:155 | the first position holding the bay, and None exactly when the bay is absent (Python's ValueError) |
| Builtins.Subscript | src/SkinDesigner_LayoutController.py:156 | Python indexing: defined exactly for -len <= i < len, a negative index counting from the end, IndexError otherwise |
| Builtins.NatToString | src/SkinDesigner_LayoutController.py:96 | str(n) is a non-empty run of digits with no leading zero unless n is 0 |
| Builtins.Contains | src/SkinDesigner_LayoutController.py:193 | `key in token`; an occurrence proves it (ContainsAt) and it yields an occurrence (ContainsWitness) |
| Builtins.ContainsAt | src/SkinDesigner_LayoutController.py:193 | a substring occurring at some position makes `key in token` true |
| Builtins.ContainsWitness | src/SkinDesigner_LayoutController.py:193 | `key in token` gives a position where the key occurs |
| Builtins.Split | src/SkinDesigner_LayoutController.py:190 | at least one piece, and no piece contains the separator |
| Builtins.Join | src/SkinDesigner_LayoutController.py:190 | the inverse of Split, for the round trips JoinSplit and SplitJoin |
| Builtins.JoinSplit | src/SkinDesigner_LayoutController.py:190 | joining the pieces of the split gives the metadata string back |
| Builtins.SplitJoin | src/SkinDesigner_LayoutController.py:190 | splitting the join of separator-free pieces gives the pieces back |
| Builtins.Remove | src/SkinDesigner_LayoutController.py:110 | list.remove drops exactly the first occurrence |
| Metadata.ParseNumber | src/SkinDesigner_LayoutController.py:193 | the FALLOFF literal; read back by ParseNumberShow, ParseDecimalShow and ParseHalf |
| Metadata.ParsePattern | src/SkinDesigner_LayoutController.py:237 | the PATTERN literal; read back by ParsePatternShow |
| Metadata.ParseDecimalShow | src/SkinDesigner_LayoutController.py:193 | a decimal FALLOFF literal `w.f` reads back as w + f/10^len(f) |
| Metadata.ParseNegatedDecimalShow | src/SkinDesigner_LayoutController.py:193 | a negated decimal FALLOFF literal `-w.f` reads back as -(w + f/10^len(f)) |
| Metadata.ParseHalf | src/SkinDesigner_LayoutController.py:193 | the literal 0.5 reads as one half |
| Metadata.Assignment | src/SkinDesigner_LayoutController.py:193 | what eval of one token assigns; AssignmentWritten gives its value for `KEY=literal` |
| Metadata.LastAssignment | src/SkinDesigner_LayoutController.py:191-193 | only EvalError can be raised, and without a token mentioning the key the default stands |
| Metadata.FalloffOf | src/SkinDesigner_LayoutController.py:190-193 | the region's FALLOFF, defaulting to the global falloff; see FalloffNamed, FalloffHalf |
| Metadata.PatternOf | src/SkinDesigner_LayoutController.py:234-237 | the region's PATTERN, defaulting to []; see LastMentionWins, NoMentionKeepsValue |
| Metadata.ParseNatShow | src/SkinDesigner_LayoutController.py:193 | a printed natural number reads back as itself |
| Metadata.ParseIntShow | src/SkinDesigner_LayoutController.py:237 | a printed integer, negative ones included, reads back as itself |
| Metadata.ParseNumberShow | src/SkinDesigner_LayoutController.py:193 | an integer written as a FALLOFF literal reads back as that number |
| Metadata.ParsePatternShow | src/SkinDesigner_LayoutController.py:237 | a printed PATTERN list reads back as that list |
| Metadata.AssignmentWritten | src/SkinDesigner_LayoutController.py:193 | the token `KEY=literal` mentions the key and assigns the literal's value |
| Metadata.NoMentionKeepsValue | src/SkinDesigner_LayoutController.py:191-193 | with no token mentioning the key, the default (global falloff, or []) stands |
| Metadata.LastMentionWins | src/SkinDesigner_LayoutController.py:192-193 | the last token mentioning the key decides its value |
| Metadata.MalformedMentionRaises | src/SkinDesigner_LayoutController.py:193 | a malformed token that mentions the key raises, whatever follows it |
| Metadata.FalloffNamed | src/SkinDesigner_LayoutController.py:190-193 | the metadata `FALLOFF=i` resolves the region's falloff to i |
| Metadata.FalloffHalf | src/SkinDesigner_LayoutController.py:190-193 | the metadata `FALLOFF=0.5` resolves the region's falloff to 0.5 |
| Metadata.ResolveAssignment | src/SkinDesigner_LayoutController.py:235-237 | the token loop computes exactly the last-assignment value or the error |
| Randomness.RandomObject.constructor | src/SkinDesigner_LayoutController.py:115-116 | a new generator on the given stream and seed, at the start of the stream |
| Randomness.RandomObject.Seed | src/SkinDesigner_LayoutController.py:139 | reseeding restarts the stream of the new seed |
| Randomness.RandomObject.Random | src/SkinDesigner_LayoutController.py:165 | the draw is the value at the cursor, and the cursor advances by one |
| Randomness.RandomObject.Skip | src/SkinDesigner_LayoutController.py:238 | the data function's draws advance the cursor and keep the seed |
| RegionSelector.ContainmentHit | src/SkinDesigner_LayoutController.py:200-202 | the containment test of a closed planar curve; used by ContainmentFlags |
| RegionSelector.OpenCurveHit | src/SkinDesigner_LayoutController.py:208-212 | the half-height and half-width test of an open curve, tolerance added |
| RegionSelector.SurfaceHit | src/SkinDesigner_LayoutController.py:215-219 | the distance test of a surface; used by NearSurfaceFlags |
| RegionSelector.GeometricHit | src/SkinDesigner_LayoutController.py:198-219 | any of the three geometric tests; decides alone without blending (NoBlendWithoutPositiveFalloff) |
| RegionSelector.Blend | src/SkinDesigner_LayoutController.py:227-229 | raises exactly when the draw is 0, and then ZeroDivisionError; see BlendDecides, BlendCloserStillFlags |
| RegionSelector.Evaluate | src/SkinDesigner_LayoutController.py:188-237 | missing Data raises AttributeError; only AttributeError, EvalError or ZeroDivisionError (on a 0 draw) are raised; a flag comes from a curve or surface with its PATTERN; the cases are the lemmas below |
| RegionSelector.MissingDataRaises | src/SkinDesigner_LayoutController.py:189-190 | a region without its Data string raises AttributeError |
| RegionSelector.FalloffSkipsRegion | src/SkinDesigner_LayoutController.py:195 | a resolved FALLOFF <= -1 never flags the cell, containment included |
| RegionSelector.OtherKindNeverFlags | src/SkinDesigner_LayoutController.py:222 | a region that is neither a curve nor a surface never flags |
| RegionSelector.ContainmentFlags | src/SkinDesigner_LayoutController.py:200-202 | a centre inside or on a closed planar coplanar curve flags, whatever the draw |
| RegionSelector.NearSurfaceFlags | src/SkinDesigner_LayoutController.py:215-219 | a surface closer than tolerance + threshold flags |
| RegionSelector.NoBlendWithoutPositiveFalloff | src/SkinDesigner_LayoutController.py:227 | with FALLOFF in (-1, 0] the geometric test alone decides |
| RegionSelector.BlendDecides | src/SkinDesigner_LayoutController.py:227-229 | an unflagged cell under positive FALLOFF is flagged iff rnd > dist/FALLOFF or rnd > dist - FALLOFF/rnd/15 |
| RegionSelector.ZeroDrawRaises | src/SkinDesigner_LayoutController.py:229 | a draw of 0 that fails the first test raises ZeroDivisionError |
| RegionSelector.BlendCloserStillFlags | src/SkinDesigner_LayoutController.py:228-229 | a draw that flags a cell at some distance flags it at any smaller distance |
| RegionSelector.BlendWithinScaledDraw | src/SkinDesigner_LayoutController.py:228 | any distance below FALLOFF times the draw is flagged |
| RegionSelector.BlendScenario | src/SkinDesigner_LayoutController.py:227-229 | falloff 2 and distance 1: draw 0.9 flags, draw 0.3 does not |
| BayAssigner.Consult | src/SkinDesigner_LayoutController.py:238 | a data function call appends its pattern to the calls and never moves the cursor back |
| BayAssigner.Step | src/SkinDesigner_LayoutController.py:184-238 | one iteration: after an exception nothing changes, the cursor never moves back, at most one call is added |
| BayAssigner.FlaggedPatterns | src/SkinDesigner_LayoutController.py:232-238 | at most one pattern per region; equal to the calls by ScanCallsFlagged |
| BayAssigner.Eligible | src/SkinDesigner_LayoutController.py:159-162 | the filter test on the 1-based id; matches ZeroBasedCopy's membership |
| BayAssigner.Select | src/SkinDesigner_LayoutController.py:244-247 | [bays[i], bayIndex] exactly for -len <= i < len (negatives from the end), IndexError otherwise |
| BayAssigner.Validated | src/SkinDesigner_LayoutController.py:242-247 | an in-range index selects its bay; one at or past the end selects the original bay; the pair always ends with bayIndex |
| BayAssigner.Scan | src/SkinDesigner_LayoutController.py:184-238 | over the region loop the cursor only advances and calls are only appended |
| BayAssigner.RangeWarnings | src/SkinDesigner_LayoutController.py:242-243 | the range check adds at most one warning |
| BayAssigner.Delegated | src/SkinDesigner_LayoutController.py:165-238 | after the filter, at least the base draw is taken |
| BayAssigner.RunSpec | src/SkinDesigner_LayoutController.py:144-247 | every returned pair carries the cell's bayIndex, at most one warning, and the cursor never moves back |
| BayAssigner.ScanFromStopped | src/SkinDesigner_LayoutController.py:184-238 | once an exception is raised the remaining regions change nothing |
| BayAssigner.ScanConcat | src/SkinDesigner_LayoutController.py:184 | the loop over a concatenation is the loop over each part in turn |
| BayAssigner.ScanStoppedPrefix | src/SkinDesigner_LayoutController.py:184-238 | an exception in a prefix of the regions is the loop's result |
| BayAssigner.ScanUnflagged | src/SkinDesigner_LayoutController.py:232 | regions that do not flag leave newBayIndex, the cursor and the calls alone |
| BayAssigner.ScanCallsFlagged | src/SkinDesigner_LayoutController.py:232-238 | one data function call per flagged region, in order, with its PATTERN |
| BayAssigner.ScanLastFlaggedWins | src/SkinDesigner_LayoutController.py:232-238 | newBayIndex ends as the answer for the last flagged region |
| BayAssigner.RunPassThrough | src/SkinDesigner_LayoutController.py:156 | with no data function the result is [bays[bayIndex], bayIndex], with no draw |
| BayAssigner.RunFilteredOut | src/SkinDesigner_LayoutController.py:159-162 | a cell outside a non-empty filter keeps its current bay, with no draw and no call |
| BayAssigner.RunWithoutRegions | src/SkinDesigner_LayoutController.py:177-182 | with no regions the data function is called once with [] after the draw, and its answer is range-checked |
| BayAssigner.RunRangeCheck | src/SkinDesigner_LayoutController.py:242-247 | index >= len falls back with exactly one warning; in range gives that bay; negatives read from the end, unchecked |
| BayAssigner.RunCallsFlaggedRegions | src/SkinDesigner_LayoutController.py:165-238 | all regions see the one draw, and the calls are exactly the flagged regions' patterns |
| BayAssigner.RunNothingFlagged | src/SkinDesigner_LayoutController.py:184-247 | when no region flags, the cell keeps its current bay after one draw, with no call and no warning |
| BayAssigner.RunAllRegionsSkipped | src/SkinDesigner_LayoutController.py:195 | if every region has FALLOFF <= -1 the cell keeps its current bay after one draw, with no call |
| RegionCleanup.Resolved | src/SkinDesigner_LayoutController.py:93-108 | only live scene objects and geometry values survive, and only an unnamed scene object loses its Data string |
| RegionCleanup.Compact | src/SkinDesigner_LayoutController.py:109-111 | the slots with None dropped, in order; see CompactRemoveNone, CompactWithoutNone |
| RegionCleanup.Survivors | src/SkinDesigner_LayoutController.py:92-111 | the kept regions; order by SurvivorsKeepOrder, count by EveryEntryAccounted |
| RegionCleanup.EntryWarnings | src/SkinDesigner_LayoutController.py:96-106 | at most one warning per entry, each starting with the region warning text; numbering by WarningsNumbered |
| RegionCleanup.ResolvedAll | src/SkinDesigner_LayoutController.py:92-108 | the first pass keeps one slot per entry |
| RegionCleanup.CompactConcat | src/SkinDesigner_LayoutController.py:109-111 | dropping None entries distributes over concatenation |
| RegionCleanup.CompactRemoveNone | src/SkinDesigner_LayoutController.py:110 | each list.remove(None) keeps the surviving regions |
| RegionCleanup.CompactWithoutNone | src/SkinDesigner_LayoutController.py:109-111 | once no None is left the list is exactly its regions, in order |
| RegionCleanup.SurvivorsKeepOrder | src/SkinDesigner_LayoutController.py:92-111 | a valid entry survives at the position given by the valid entries before it |
| RegionCleanup.WarningsNumbered | src/SkinDesigner_LayoutController.py:96-106 | every invalid entry gets its warning, numbered with its 1-based position, in entry order |
| RegionCleanup.EveryEntryAccounted | src/SkinDesigner_LayoutController.py:92-111 | survivors plus warnings equal the number of entries |
| RegionCleanup.WarningNumberReadable | src/SkinDesigner_LayoutController.py:96 | the number in a warning reads back as the entry's position |
| RegionCleanup.CleanRegions | src/SkinDesigner_LayoutController.py:92-111 | the two loops yield exactly the survivors and the warnings |
| LayoutController.ZeroBasedCopy | src/SkinDesigner_LayoutController.py:160-161 | each id is one less on the copy, and a position is in the copy iff its id is in the filter |
| LayoutController.LayoutDesignFunction.constructor | src/SkinDesigner_LayoutController.py:83-123 | the cleaned regions and warnings, the threshold (truthiness default 0.1 * unit), falloff, filter, seed 1, the missing layoutType warning |
| LayoutController.LayoutDesignFunction.IsLayoutType | src/SkinDesigner_LayoutController.py:127-129 | always true |
| LayoutController.LayoutDesignFunction.IsPanelType | src/SkinDesigner_LayoutController.py:132-134 | always false |
| LayoutController.LayoutDesignFunction.Reset | src/SkinDesigner_LayoutController.py:136-139 | reseeds only with a data function whose RandomSeed is set and non-zero |
| LayoutController.LayoutDesignFunction.JudgeRegion | src/SkinDesigner_LayoutController.py:188-237 | the loop body computes exactly the region's verdict or exception |
| LayoutController.LayoutDesignFunction.Delegate | src/SkinDesigner_LayoutController.py:165-238 | the draw and the region loop compute exactly the specified scan, cursor included |
| LayoutController.LayoutDesignFunction.Run | src/SkinDesigner_LayoutController.py:144-247 | result, cursor, calls and appended warnings are those of RunSpec; the seed is unchanged |

## Left out

- Unit-system detection and the switching of `sc.doc` (lines 54-60, 85, 124).
  Host state; the unit coefficient is a constructor parameter.
- The geometry kernel: `Contains`, `IsPlanar`, `IsInPlane`, `ClosestPoint`,
  `PointAt` and the centre/plane/width/height computations (lines 168-175,
  200-211, 217). They become the per-cell `probe` oracle and the cell's width
  and height. Distances are non-negative reals, not floating point.
- `compile`/`eval` of metadata (lines 193, 237). They become a parser of
  `KEY=literal`. FALLOFF takes `d`, `d.d` and their negations, where `d` is a
  run of digits (no redundant leading zero in the whole part); PATTERN takes
  lists of integers. Any other literal Python would accept (`.5`, `1.`, `1e-3`,
  `+2`, `01.5`) or other expression in a token mentioning the key counts as
  malformed and raises EvalError.
- The Mersenne Twister behind `random.Random` (lines 115-116, 139). It is
  an arbitrary stream per seed.
- The data function's own behaviour. Its `Run` is an arbitrary function of its
  arguments. On the shared random object it can only draw values, not reseed it.
- LayoutController.LayoutDesignFunction.constructor: the check on
  `_layoutType`'s class name (lines 119-122) is not modelled. A bound data
  function is always accepted, so the "Invalid 'layoutType' input" warning
  never arises.
- The Grasshopper runtime messages and the `layoutController = None` wiring
  (lines 251-255). Host plumbing.
- The in-place rewriting of the caller's `layoutRegions` list (line 88 aliases it).
  The model builds a new sequence.
- `warningData` as a class attribute shared by all instances (line 80). It is
  an instance field here.
- RegionCleanup.Resolved: a scene object without a name gets no `Data` string.
  This models `SetUserString('Data', None)` as removing the key.
- src/SkinDesigner_PP-LBHB_Output.py (the display/export step) is not part of
  this model.
