/** The constructor's clean-up of the layoutRegions input: every entry is
    turned into a region (carrying its 'Data' string, except for a scene
    object without a name), or, if it cannot be, replaced by None with a
    warning that gives its 1-based position; the None entries are then removed
    one by one. */
module RegionCleanup {
  import opened Builtins
  import opened Metadata
  import opened Host

  /** One entry of layoutRegions as the host presents it. */
  datatype RegionEntry =
      /** A scene object id: whether rs.IsObject accepts it, its rs.ObjectName,
          and what ObjRef(id).Brep() and ObjRef(id).Curve() give. */
    | SceneObject(live: bool, name: Option<string>, asBrep: Option<Shape>, asCurve: Option<Shape>)
      /** A geometry value, which accepts SetUserString. */
    | GeometryValue(geo: Geo)
      /** Any other value: SetUserString raises on it. */
    | Unusable

  /** The 'Data' string a geometry value is given. */
  const BlankData: string := " "

  const RegionWarningPrefix: string := "Invalid 'layoutRegions' value at #"

  /** The warning for the entry at 1-based position n. */
  function RegionWarning(n: nat): string
  {
    RegionWarningPrefix + NatToString(n)
  }

  /** What the clean-up puts in an entry's place: the region, or None. */
  function Resolved(e: RegionEntry): (r: Option<Region>)
    ensures r.Some? ==> (e.SceneObject? && e.live) || e.GeometryValue?
    ensures r.Some? && r.value.data.None? ==> e.SceneObject? && e.name.None?
  {
    match e
    case SceneObject(live, name, brep, curve) =>
      if !live then None
      else if brep.Some? then Some(Region(Geo(BrepObject, brep.value), name))
      else if curve.Some? then Some(Region(Geo(CurveObject, curve.value), name))
      else None
    case GeometryValue(geo) => Some(Region(geo, Some(BlankData)))
    case Unusable => None
  }

  /** The list after the first pass: each entry replaced in place. */
  function ResolvedAll(entries: seq<RegionEntry>): (slots: seq<Option<Region>>)
    ensures |slots| == |entries|
  {
    seq(|entries|, i requires 0 <= i < |entries| => Resolved(entries[i]))
  }

  /** The regions of a list of slots, None entries dropped, in order. */
  function Compact(slots: seq<Option<Region>>): seq<Region>
    decreases |slots|
  {
    if slots == [] then []
    else
      Compact(slots[..|slots| - 1]) +
      match slots[|slots| - 1]
      case Some(r) => [r]
      case None => []
  }

  /** The regions the controller keeps. */
  function Survivors(entries: seq<RegionEntry>): seq<Region>
  {
    Compact(ResolvedAll(entries))
  }

  /** The warnings of the clean-up, in entry order. */
  function EntryWarnings(entries: seq<RegionEntry>): (warnings: seq<string>)
    ensures |warnings| <= |entries|
    ensures forall k :: 0 <= k < |warnings| ==>
              |RegionWarningPrefix| < |warnings[k]| && warnings[k][..|RegionWarningPrefix|] == RegionWarningPrefix
    decreases |entries|
  {
    if entries == [] then []
    else
      EntryWarnings(entries[..|entries| - 1]) +
      if Resolved(entries[|entries| - 1]).None? then [RegionWarning(|entries|)] else []
  }

  lemma {:induction false} CompactConcat(a: seq<Option<Region>>, b: seq<Option<Region>>)
    ensures Compact(a + b) == Compact(a) + Compact(b)
    decreases |b|
  {
    if b == [] {
      assert a + b == a;
    } else {
      var n := |b| - 1;
      assert (a + b)[..|a + b| - 1] == a + b[..n];
      assert (a + b)[|a + b| - 1] == b[n];
      CompactConcat(a, b[..n]);
    }
  }

  lemma CompactOfNone()
    ensures Compact([None]) == []
  {
    var lone: seq<Option<Region>> := [None];
    assert lone[..0] == [];
  }

  /** Removing one None does not change the regions. */
  lemma CompactRemoveNone(slots: seq<Option<Region>>)
    requires None in slots
    ensures Compact(Remove(slots, None)) == Compact(slots)
  {
    var k := IndexOf(slots, None).value;
    var pre, post := slots[..k], slots[k + 1..];
    assert Remove(slots, None) == pre + post;
    assert slots == pre + [None] + post;
    CompactConcat(pre + [None], post);
    CompactConcat(pre, [None]);
    CompactOfNone();
    CompactConcat(pre, post);
  }

  /** A list without None holds exactly its regions, in order. */
  lemma {:induction false} CompactWithoutNone(slots: seq<Option<Region>>)
    requires None !in slots
    ensures |Compact(slots)| == |slots|
    ensures forall i :: 0 <= i < |slots| ==> slots[i] == Some(Compact(slots)[i])
    decreases |slots|
  {
    if slots != [] {
      var n := |slots| - 1;
      assert slots == slots[..n] + [slots[n]];
      CompactWithoutNone(slots[..n]);
    }
  }

  lemma ResolvedAllSplit(entries: seq<RegionEntry>, i: nat)
    requires i < |entries|
    ensures ResolvedAll(entries) == ResolvedAll(entries[..i]) + [Resolved(entries[i])] + ResolvedAll(entries[i + 1..])
  {
  }

  lemma ResolvedAllSnoc(entries: seq<RegionEntry>, i: nat)
    requires i < |entries|
    ensures ResolvedAll(entries[..i + 1]) == ResolvedAll(entries[..i]) + [Resolved(entries[i])]
  {
  }

  /** Every surviving region keeps its entry's place: the entry at position i
      has as many survivors before it as there are valid entries before it. */
  lemma SurvivorsKeepOrder(entries: seq<RegionEntry>, i: nat, r: Region)
    requires i < |entries| && Resolved(entries[i]) == Some(r)
    ensures |Survivors(entries[..i])| < |Survivors(entries)|
    ensures Survivors(entries)[|Survivors(entries[..i])|] == r
  {
    var pre, post := ResolvedAll(entries[..i]), ResolvedAll(entries[i + 1..]);
    ResolvedAllSplit(entries, i);
    CompactConcat(pre + [Some(r)], post);
    CompactConcat(pre, [Some(r)]);
    assert [Some(r)][..0] == [];
  }

  lemma {:induction false} EntryWarningsPrefix(entries: seq<RegionEntry>, j: nat)
    requires j <= |entries|
    ensures EntryWarnings(entries[..j]) <= EntryWarnings(entries)
    decreases |entries|
  {
    if j < |entries| {
      var n := |entries| - 1;
      assert entries[..n][..j] == entries[..j];
      EntryWarningsPrefix(entries[..n], j);
    } else {
      assert entries[..j] == entries;
    }
  }

  /** Every invalid entry gets its warning, numbered with its 1-based
      position, in entry order. */
  lemma WarningsNumbered(entries: seq<RegionEntry>, i: nat)
    requires i < |entries| && Resolved(entries[i]).None?
    ensures |EntryWarnings(entries[..i])| < |EntryWarnings(entries)|
    ensures EntryWarnings(entries)[|EntryWarnings(entries[..i])|] == RegionWarning(i + 1)
  {
    assert entries[..i + 1][..i] == entries[..i];
    assert EntryWarnings(entries[..i + 1]) == EntryWarnings(entries[..i]) + [RegionWarning(i + 1)];
    EntryWarningsPrefix(entries, i + 1);
  }

  /** Each entry either survives or is reported: never both, never neither. */
  lemma {:induction false} EveryEntryAccounted(entries: seq<RegionEntry>)
    ensures |Survivors(entries)| + |EntryWarnings(entries)| == |entries|
    decreases |entries|
  {
    if entries != [] {
      var n := |entries| - 1;
      assert ResolvedAll(entries)[..n] == ResolvedAll(entries[..n]);
      EveryEntryAccounted(entries[..n]);
    }
  }

  /** The number in a warning reads back as the entry's position. */
  lemma WarningNumberReadable(n: nat)
    ensures ParseNat(RegionWarning(n)[|RegionWarningPrefix|..]) == Some(n)
  {
    assert RegionWarning(n)[|RegionWarningPrefix|..] == NatToString(n);
    ParseNatShow(n);
  }

  /** The clean-up as the source runs it: a first loop that replaces each
      entry, or None with a warning, and a second that removes None entries
      until list.remove would raise. */
  method CleanRegions(entries: seq<RegionEntry>) returns (regions: seq<Region>, warnings: seq<string>)
    ensures regions == Survivors(entries)
    ensures warnings == EntryWarnings(entries)
  {
    var slots: seq<Option<Region>> := [];
    warnings := [];
    for index := 0 to |entries|
      invariant slots == ResolvedAll(entries[..index])
      invariant warnings == EntryWarnings(entries[..index])
    {
      assert entries[..index + 1][..index] == entries[..index];
      ResolvedAllSnoc(entries, index);
      var slot: Option<Region>;
      match entries[index] {
        case SceneObject(live, name, brep, curve) =>
          if !live {
            slot := None;
          } else if brep.Some? {
            slot := Some(Region(Geo(BrepObject, brep.value), name));
          } else if curve.Some? {
            slot := Some(Region(Geo(CurveObject, curve.value), name));
          } else {
            slot := None;
          }
        case GeometryValue(geo) =>
          slot := Some(Region(geo, Some(BlankData)));
        case Unusable =>
          slot := None;
      }
      if slot.None? {
        warnings := warnings + [RegionWarning(index + 1)];
      }
      slots := slots + [slot];
    }
    assert entries[..|entries|] == entries;
    ghost var replaced := slots;
    while None in slots
      invariant Compact(slots) == Compact(replaced)
      decreases |slots|
    {
      CompactRemoveNone(slots);
      slots := Remove(slots, None);
    }
    CompactWithoutNone(slots);
    regions := seq(|slots|, i requires 0 <= i < |slots| && slots[i].Some? => slots[i].value);
  }
}
