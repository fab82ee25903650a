/** What the CAD host and the SkinGenerator hand to the layout controller,
    reduced to the answers the controller reads: the kind and flags of a
    region's geometry, the geometric measurements between a region and a cell,
    the per-cell context, and the injected layout data function. */
module Host {
  import opened Builtins
  import opened Metadata

  /** obj.ObjectType as the controller tests it. */
  datatype Kind = CurveObject | BrepObject | OtherObject

  /** A geometry's own answers: IsClosed, IsPlanar at the document tolerance,
      and an identity that distinguishes one geometry from another. */
  datatype Shape = Shape(closed: bool, planar: bool, id: nat)

  datatype Geo = Geo(kind: Kind, shape: Shape)

  /** A modifier region after construction: its geometry and its 'Data' user
      string, which is None where the host removed the key. */
  datatype Region = Region(geo: Geo, data: Option<string>)

  /** The answers of Curve.Contains. */
  datatype Containment = Unset | Inside | Outside | Coincident

  type NonNeg = r: real | r >= 0.0

  /** What the geometry kernel answers about one region seen from one cell:
      IsInPlane(panelPlane), Contains(centerPoint, panelPlane), the distance
      from the centre to the closest point, and that point's vertical and
      horizontal offsets from the centre (before the tolerance is added). */
  datatype Probe = Probe(inPlane: bool, containment: Containment, dist: NonNeg,
                         heightOffset: NonNeg, widthOffset: NonNeg)

  /** The per-cell context read from skinInstance: row, column, the original
      bay index, the default bay list, the cell's plane, its width and height,
      and the geometry oracle for the cell's centre. */
  datatype Cell<B> = Cell(row: int, column: int, bayIndex: int, defaultBays: seq<B>,
                          plane: nat, width: NonNeg, height: NonNeg, probe: Geo -> Probe)

  /** The arguments of the data function's Run: the bay list, the pattern, the
      cell context (row, column, default bays, bay index, plane) and the state of
      the shared random object. */
  datatype DataCall<B> = DataCall(bays: seq<B>, pattern: Pattern, cell: Cell<B>, seed: int, cursor: nat)

  /** What the data function's Run gives back: the new bay index, and how many
      values it drew from the shared random object. */
  datatype DataReply = DataReply(index: int, draws: nat)

  /** The injected layout data function: its Run, and its answer to
      GetParameter('RandomSeed'). */
  datatype DataFunction<!B> = DataFunction(run: DataCall<B> -> DataReply, randomSeed: Option<int>)
}
