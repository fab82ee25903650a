/** The decision the controller takes for one modifier region and one cell:
    resolve the region's FALLOFF, test the geometry (containment in a closed
    planar curve, the extent of an open curve, the distance to a surface),
    blend at random near the edge, and, when the cell is flagged, resolve the
    region's PATTERN. */
module RegionSelector {
  import opened Builtins
  import opened Metadata
  import opened Host
  import opened Randomness

  /** The settings every region is judged with: the document's absolute
      tolerance, the distance threshold (regionsDistanceTH) and the global
      falloff (regionsEdgeDithering). */
  datatype Env = Env(tolerance: real, threshold: real, falloffRadius: real)

  /** A region either leaves the cell alone or flags it with its pattern. */
  datatype Verdict = Unflagged | Flagged(pattern: Pattern)

  /** A closed planar curve in the cell's plane catches a centre inside it or on it. */
  predicate ContainmentHit(geo: Geo, p: Probe)
  {
    geo.kind == CurveObject && geo.shape.closed && geo.shape.planar && p.inPlane &&
    (p.containment == Inside || p.containment == Coincident)
  }

  /** An open curve catches a cell whose centre is within half the cell's
      height and half its width of the curve's closest point. */
  predicate OpenCurveHit<B>(geo: Geo, p: Probe, cell: Cell<B>, tolerance: real)
  {
    geo.kind == CurveObject && !geo.shape.closed &&
    p.heightOffset + tolerance < cell.height / 2.0 && p.widthOffset + tolerance < cell.width / 2.0
  }

  /** A surface catches a cell whose centre is closer than tolerance plus threshold. */
  predicate SurfaceHit(geo: Geo, p: Probe, env: Env)
  {
    geo.kind == BrepObject && p.dist < env.tolerance + env.threshold
  }

  predicate GeometricHit<B>(geo: Geo, p: Probe, cell: Cell<B>, env: Env)
  {
    ContainmentHit(geo, p) || OpenCurveHit(geo, p, cell, env.tolerance) || SurfaceHit(geo, p, env)
  }

  /** The two random acceptance tests near a region's edge, in the source's
      order; the second divides by the draw. */
  function Blend(dist: NonNeg, falloff: real, rnd: Unit): (r: Result<bool>)
    requires falloff > 0.0
    ensures r.Err? <==> rnd == 0.0
    ensures r.Err? ==> r.error == ZeroDivisionError
  {
    assert dist / falloff >= 0.0 by {
      assert dist / falloff * falloff == dist;
    }
    if rnd > dist / falloff then Ok(true)
    else if rnd == 0.0 then Err(ZeroDivisionError)
    else Ok(rnd > dist - falloff / rnd / 15.0)
  }

  /** One region seen from one cell, for the cell's draw rnd. */
  function Evaluate<B>(region: Region, cell: Cell<B>, env: Env, rnd: Unit): (r: Result<Verdict>)
    ensures region.data.None? ==> r == Err(AttributeError)
    ensures r.Err? ==> r.error in {AttributeError, EvalError, ZeroDivisionError}
    ensures r == Err(ZeroDivisionError) ==> rnd == 0.0
    ensures r.Ok? && r.value.Flagged? ==>
              region.geo.kind != OtherObject && region.data.Some? &&
              PatternOf(TokensOf(region)) == Ok(r.value.pattern)
  {
    match region.data
    case None => Err(AttributeError)
    case Some(text) =>
      var tokens := Split(text, TokenSeparator);
      match FalloffOf(tokens, env.falloffRadius)
      case Err(e) => Err(e)
      case Ok(falloff) =>
        if !(falloff > -1.0) || region.geo.kind == OtherObject then Ok(Unflagged)
        else
          var probe := cell.probe(region.geo);
          var hit := GeometricHit(region.geo, probe, cell, env);
          var flag := if !hit && falloff > 0.0 then Blend(probe.dist, falloff, rnd) else Ok(hit);
          match flag
          case Err(e) => Err(e)
          case Ok(flagged) =>
            if !flagged then Ok(Unflagged)
            else
              match PatternOf(tokens)
              case Err(e) => Err(e)
              case Ok(pattern) => Ok(Flagged(pattern))
  }

  /** The tokens of a region whose 'Data' string is present. */
  function TokensOf(region: Region): seq<string>
    requires region.data.Some?
  {
    Split(region.data.value, TokenSeparator)
  }

  /** A region without a 'Data' string raises when the scan reaches it. */
  lemma MissingDataRaises<B>(region: Region, cell: Cell<B>, env: Env, rnd: Unit)
    requires region.data.None?
    ensures Evaluate(region, cell, env, rnd) == Err(AttributeError)
  {
  }

  /** A FALLOFF of -1 or less skips the region, containment test included:
      whatever the geometry and the draw, the cell is not flagged. */
  lemma FalloffSkipsRegion<B>(region: Region, cell: Cell<B>, env: Env, rnd: Unit, falloff: real)
    requires region.data.Some? && FalloffOf(TokensOf(region), env.falloffRadius) == Ok(falloff)
    requires falloff <= -1.0
    ensures Evaluate(region, cell, env, rnd) == Ok(Unflagged)
  {
  }

  /** A region that is neither a curve nor a surface never flags a cell. */
  lemma OtherKindNeverFlags<B>(region: Region, cell: Cell<B>, env: Env, rnd: Unit)
    requires region.geo.kind == OtherObject
    ensures Evaluate(region, cell, env, rnd).Ok? ==> Evaluate(region, cell, env, rnd).value == Unflagged
  {
  }

  /** A centre inside or on a closed planar curve in the cell's plane is
      flagged, whatever the falloff above -1 and whatever the draw. */
  lemma ContainmentFlags<B>(region: Region, cell: Cell<B>, env: Env, rnd: Unit, falloff: real, pattern: Pattern)
    requires region.data.Some? && FalloffOf(TokensOf(region), env.falloffRadius) == Ok(falloff)
    requires falloff > -1.0
    requires ContainmentHit(region.geo, cell.probe(region.geo))
    requires PatternOf(TokensOf(region)) == Ok(pattern)
    ensures Evaluate(region, cell, env, rnd) == Ok(Flagged(pattern))
  {
  }

  /** A surface closer than tolerance plus threshold flags the cell. */
  lemma NearSurfaceFlags<B>(region: Region, cell: Cell<B>, env: Env, rnd: Unit, falloff: real, pattern: Pattern)
    requires region.data.Some? && FalloffOf(TokensOf(region), env.falloffRadius) == Ok(falloff)
    requires falloff > -1.0 && region.geo.kind == BrepObject
    requires cell.probe(region.geo).dist < env.tolerance + env.threshold
    requires PatternOf(TokensOf(region)) == Ok(pattern)
    ensures Evaluate(region, cell, env, rnd) == Ok(Flagged(pattern))
  {
  }

  /** With a falloff in (-1, 0] there is no blending: a curve or surface flags
      the cell exactly when its geometric test does. */
  lemma NoBlendWithoutPositiveFalloff<B>(region: Region, cell: Cell<B>, env: Env, rnd: Unit, falloff: real, pattern: Pattern)
    requires region.data.Some? && FalloffOf(TokensOf(region), env.falloffRadius) == Ok(falloff)
    requires -1.0 < falloff <= 0.0 && region.geo.kind != OtherObject
    requires PatternOf(TokensOf(region)) == Ok(pattern)
    ensures Evaluate(region, cell, env, rnd) ==
            if GeometricHit(region.geo, cell.probe(region.geo), cell, env) then Ok(Flagged(pattern)) else Ok(Unflagged)
  {
  }

  /** A region whose geometry misses the cell flags it, under a positive
      falloff, exactly when one of the two acceptance tests passes. */
  lemma BlendDecides<B>(region: Region, cell: Cell<B>, env: Env, rnd: Unit, falloff: real, pattern: Pattern)
    requires region.data.Some? && FalloffOf(TokensOf(region), env.falloffRadius) == Ok(falloff)
    requires falloff > 0.0 && rnd > 0.0 && region.geo.kind != OtherObject
    requires !GeometricHit(region.geo, cell.probe(region.geo), cell, env)
    requires PatternOf(TokensOf(region)) == Ok(pattern)
    ensures var dist := cell.probe(region.geo).dist;
            Evaluate(region, cell, env, rnd) ==
            if rnd > dist / falloff || rnd > dist - falloff / rnd / 15.0 then Ok(Flagged(pattern)) else Ok(Unflagged)
  {
  }

  /** A draw of exactly 0 reaches the second test, which divides by it. */
  lemma ZeroDrawRaises<B>(region: Region, cell: Cell<B>, env: Env, falloff: real)
    requires region.data.Some? && FalloffOf(TokensOf(region), env.falloffRadius) == Ok(falloff)
    requires falloff > 0.0 && region.geo.kind != OtherObject
    requires !GeometricHit(region.geo, cell.probe(region.geo), cell, env)
    ensures Evaluate(region, cell, env, 0.0) == Err(ZeroDivisionError)
  {
  }

  /** Blending favours closer cells: a draw that flags a cell at some
      distance flags it at any smaller distance. */
  lemma BlendCloserStillFlags(near: NonNeg, far: NonNeg, falloff: real, rnd: Unit)
    requires falloff > 0.0 && near <= far
    requires Blend(far, falloff, rnd) == Ok(true)
    ensures Blend(near, falloff, rnd) == Ok(true)
  {
    assert far / falloff - near / falloff == (far - near) / falloff;
  }

  /** Any cell closer than falloff times the draw is flagged by the first test. */
  lemma BlendWithinScaledDraw(dist: NonNeg, falloff: real, rnd: Unit)
    requires falloff > 0.0 && dist < falloff * rnd
    ensures Blend(dist, falloff, rnd) == Ok(true)
  {
    assert dist / falloff < rnd by {
      assert dist / falloff * falloff == dist;
    }
  }

  /** Falloff 2 and distance 1: a draw of 0.9 passes the first test; a draw
      of 0.3 fails both (0.3 is neither above 0.5 nor above 1 - 2/0.3/15). */
  lemma BlendScenario()
    ensures Blend(1.0, 2.0, 0.9) == Ok(true)
    ensures Blend(1.0, 2.0, 0.3) == Ok(false)
  {
  }
}
