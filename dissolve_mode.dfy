/** Overview mode (S1burstkmz2geojsontile_dissolve.py): the exterior rings of
    the kept bursts are gathered per orbit direction, dissolved into components,
    simplified, and appended to one fixed zoom-1 tile per direction. */
module DissolveMode {
  import opened Common
  import opened Text
  import opened Classifier
  import opened FeatureStore
  import opened BurstLoop
  import opened TileMode

  /** shapely's unary_union of the rings, split into its polygons, and simplify(0.05):
      the geometry library the script calls, given as parameters. */
  datatype Shapes = Shapes(union: seq<Ring> -> seq<Ring>, simplify: Ring -> Ring)

  /** A kept burst: its direction and its exterior ring. */
  datatype Footprint = Footprint(dir: Direction, ring: Ring)

  /** One pass of the burst loop: the latitude filter comes first, so a polar burst
      is skipped before its description is looked at. */
  function DissolveStep(f: InFeature): Result<Option<Footprint>>
  {
    match FirstVertex(f.geometry)
    case None => Err(EmptyGeometry)
    case Some(p) =>
      if p.lat > 84.0 || p.lat < -84.0 then Ok(None)
      else
        match OrbitToken(f.description)
        case Err(e) => Err(e)
        case Ok(orb) =>
          match Classify(orb)
          case Err(e) => Err(e)
          case Ok(d) => Ok(Some(Footprint(d, f.geometry.coordinates[0])))
  }

  /** What one pass does, case by case. */
  lemma DissolveStepMeaning(f: InFeature)
    ensures FirstVertex(f.geometry).None? ==> DissolveStep(f) == Err(EmptyGeometry)
    ensures FirstVertex(f.geometry).Some? && !InMercatorBand(FirstVertex(f.geometry).value.lat) ==>
              DissolveStep(f) == Ok(None)
    ensures FirstVertex(f.geometry).Some? && InMercatorBand(FirstVertex(f.geometry).value.lat) ==>
              if |Split(f.description, '>')| < 12 then DissolveStep(f) == Err(MissingSegment(11))
              else if Token(f.description, 11).value !in {"ASCENDING", "DESCENDING"} then
                DissolveStep(f) == Err(UnknownOrbit(Token(f.description, 11).value))
              else DissolveStep(f).Ok? && DissolveStep(f).value.Some?
    ensures DissolveStep(f).Ok? && DissolveStep(f).value.Some? ==>
              DissolveStep(f).value.value.ring == f.geometry.coordinates[0] &&
              OrbitName(DissolveStep(f).value.value.dir) == Token(f.description, 11).value
  {
  }

  function DissolveStepFn(): InFeature -> Result<Option<Footprint>>
  {
    f => DissolveStep(f)
  }

  /** The rings of direction d among the footprints, in order (polygonsA or polygonsD). */
  function RingsOf(d: Direction, fps: seq<Footprint>): seq<Ring>
  {
    if fps == [] then []
    else RingsOf(d, fps[..|fps| - 1]) +
         (if fps[|fps| - 1].dir == d then [fps[|fps| - 1].ring] else [])
  }

  /** `color` after the loop: that of the last kept burst, or what it was before. */
  function LastColor(color0: Option<string>, fps: seq<Footprint>): Option<string>
  {
    if fps == [] then color0 else Some(ColorOf(fps[|fps| - 1].dir))
  }

  lemma RingsOfSnoc(fps: seq<Footprint>, fp: Footprint)
    ensures RingsOf(Ascending, fps + [fp]) ==
              RingsOf(Ascending, fps) + (if fp.dir == Ascending then [fp.ring] else [])
    ensures RingsOf(Descending, fps + [fp]) ==
              RingsOf(Descending, fps) + (if fp.dir == Descending then [fp.ring] else [])
    ensures LastColor(None, fps + [fp]) == Some(ColorOf(fp.dir))
  {
    assert (fps + [fp])[..|fps|] == fps;
  }

  /** Every kept ring goes to exactly one of the two lists. */
  lemma {:induction false} RingsOfSplit(fps: seq<Footprint>)
    ensures |RingsOf(Ascending, fps)| + |RingsOf(Descending, fps)| == |fps|
  {
    if fps != [] {
      RingsOfSplit(fps[..|fps| - 1]);
    }
  }

  lemma {:induction false} RingsOfConcat(d: Direction, a: seq<Footprint>, b: seq<Footprint>)
    ensures RingsOf(d, a + b) == RingsOf(d, a) + RingsOf(d, b)
    decreases |b|
  {
    if b == [] {
      assert a + b == a;
    } else {
      var init := b[..|b| - 1];
      RingsOfConcat(d, a, init);
      assert (a + b)[..|a + b| - 1] == a + init;
    }
  }

  /** A burst kept by the latitude filter (its first vertex exists and is within the band). */
  predicate Survives(f: InFeature)
  {
    FirstVertex(f.geometry).Some? && InMercatorBand(FirstVertex(f.geometry).value.lat)
  }

  /** The bursts the latitude filter keeps, in input order. */
  function Survivors(fs: seq<InFeature>): (r: seq<InFeature>)
    ensures forall f :: f in r ==> f in fs && Survives(f)
    ensures forall f :: f in fs && Survives(f) ==> f in r
    ensures |r| <= |fs|
  {
    if fs == [] then []
    else (if Survives(fs[0]) then [fs[0]] else []) + Survivors(fs[1..])
  }

  /** The exterior rings of the kept bursts whose orbit token names d, in input order. */
  function SurvivorRings(d: Direction, fs: seq<InFeature>): seq<Ring>
  {
    if fs == [] then []
    else (if Survives(fs[0]) && Token(fs[0].description, 11) == Some(OrbitName(d))
          then [fs[0].geometry.coordinates[0]] else [])
         + SurvivorRings(d, fs[1..])
  }

  lemma {:induction false} AllOkTail<T, U>(step: T -> Result<Option<U>>, xs: seq<T>)
    requires xs != [] && AllOk(step, xs)
    ensures step(xs[0]).Ok? && AllOk(step, xs[1..])
  {
    forall k | 0 <= k < |xs| - 1 ensures step(xs[1..][k]).Ok? {
      assert xs[1..][k] == xs[k + 1];
    }
  }

  /** What one successful step contributes, in the terms of the reference definitions. */
  lemma StepCollected(f: InFeature)
    requires DissolveStep(f).Ok?
    ensures DissolveStep(f).value.Some? <==> Survives(f)
    ensures DissolveStep(f).value.Some? ==>
              forall d :: RingsOf(d, [DissolveStep(f).value.value]) ==
                          if Token(f.description, 11) == Some(OrbitName(d)) then [f.geometry.coordinates[0]] else []
  {
    if DissolveStep(f).value.Some? {
      var fp := DissolveStep(f).value.value;
      assert [fp][..0] == [];
      forall d ensures RingsOf(d, [fp]) ==
                       if Token(f.description, 11) == Some(OrbitName(d)) then [f.geometry.coordinates[0]] else []
      {
        assert fp.dir == d <==> OrbitName(fp.dir) == OrbitName(d);
      }
    }
  }

  lemma {:induction false} YieldsCollected(fs: seq<InFeature>)
    requires AllOk(DissolveStepFn(), fs)
    ensures |Yields(DissolveStepFn(), fs)| == |Survivors(fs)|
    ensures forall d :: RingsOf(d, Yields(DissolveStepFn(), fs)) == SurvivorRings(d, fs)
  {
    if fs != [] {
      AllOkTail(DissolveStepFn(), fs);
      YieldsCollected(fs[1..]);
      var r := DissolveStepFn()(fs[0]);
      assert r == DissolveStep(fs[0]);
      StepCollected(fs[0]);
      var head := if r.value.Some? then [r.value.value] else [];
      var rest := Yields(DissolveStepFn(), fs[1..]);
      assert Yields(DissolveStepFn(), fs) == head + rest;
      forall d ensures RingsOf(d, Yields(DissolveStepFn(), fs)) == SurvivorRings(d, fs) {
        RingsOfConcat(d, head, rest);
      }
    }
  }

  /** After a loop without error, the kept bursts are exactly those the latitude filter
      keeps, and each of their rings sits in the list of its own direction, in input
      order, so |polygonsA| + |polygonsD| is the number of kept bursts. */
  lemma CollectedRings(fs: seq<InFeature>)
    requires Scan(DissolveStepFn(), fs).err == None
    ensures var outs := Scan(DissolveStepFn(), fs).outs;
            RingsOf(Ascending, outs) == SurvivorRings(Ascending, fs) &&
            RingsOf(Descending, outs) == SurvivorRings(Descending, fs) &&
            |RingsOf(Ascending, outs)| + |RingsOf(Descending, outs)| == |Survivors(fs)|
  {
    ScanFails(DissolveStepFn(), fs);
    ScanComplete(DissolveStepFn(), fs);
    YieldsCollected(fs);
    RingsOfSplit(Scan(DissolveStepFn(), fs).outs);
  }

  /** A kept burst with an orbit token that names no direction stops the loop. */
  lemma UnknownOrbitRaises(fs: seq<InFeature>, k: nat)
    requires k < |fs| && Survives(fs[k])
    requires Token(fs[k].description, 11).None? ||
             Token(fs[k].description, 11).value !in {"ASCENDING", "DESCENDING"}
    ensures Scan(DissolveStepFn(), fs).err.Some?
  {
    SplitLength(fs[k].description, '>');
    assert DissolveStepFn()(fs[k]).Err?;
    ScanFails(DissolveStepFn(), fs);
  }

  /** The burst loop over one dataset: filter by latitude, classify, collect the outer ring. */
  method CollectRings(fs: seq<InFeature>, color0: Option<string>)
    returns (polygonsA: seq<Ring>, polygonsD: seq<Ring>, color: Option<string>, err: Option<Error>)
    ensures var o := Scan(DissolveStepFn(), fs);
            polygonsA == RingsOf(Ascending, o.outs) && polygonsD == RingsOf(Descending, o.outs) &&
            color == LastColor(color0, o.outs) && err == o.err
  {
    polygonsA, polygonsD, color := [], [], color0;
    ghost var outs: seq<Footprint> := [];
    var k := 0;
    while k < |fs|
      invariant 0 <= k <= |fs|
      invariant Scan(DissolveStepFn(), fs[..k]) == Outcome(outs, None)
      invariant polygonsA == RingsOf(Ascending, outs) && polygonsD == RingsOf(Descending, outs)
      invariant color == LastColor(color0, outs)
    {
      ScanStep(DissolveStepFn(), fs, k);
      var feature := fs[k];
      var first := FirstVertex(feature.geometry);
      if first.None? {
        assert DissolveStep(feature) == Err(EmptyGeometry);
        ScanAfterError(DissolveStepFn(), fs, k + 1);
        return polygonsA, polygonsD, color, Some(EmptyGeometry);
      }
      var lat := first.value.lat;
      if lat > 84.0 || lat < -84.0 {
        assert DissolveStep(feature) == Ok(None);
        k := k + 1;
        continue;
      }
      var orb := OrbitToken(feature.description);
      if orb.Err? {
        assert DissolveStep(feature) == Err(orb.error);
        ScanAfterError(DissolveStepFn(), fs, k + 1);
        return polygonsA, polygonsD, color, Some(orb.error);
      }
      var dir := Classify(orb.value);
      if dir.Err? {
        assert DissolveStep(feature) == Err(dir.error);
        ScanAfterError(DissolveStepFn(), fs, k + 1);
        return polygonsA, polygonsD, color, Some(dir.error);
      }
      ghost var fp := Footprint(dir.value, feature.geometry.coordinates[0]);
      assert DissolveStep(feature) == Ok(Some(fp));
      RingsOfSnoc(outs, fp);
      if dir.value == Ascending {
        color := Some(ColorA);
        polygonsA := polygonsA + [feature.geometry.coordinates[0]];
      } else {
        color := Some(ColorD);
        polygonsD := polygonsD + [feature.geometry.coordinates[0]];
      }
      outs := outs + [fp];
      k := k + 1;
    }
    assert fs[..k] == fs;
    err := None;
  }

  // ---- the overview features ----

  /** The single overview file of a direction and partition: tile 1/1/0 of its tree. */
  function OverviewPath(d: Direction, part: int): string
  {
    Join([TreeName(d, part), "1", "1", "0.geojson"], '/')
  }

  /** The two directions of a partition write two different overview files. */
  lemma OverviewPathsDiffer(part: int)
    ensures OverviewPath(Ascending, part) != OverviewPath(Descending, part)
  {
    var a := OverviewPath(Ascending, part);
    var d := OverviewPath(Descending, part);
    assert a[7] == 'A' && d[7] == 'D';
  }

  /** One simplified component as a feature named path+AD, in the colour left in `color`. */
  function OverviewFeature(prefix: string, d: Direction, color: string, simplify: Ring -> Ring, comp: Ring): Feature
  {
    Styled(prefix + [Tag(d)], color, Geometry("Polygon", [simplify(comp)]))
  }

  /** One append per component, in component order, all to the overview file of d. */
  function OverviewAppends(prefix: string, part: int, d: Direction, color: string,
                           simplify: Ring -> Ring, comps: seq<Ring>): (r: seq<Append>)
    ensures |r| == |comps|
  {
    if comps == [] then []
    else OverviewAppends(prefix, part, d, color, simplify, comps[..|comps| - 1]) +
         [Append(OverviewPath(d, part), OverviewFeature(prefix, d, color, simplify, comps[|comps| - 1]))]
  }

  /** Append k is component k, simplified, sent to the overview file of d. */
  lemma {:induction false} OverviewAppendsEach(prefix: string, part: int, d: Direction, color: string,
                                               simplify: Ring -> Ring, comps: seq<Ring>)
    ensures forall k :: 0 <= k < |comps| ==>
              OverviewAppends(prefix, part, d, color, simplify, comps)[k] ==
              Append(OverviewPath(d, part), OverviewFeature(prefix, d, color, simplify, comps[k]))
  {
    if comps != [] {
      var init := comps[..|comps| - 1];
      OverviewAppendsEach(prefix, part, d, color, simplify, init);
      forall k | 0 <= k < |comps|
        ensures OverviewAppends(prefix, part, d, color, simplify, comps)[k] ==
                Append(OverviewPath(d, part), OverviewFeature(prefix, d, color, simplify, comps[k]))
      {
        if k < |init| {
          assert comps[k] == init[k];
        }
      }
    }
  }

  /** The overview appends: the A components, then the D components. With `color` never set,
      the first component raises before anything is written. */
  function OverviewPlan(prefix: string, part: int, polygonsA: seq<Ring>, polygonsD: seq<Ring>,
                        color: Option<string>, shapes: Shapes): Outcome<Append>
  {
    var compsA := shapes.union(polygonsA);
    var compsD := shapes.union(polygonsD);
    match color
    case None =>
      if compsA != [] || compsD != [] then Outcome([], Some(UnboundColor)) else Outcome([], None)
    case Some(c) =>
      Outcome(OverviewAppends(prefix, part, Ascending, c, shapes.simplify, compsA) +
              OverviewAppends(prefix, part, Descending, c, shapes.simplify, compsD), None)
  }

  /** One more component of the overview loop. */
  lemma OverviewAppendsSnoc(prefix: string, part: int, d: Direction, color: string,
                            simplify: Ring -> Ring, comps: seq<Ring>, k: nat)
    requires k < |comps|
    ensures OverviewAppends(prefix, part, d, color, simplify, comps[..k + 1]) ==
            OverviewAppends(prefix, part, d, color, simplify, comps[..k]) +
            [Append(OverviewPath(d, part), OverviewFeature(prefix, d, color, simplify, comps[k]))]
  {
    assert comps[..k + 1][..k] == comps[..k];
    assert comps[..k + 1][k] == comps[k];
  }

  /** The component loop once `color` is bound: one append per component. */
  method EmitComponents(store: Store, prefix: string, part: int, d: Direction, color: string,
                        simplify: Ring -> Ring, dissolved: seq<Ring>)
    modifies store
    ensures store.files == ApplyAll(old(store.files), OverviewAppends(prefix, part, d, color, simplify, dissolved))
  {
    ghost var done: seq<Append> := [];
    var k := 0;
    while k < |dissolved|
      invariant 0 <= k <= |dissolved|
      invariant done == OverviewAppends(prefix, part, d, color, simplify, dissolved[..k])
      invariant store.files == ApplyAll(old(store.files), done)
    {
      var poly2 := simplify(dissolved[k]);
      var name2 := prefix + [Tag(d)];
      var outFeature := Styled(name2, color, Geometry("Polygon", [poly2]));
      var target := OverviewPath(d, part);
      OverviewAppendsSnoc(prefix, part, d, color, simplify, dissolved, k);
      ApplyAllSnoc(old(store.files), done, Append(target, outFeature));
      store.AddFeature(outFeature, target);
      done := done + [Append(target, outFeature)];
      k := k + 1;
    }
    assert dissolved[..k] == dissolved;
  }

  /** One direction of the overview: with `color` never bound, the first component
      raises before anything is written; with no component nothing happens. */
  method EmitDirection(store: Store, prefix: string, part: int, d: Direction, polygons: seq<Ring>,
                       color: Option<string>, shapes: Shapes) returns (err: Option<Error>)
    modifies store
    ensures var comps := shapes.union(polygons);
            if color.None? && comps != [] then err == Some(UnboundColor) && store.files == old(store.files)
            else err == None &&
                 store.files == ApplyAll(old(store.files),
                                         if comps == [] then []
                                         else OverviewAppends(prefix, part, d, color.value, shapes.simplify, comps))
  {
    var dissolved := shapes.union(polygons);
    if color.None? {
      if dissolved != [] {
        return Some(UnboundColor);
      }
      return None;
    }
    EmitComponents(store, prefix, part, d, color.value, shapes.simplify, dissolved);
    return None;
  }

  /** Both directions: A first, then D. */
  method EmitOverview(store: Store, prefix: string, part: int, polygonsA: seq<Ring>, polygonsD: seq<Ring>,
                      color: Option<string>, shapes: Shapes) returns (err: Option<Error>)
    modifies store
    ensures store.files == ApplyAll(old(store.files), OverviewPlan(prefix, part, polygonsA, polygonsD, color, shapes).outs)
    ensures err == OverviewPlan(prefix, part, polygonsA, polygonsD, color, shapes).err
  {
    err := EmitDirection(store, prefix, part, Ascending, polygonsA, color, shapes);
    if err.Some? {
      return;
    }
    ghost var mid := store.files;
    err := EmitDirection(store, prefix, part, Descending, polygonsD, color, shapes);
    if color.Some? {
      ApplyAllConcat(old(store.files),
                     OverviewAppends(prefix, part, Ascending, color.value, shapes.simplify, shapes.union(polygonsA)),
                     OverviewAppends(prefix, part, Descending, color.value, shapes.simplify, shapes.union(polygonsD)));
    }
  }

  /** The overview features of one direction, one per component, in component order. */
  function OverviewFeatures(prefix: string, d: Direction, color: string, simplify: Ring -> Ring,
                            comps: seq<Ring>): (r: seq<Feature>)
    ensures |r| == |comps|
    ensures forall k :: 0 <= k < |comps| ==>
              r[k].name == prefix + [Tag(d)] && r[k].color == color && r[k].fillColor == color &&
              r[k].geometry == Geometry("Polygon", [simplify(comps[k])])
  {
    if comps == [] then []
    else OverviewFeatures(prefix, d, color, simplify, comps[..|comps| - 1]) +
         [OverviewFeature(prefix, d, color, simplify, comps[|comps| - 1])]
  }

  lemma {:induction false} FeaturesForOverview(prefix: string, part: int, d: Direction, e: Direction,
                                               color: string, simplify: Ring -> Ring, comps: seq<Ring>)
    ensures FeaturesFor(OverviewAppends(prefix, part, d, color, simplify, comps), OverviewPath(e, part)) ==
            if d == e then OverviewFeatures(prefix, d, color, simplify, comps) else []
  {
    OverviewPathsDiffer(part);
    if comps != [] {
      var init := comps[..|comps| - 1];
      FeaturesForOverview(prefix, part, d, e, color, simplify, init);
      var a := Append(OverviewPath(d, part), OverviewFeature(prefix, d, color, simplify, comps[|comps| - 1]));
      assert OverviewAppends(prefix, part, d, color, simplify, comps) ==
             OverviewAppends(prefix, part, d, color, simplify, init) + [a];
      var pe := OverviewPath(e, part);
      FeaturesForConcat(OverviewAppends(prefix, part, d, color, simplify, init), [a], pe);
      assert [a][1..] == [];
      assert FeaturesFor([a], pe) == (if d == e then [a.feature] else []) + FeaturesFor([], pe);
      assert OverviewFeatures(prefix, d, color, simplify, comps) ==
             OverviewFeatures(prefix, d, color, simplify, init) + [a.feature];
    }
  }

  /** Once a colour is bound, the overview file of each direction receives one feature per
      component of that direction's union, in component order, each named path+AD, each
      the simplified component, and each in the one colour `color` holds, whatever the
      direction. */
  lemma OverviewFile(files: Files, prefix: string, part: int, polygonsA: seq<Ring>, polygonsD: seq<Ring>,
                     color: string, shapes: Shapes, d: Direction)
    ensures var p := OverviewPlan(prefix, part, polygonsA, polygonsD, Some(color), shapes);
            var comps := shapes.union(if d == Ascending then polygonsA else polygonsD);
            p.err == None &&
            Lookup(ApplyAll(files, p.outs), OverviewPath(d, part)) ==
              Lookup(files, OverviewPath(d, part)) + OverviewFeatures(prefix, d, color, shapes.simplify, comps)
  {
    var asA := OverviewAppends(prefix, part, Ascending, color, shapes.simplify, shapes.union(polygonsA));
    var asD := OverviewAppends(prefix, part, Descending, color, shapes.simplify, shapes.union(polygonsD));
    assert OverviewPlan(prefix, part, polygonsA, polygonsD, Some(color), shapes) == Outcome(asA + asD, None);
    OverviewFileOf(files, prefix, part, color, shapes.simplify, shapes.union(polygonsA), shapes.union(polygonsD), d);
  }

  lemma OverviewFileOf(files: Files, prefix: string, part: int, color: string, simplify: Ring -> Ring,
                       compsA: seq<Ring>, compsD: seq<Ring>, d: Direction)
    ensures var asA := OverviewAppends(prefix, part, Ascending, color, simplify, compsA);
            var asD := OverviewAppends(prefix, part, Descending, color, simplify, compsD);
            Lookup(ApplyAll(files, asA + asD), OverviewPath(d, part)) ==
              Lookup(files, OverviewPath(d, part)) +
              OverviewFeatures(prefix, d, color, simplify, if d == Ascending then compsA else compsD)
  {
    var asA := OverviewAppends(prefix, part, Ascending, color, simplify, compsA);
    var asD := OverviewAppends(prefix, part, Descending, color, simplify, compsD);
    var path := OverviewPath(d, part);
    ApplyAllLookup(files, asA + asD, path);
    FeaturesForConcat(asA, asD, path);
    FeaturesForOverview(prefix, part, Ascending, d, color, simplify, compsA);
    FeaturesForOverview(prefix, part, Descending, d, color, simplify, compsD);
    var mine := OverviewFeatures(prefix, d, color, simplify, if d == Ascending then compsA else compsD);
    var sent := FeaturesFor(asA + asD, path);
    if d == Ascending {
      assert sent == mine + [];
      assert mine + [] == mine;
    } else {
      assert sent == [] + mine;
      assert [] + mine == mine;
    }
    assert Lookup(ApplyAll(files, asA + asD), path) == Lookup(files, path) + sent;
  }

  /** The colour of the overview features is the last kept burst's, not the direction's:
      with an ascending burst followed by a descending one, the ascending overview
      features are red. */
  lemma OverviewColorLeaks(fa: InFeature, fd: InFeature, ra: Ring, rd: Ring,
                           color0: Option<string>, prefix: string, part: int, shapes: Shapes)
    requires DissolveStep(fa) == Ok(Some(Footprint(Ascending, ra)))
    requires DissolveStep(fd) == Ok(Some(Footprint(Descending, rd)))
    requires shapes.union([ra]) != []
    ensures var o := Scan(DissolveStepFn(), [fa, fd]);
            var color := LastColor(color0, o.outs);
            var p := OverviewPlan(prefix, part, RingsOf(Ascending, o.outs), RingsOf(Descending, o.outs), color, shapes);
            o.err == None && RingsOf(Ascending, o.outs) == [ra] && color == Some(ColorD) &&
            p.outs[0].path == OverviewPath(Ascending, part) &&
            p.outs[0].feature.color == ColorD && ColorD != ColorA
  {
    AscendingThenDescending(fa, fd, ra, rd, color0);
    var o := Scan(DissolveStepFn(), [fa, fd]);
    FirstOverviewAppend(prefix, part, [ra], RingsOf(Descending, o.outs), ColorD, shapes);
  }

  /** The scan of an ascending then a descending burst. */
  lemma AscendingThenDescending(fa: InFeature, fd: InFeature, ra: Ring, rd: Ring, color0: Option<string>)
    requires DissolveStep(fa) == Ok(Some(Footprint(Ascending, ra)))
    requires DissolveStep(fd) == Ok(Some(Footprint(Descending, rd)))
    ensures var o := Scan(DissolveStepFn(), [fa, fd]);
            o.err == None && RingsOf(Ascending, o.outs) == [ra] && LastColor(color0, o.outs) == Some(ColorD)
  {
    var step := DissolveStepFn();
    var fpA, fpD := Footprint(Ascending, ra), Footprint(Descending, rd);
    assert step(fa) == Ok(Some(fpA));
    assert step(fd) == Ok(Some(fpD));
    assert [fa, fd][..1] == [fa];
    assert [fa][..0] == [];
    assert Scan(step, [fa]) == Outcome([fpA], None);
    assert Scan(step, [fa, fd]) == Outcome([fpA, fpD], None);
    assert [fpA, fpD][..1] == [fpA];
    assert [fpA][..0] == [];
    assert RingsOf(Ascending, [fpA]) == [ra];
  }

  /** With a colour bound, the first overview append is the first A component's. */
  lemma FirstOverviewAppend(prefix: string, part: int, polygonsA: seq<Ring>, polygonsD: seq<Ring>,
                            color: string, shapes: Shapes)
    requires shapes.union(polygonsA) != []
    ensures var p := OverviewPlan(prefix, part, polygonsA, polygonsD, Some(color), shapes);
            |p.outs| > 0 && p.outs[0].path == OverviewPath(Ascending, part) && p.outs[0].feature.color == color
  {
    var asA := OverviewAppends(prefix, part, Ascending, color, shapes.simplify, shapes.union(polygonsA));
    var asD := OverviewAppends(prefix, part, Descending, color, shapes.simplify, shapes.union(polygonsD));
    assert OverviewPlan(prefix, part, polygonsA, polygonsD, Some(color), shapes).outs == asA + asD;
    OverviewAppendsEach(prefix, part, Ascending, color, shapes.simplify, shapes.union(polygonsA));
    assert (asA + asD)[0] == asA[0];
  }

  /** If the union of no rings has no components, the unbound-colour failure never happens. */
  lemma ColorAlwaysBound(ds: Dataset, shapes: Shapes)
    requires shapes.union([]) == []
    ensures DatasetPlan(ds, None, shapes).err != Some(UnboundColor)
  {
    if PartitionIndex(ds.name).Ok? {
      var o := Scan(DissolveStepFn(), ds.features);
      if o.err.Some? {
        ScanStops(DissolveStepFn(), ds.features);
      } else if LastColor(None, o.outs).None? {
        assert o.outs == [];
      }
    }
  }

  // ---- one dataset and the whole run ----

  /** What a dataset leaves behind: its appends, the `color` carried on, and its error. */
  datatype DatasetOutcome = DatasetOutcome(outs: seq<Append>, color: Option<string>, err: Option<Error>)

  function DatasetPlan(ds: Dataset, color0: Option<string>, shapes: Shapes): DatasetOutcome
  {
    match PartitionIndex(ds.name)
    case Err(e) => DatasetOutcome([], color0, Some(e))
    case Ok(i) =>
      var o := Scan(DissolveStepFn(), ds.features);
      var color := LastColor(color0, o.outs);
      if o.err.Some? then DatasetOutcome([], color, o.err)
      else
        var p := OverviewPlan(Prefix3(ds.name), i, RingsOf(Ascending, o.outs), RingsOf(Descending, o.outs), color, shapes);
        DatasetOutcome(p.outs, color, p.err)
  }

  /** DatasetPlan as a value the run loop can be given. */
  function DatasetFn(shapes: Shapes): (Dataset, Option<string>) -> DatasetOutcome
  {
    (ds, color0) => DatasetPlan(ds, color0, shapes)
  }

  /** The whole run, `color` carried from dataset to dataset, stopping at the first error. */
  function RunPlan(dss: seq<Dataset>, shapes: Shapes): DatasetOutcome
  {
    if dss == [] then DatasetOutcome([], None, None)
    else
      var prev := RunPlan(dss[..|dss| - 1], shapes);
      if prev.err.Some? then prev
      else
        var p := DatasetFn(shapes)(dss[|dss| - 1], prev.color);
        DatasetOutcome(prev.outs + p.outs, p.color, p.err)
  }

  /** The body of the loop over KMZ files. */
  method ProcessDataset(store: Store, ds: Dataset, color0: Option<string>, shapes: Shapes)
    returns (color: Option<string>, err: Option<Error>)
    modifies store
    ensures store.files == ApplyAll(old(store.files), DatasetFn(shapes)(ds, color0).outs)
    ensures color == DatasetFn(shapes)(ds, color0).color
    ensures err == DatasetFn(shapes)(ds, color0).err
  {
    var path := Prefix3(ds.name);
    var i := PartitionIndex(ds.name);
    if i.Err? {
      return color0, Some(i.error);
    }
    var polygonsA, polygonsD;
    polygonsA, polygonsD, color, err := CollectRings(ds.features, color0);
    if err.Some? {
      return;
    }
    err := EmitOverview(store, path, i.value, polygonsA, polygonsD, color, shapes);
  }

  lemma {:induction false} RunPlanAfterError(dss: seq<Dataset>, shapes: Shapes, n: nat)
    requires n <= |dss| && RunPlan(dss[..n], shapes).err.Some?
    ensures RunPlan(dss, shapes) == RunPlan(dss[..n], shapes)
    decreases |dss| - n
  {
    if n < |dss| {
      assert dss[..n + 1][..n] == dss[..n];
      RunPlanAfterError(dss, shapes, n + 1);
    } else {
      assert dss[..n] == dss;
    }
  }

  /** One more dataset after an error-free prefix. */
  lemma RunPlanStep(dss: seq<Dataset>, shapes: Shapes, n: nat)
    requires n < |dss| && RunPlan(dss[..n], shapes).err == None
    ensures var prev := RunPlan(dss[..n], shapes);
            var p := DatasetFn(shapes)(dss[n], prev.color);
            RunPlan(dss[..n + 1], shapes) == DatasetOutcome(prev.outs + p.outs, p.color, p.err)
  {
    assert dss[..n + 1][..n] == dss[..n];
    assert dss[..n + 1][n] == dss[n];
  }

  /** The whole run: every dataset in turn. */
  method Run(store: Store, dss: seq<Dataset>, shapes: Shapes) returns (err: Option<Error>)
    modifies store
    ensures store.files == ApplyAll(old(store.files), RunPlan(dss, shapes).outs)
    ensures err == RunPlan(dss, shapes).err
  {
    var color: Option<string> := None;
    var n := 0;
    while n < |dss|
      invariant 0 <= n <= |dss|
      invariant RunPlan(dss[..n], shapes).err == None
      invariant color == RunPlan(dss[..n], shapes).color
      invariant store.files == ApplyAll(old(store.files), RunPlan(dss[..n], shapes).outs)
    {
      ghost var prev := RunPlan(dss[..n], shapes);
      ghost var p := DatasetFn(shapes)(dss[n], prev.color);
      RunPlanStep(dss, shapes, n);
      color, err := ProcessDataset(store, dss[n], color, shapes);
      ApplyAllConcat(old(store.files), prev.outs, p.outs);
      if err.Some? {
        RunPlanAfterError(dss, shapes, n + 1);
        return;
      }
      n := n + 1;
    }
    assert dss[..n] == dss;
    return None;
  }
}
