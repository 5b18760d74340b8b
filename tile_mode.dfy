/** Full-resolution tiling (S1burstkmz2geojsontile.py): every burst of every
    dataset is classified, filtered by latitude and appended to the tile of
    its first vertex. */
module TileMode {
  import opened Common
  import opened Text
  import opened Classifier
  import opened TileIndex
  import opened FeatureStore
  import opened BurstLoop

  const BaseName: string := "S1burst"

  /** The y index of latlon2tileid (a logarithm of a tangent), given as a parameter. */
  type TileYFn = (real, int) -> int

  /** What every burst of one dataset shares: the id prefix of the file name,
      the partition index, the zoom level and the y formula. */
  datatype Config = Config(prefix: string, part: int, zl: int, tileY: TileYFn)

  /** The directory of one partition and direction: the base name, A or D, the partition. */
  function TreeName(d: Direction, part: int): string
  {
    BaseName + [Tag(d)] + IntToString(part)
  }

  /** The tile file: the tree, then zoom, column and row as directories and file name. */
  function TilePath(d: Direction, part: int, zl: int, x: int, y: int): string
  {
    Join([TreeName(d, part), IntToString(zl), IntToString(x), IntToString(y) + ".geojson"], '/')
  }

  lemma IntToStringHasNoSlash(n: int)
    ensures '/' !in IntToString(n)
  {
    var s := IntToString(n);
    if n < 0 {
      assert s == "-" + NatToString(-n);
      forall k | 0 <= k < |s| ensures s[k] != '/' {
        if k > 0 { assert s[k] == NatToString(-n)[k - 1]; }
      }
    }
  }

  /** Distinct tiles are distinct files. */
  lemma TilePathInjective(d1: Direction, p1: int, z1: int, x1: int, y1: int,
                          d2: Direction, p2: int, z2: int, x2: int, y2: int)
    requires TilePath(d1, p1, z1, x1, y1) == TilePath(d2, p2, z2, x2, y2)
    ensures d1 == d2 && p1 == p2 && z1 == z2 && x1 == x2 && y1 == y2
  {
    var parts1 := [TreeName(d1, p1), IntToString(z1), IntToString(x1), IntToString(y1) + ".geojson"];
    var parts2 := [TreeName(d2, p2), IntToString(z2), IntToString(x2), IntToString(y2) + ".geojson"];
    IntToStringHasNoSlash(p1); IntToStringHasNoSlash(z1); IntToStringHasNoSlash(x1); IntToStringHasNoSlash(y1);
    IntToStringHasNoSlash(p2); IntToStringHasNoSlash(z2); IntToStringHasNoSlash(x2); IntToStringHasNoSlash(y2);
    SplitJoin(parts1, '/');
    SplitJoin(parts2, '/');
    assert parts1 == parts2;
    assert TreeName(d1, p1)[7] == Tag(d1) && TreeName(d2, p2)[7] == Tag(d2);
    assert TreeName(d1, p1)[8..] == IntToString(p1) && TreeName(d2, p2)[8..] == IntToString(p2);
    IntToStringInjective(p1, p2);
    IntToStringInjective(z1, z2);
    IntToStringInjective(x1, x2);
    var n1 := |IntToString(y1)|;
    var n2 := |IntToString(y2)|;
    assert (IntToString(y1) + ".geojson")[..n1] == IntToString(y1);
    assert (IntToString(y2) + ".geojson")[..n2] == IntToString(y2);
    IntToStringInjective(y1, y2);
  }

  /** What the loop knows about a burst once its description and geometry are read. */
  datatype Burst = Burst(dir: Direction, bid: string, swath: string, first: Point, geometry: Geometry)

  /** Read the three tokens, classify the orbit, then read the first vertex, failing
      at the first step that fails; the orbit is judged before the geometry is looked at. */
  function ParseBurst(f: InFeature): Result<Burst>
  {
    match TileFields(f.description)
    case Err(e) => Err(e)
    case Ok(fields) =>
      match Classify(fields.orb)
      case Err(e) => Err(e)
      case Ok(dir) =>
        match FirstVertex(f.geometry)
        case None => Err(EmptyGeometry)
        case Some(p) => Ok(Burst(dir, fields.bid, fields.swath, p, f.geometry))
  }

  /** What a parsed burst holds, and when parsing fails: all three tokens must exist,
      the orbit must be known, and only then is the first vertex read. An unknown orbit
      is fatal whatever the geometry, so even a polar burst with one aborts the run. */
  lemma ParseBurstMeaning(f: InFeature)
    ensures ParseBurst(f).Ok? <==>
              |Split(f.description, '>')| >= 24 &&
              Token(f.description, 11).value in {"ASCENDING", "DESCENDING"} &&
              FirstVertex(f.geometry).Some?
    ensures ParseBurst(f).Ok? ==>
              var b := ParseBurst(f).value;
              OrbitName(b.dir) == Token(f.description, 11).value &&
              b.bid == Token(f.description, 17).value &&
              b.swath == Token(f.description, 23).value &&
              b.first == f.geometry.coordinates[0][0] &&
              b.geometry == f.geometry
    ensures |Split(f.description, '>')| >= 24 &&
            Token(f.description, 11).value !in {"ASCENDING", "DESCENDING"} ==>
              ParseBurst(f) == Err(UnknownOrbit(Token(f.description, 11).value))
    ensures |Split(f.description, '>')| < 24 ==> ParseBurst(f).Err? && ParseBurst(f).error.MissingSegment?
  {
  }

  /** The feature name: orbit prefix and A or D, then swath and burst id, space-separated. */
  function BurstName(prefix: string, b: Burst): string
  {
    prefix + [Tag(b.dir)] + " " + b.swath + " " + b.bid
  }

  /** The append for a kept burst: its tile file and its styled feature. */
  function Route(c: Config, b: Burst): (a: Append)
    ensures a.path == TilePath(b.dir, c.part, c.zl, TileX(b.first.lon, c.zl), c.tileY(b.first.lat, c.zl))
    ensures a.feature.name == BurstName(c.prefix, b)
    ensures a.feature.color == ColorOf(b.dir) && a.feature.fillColor == ColorOf(b.dir)
    ensures a.feature.geometry == b.geometry
  {
    var x := TileX(b.first.lon, c.zl);
    var y := c.tileY(b.first.lat, c.zl);
    Append(TilePath(b.dir, c.part, c.zl, x, y), Styled(BurstName(c.prefix, b), ColorOf(b.dir), b.geometry))
  }

  /** One pass of the burst loop: an error, a skipped burst, or one append. */
  function TileStep(c: Config, f: InFeature): (r: Result<Option<Append>>)
    ensures r.Err? <==> ParseBurst(f).Err?
    ensures r.Err? ==> r.error == ParseBurst(f).error
    ensures r.Ok? ==> (r.value.Some? <==> InMercatorBand(ParseBurst(f).value.first.lat))
    ensures r.Ok? && r.value.Some? ==> r.value.value == Route(c, ParseBurst(f).value)
  {
    match ParseBurst(f)
    case Err(e) => Err(e)
    case Ok(b) => if b.first.lat > 84.0 || b.first.lat < -84.0 then Ok(None) else Ok(Some(Route(c, b)))
  }

  /** TileStep for the bursts of one dataset, as a value the loop can be given. */
  function StepFn(c: Config): InFeature -> Result<Option<Append>>
  {
    f => TileStep(c, f)
  }

  /** The burst loop over fs: the appends made up to the first burst that raises. */
  function TilePlan(c: Config, fs: seq<InFeature>): Outcome<Append>
  {
    Scan(StepFn(c), fs)
  }

  /** One dataset: its partition index first, then its bursts. */
  function DatasetPlan(zl: int, tileY: TileYFn, ds: Dataset): Outcome<Append>
  {
    match PartitionIndex(ds.name)
    case Err(e) => Outcome([], Some(e))
    case Ok(i) => TilePlan(Config(Prefix3(ds.name), i, zl, tileY), ds.features)
  }

  /** The whole run: datasets in order, stopping at the first error. */
  function RunPlan(zl: int, tileY: TileYFn, dss: seq<Dataset>): Outcome<Append>
  {
    if dss == [] then Outcome([], None)
    else
      var prev := RunPlan(zl, tileY, dss[..|dss| - 1]);
      if prev.err.Some? then prev
      else
        var p := DatasetPlan(zl, tileY, dss[|dss| - 1]);
        Outcome(prev.outs + p.outs, p.err)
  }

  lemma {:induction false} RunPlanAfterError(zl: int, tileY: TileYFn, dss: seq<Dataset>, n: nat)
    requires n <= |dss| && RunPlan(zl, tileY, dss[..n]).err.Some?
    ensures RunPlan(zl, tileY, dss) == RunPlan(zl, tileY, dss[..n])
    decreases |dss| - n
  {
    if n < |dss| {
      assert dss[..n + 1][..n] == dss[..n];
      RunPlanAfterError(zl, tileY, dss, n + 1);
    } else {
      assert dss[..n] == dss;
    }
  }

  // ---- what the burst loop appends, stated without the loop ----

  predicate AllParse(fs: seq<InFeature>)
  {
    forall k :: 0 <= k < |fs| ==> ParseBurst(fs[k]).Ok?
  }

  function Bursts(fs: seq<InFeature>): (bs: seq<Burst>)
    requires AllParse(fs)
    ensures |bs| == |fs| && forall k :: 0 <= k < |fs| ==> bs[k] == ParseBurst(fs[k]).value
  {
    if fs == [] then [] else [ParseBurst(fs[0]).value] + Bursts(fs[1..])
  }

  /** The bursts the latitude filter keeps, in input order. */
  function InBand(bs: seq<Burst>): (r: seq<Burst>)
    ensures |r| <= |bs|
    ensures forall b :: b in r ==> b in bs && InMercatorBand(b.first.lat)
    ensures forall b :: b in bs && InMercatorBand(b.first.lat) ==> b in r
  {
    if bs == [] then []
    else (if InMercatorBand(bs[0].first.lat) then [bs[0]] else []) + InBand(bs[1..])
  }

  function Routes(c: Config, bs: seq<Burst>): (r: seq<Append>)
    ensures |r| == |bs| && forall k :: 0 <= k < |bs| ==> r[k] == Route(c, bs[k])
  {
    if bs == [] then [] else [Route(c, bs[0])] + Routes(c, bs[1..])
  }

  lemma {:induction false} TileYields(c: Config, fs: seq<InFeature>)
    ensures AllOk(StepFn(c), fs) <==> AllParse(fs)
    ensures AllParse(fs) ==> Yields(StepFn(c), fs) == Routes(c, InBand(Bursts(fs)))
  {
    if fs != [] {
      TileYields(c, fs[1..]);
      assert AllOk(StepFn(c), fs) <==> StepFn(c)(fs[0]).Ok? && AllOk(StepFn(c), fs[1..]) by {
        forall k | 1 <= k < |fs| ensures fs[k] == fs[1..][k - 1] { }
        if AllOk(StepFn(c), fs[1..]) && StepFn(c)(fs[0]).Ok? {
          forall k | 0 <= k < |fs| ensures StepFn(c)(fs[k]).Ok? {
            if k > 0 { assert fs[k] == fs[1..][k - 1]; }
          }
        }
      }
      assert AllParse(fs) <==> ParseBurst(fs[0]).Ok? && AllParse(fs[1..]) by {
        if AllParse(fs[1..]) && ParseBurst(fs[0]).Ok? {
          forall k | 0 <= k < |fs| ensures ParseBurst(fs[k]).Ok? {
            if k > 0 { assert fs[k] == fs[1..][k - 1]; }
          }
        }
      }
      if AllParse(fs) {
        var b := ParseBurst(fs[0]).value;
        assert Bursts(fs) == [b] + Bursts(fs[1..]);
        assert InBand(Bursts(fs)) == (if InMercatorBand(b.first.lat) then [b] else []) + InBand(Bursts(fs[1..]));
        assert Routes(c, [b] + InBand(Bursts(fs[1..]))) == [Route(c, b)] + Routes(c, InBand(Bursts(fs[1..])));
      }
    }
  }

  /** The loop fails exactly when some burst fails to parse; without an error it appends
      exactly the bursts the latitude filter keeps, once each, in input order, each to
      the tile of its first vertex. */
  lemma TilePlanComplete(c: Config, fs: seq<InFeature>)
    ensures TilePlan(c, fs).err == None <==> AllParse(fs)
    ensures AllParse(fs) ==> TilePlan(c, fs).outs == Routes(c, InBand(Bursts(fs)))
  {
    ScanFails(StepFn(c), fs);
    TileYields(c, fs);
    if AllParse(fs) {
      ScanComplete(StepFn(c), fs);
    }
  }

  /** On an error, the bursts before the one that raised are on disk already. */
  lemma TilePlanStopsAtError(c: Config, fs: seq<InFeature>)
    requires TilePlan(c, fs).err.Some?
    ensures exists k :: 0 <= k < |fs| && AllParse(fs[..k]) &&
                        ParseBurst(fs[k]) == Err(TilePlan(c, fs).err.value) &&
                        TilePlan(c, fs).outs == Routes(c, InBand(Bursts(fs[..k])))
  {
    ScanStops(StepFn(c), fs);
    var k :| 0 <= k < |fs| && AllOk(StepFn(c), fs[..k]) &&
             StepFn(c)(fs[k]) == Err(TilePlan(c, fs).err.value) &&
             TilePlan(c, fs).outs == Yields(StepFn(c), fs[..k]);
    TileYields(c, fs[..k]);
  }

  /** No burst outside the latitude band reaches any tile: every append comes from a
      burst that parsed and lies within the band. */
  lemma AppendsComeFromBand(c: Config, fs: seq<InFeature>)
    ensures forall a :: a in TilePlan(c, fs).outs ==>
              exists k :: 0 <= k < |fs| && ParseBurst(fs[k]).Ok? &&
                          InMercatorBand(ParseBurst(fs[k]).value.first.lat) &&
                          a == Route(c, ParseBurst(fs[k]).value)
  {
    ScanOrigin(StepFn(c), fs);
    forall a | a in TilePlan(c, fs).outs
      ensures exists k :: 0 <= k < |fs| && ParseBurst(fs[k]).Ok? &&
                          InMercatorBand(ParseBurst(fs[k]).value.first.lat) &&
                          a == Route(c, ParseBurst(fs[k]).value)
    {
      var k :| 0 <= k < |fs| && StepFn(c)(fs[k]) == Ok(Some(a));
      assert TileStep(c, fs[k]) == Ok(Some(a));
    }
  }

  /** The orbit is checked before the latitude: a burst with all three tokens but an
      unknown orbit stops the loop even when its first vertex is polar. */
  lemma PolarUnknownOrbitAborts(c: Config, fs: seq<InFeature>, k: nat)
    requires k < |fs| && |Split(fs[k].description, '>')| >= 24
    requires Token(fs[k].description, 11).value !in {"ASCENDING", "DESCENDING"}
    ensures TilePlan(c, fs).err.Some?
  {
    ParseBurstMeaning(fs[k]);
    assert StepFn(c)(fs[k]).Err?;
    ScanFails(StepFn(c), fs);
  }

  /** What each tile file holds after a dataset's loop ran without error: its old
      features, then the kept bursts routed to it, in input order. */
  lemma TileContents(files: Files, c: Config, fs: seq<InFeature>, path: string)
    requires AllParse(fs)
    ensures Lookup(ApplyAll(files, TilePlan(c, fs).outs), path) ==
            Lookup(files, path) + FeaturesFor(Routes(c, InBand(Bursts(fs))), path)
  {
    TilePlanComplete(c, fs);
    ApplyAllLookup(files, TilePlan(c, fs).outs, path);
  }

  // ---- the loops of the run ----

  /** The burst loop of one dataset (the body of the loop over KMZ files). */
  method ProcessDataset(store: Store, zl: int, tileY: TileYFn, ds: Dataset) returns (err: Option<Error>)
    modifies store
    ensures store.files == ApplyAll(old(store.files), DatasetPlan(zl, tileY, ds).outs)
    ensures err == DatasetPlan(zl, tileY, ds).err
  {
    var prefix := Prefix3(ds.name);
    var i := PartitionIndex(ds.name);
    if i.Err? {
      return Some(i.error);
    }
    ghost var c := Config(prefix, i.value, zl, tileY);
    var fs := ds.features;
    assert DatasetPlan(zl, tileY, ds) == TilePlan(c, fs);
    var k := 0;
    while k < |fs|
      invariant 0 <= k <= |fs|
      invariant TilePlan(c, fs[..k]).err == None
      invariant store.files == ApplyAll(old(store.files), TilePlan(c, fs[..k]).outs)
    {
      ScanStep(StepFn(c), fs, k);
      var feature := fs[k];
      var fields := TileFields(feature.description);
      if fields.Err? {
        assert TileStep(c, feature) == Err(fields.error);
        ScanAfterError(StepFn(c), fs, k + 1);
        return Some(fields.error);
      }
      var orb := Classify(fields.value.orb);
      if orb.Err? {
        assert TileStep(c, feature) == Err(orb.error);
        ScanAfterError(StepFn(c), fs, k + 1);
        return Some(orb.error);
      }
      var dir := orb.value;
      var color := ColorOf(dir);
      var name := prefix + [Tag(dir)] + " " + fields.value.swath + " " + fields.value.bid;
      var first := FirstVertex(feature.geometry);
      if first.None? {
        assert TileStep(c, feature) == Err(EmptyGeometry);
        ScanAfterError(StepFn(c), fs, k + 1);
        return Some(EmptyGeometry);
      }
      ghost var b := Burst(dir, fields.value.bid, fields.value.swath, first.value, feature.geometry);
      assert ParseBurst(feature) == Ok(b);
      var lat, lon := first.value.lat, first.value.lon;
      if lat > 84.0 || lat < -84.0 {
        assert TileStep(c, feature) == Ok(None);
        k := k + 1;
        continue;
      }
      var outFeature := Styled(name, color, feature.geometry);
      var x, y := TileX(lon, zl), tileY(lat, zl);
      var target := TilePath(dir, i.value, zl, x, y);
      assert TileStep(c, feature) == Ok(Some(Append(target, outFeature)));
      store.AddFeature(outFeature, target);
      k := k + 1;
    }
    assert fs[..k] == fs;
    return None;
  }

  /** The whole run: every dataset in turn, aborting at the first error. */
  method Run(store: Store, zl: int, tileY: TileYFn, dss: seq<Dataset>) returns (err: Option<Error>)
    modifies store
    ensures store.files == ApplyAll(old(store.files), RunPlan(zl, tileY, dss).outs)
    ensures err == RunPlan(zl, tileY, dss).err
  {
    var n := 0;
    while n < |dss|
      invariant 0 <= n <= |dss|
      invariant RunPlan(zl, tileY, dss[..n]).err == None
      invariant store.files == ApplyAll(old(store.files), RunPlan(zl, tileY, dss[..n]).outs)
    {
      assert dss[..n + 1][..n] == dss[..n];
      err := ProcessDataset(store, zl, tileY, dss[n]);
      ApplyAllConcat(old(store.files), RunPlan(zl, tileY, dss[..n]).outs,
                     DatasetPlan(zl, tileY, dss[n]).outs);
      if err.Some? {
        RunPlanAfterError(zl, tileY, dss, n + 1);
        return;
      }
      n := n + 1;
    }
    assert dss[..n] == dss;
    return None;
  }
}
