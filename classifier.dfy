/** The footprint classifier: the fields read from a burst's description,
    the orbit direction with its display style, and the dataset partition
    index read from the file name. */
module Classifier {
  import opened Common
  import opened Text

  const ColorA: string := "#0000ff"
  const ColorD: string := "#ff0000"
  const LineOpacity: real := 0.4
  const LineWidth: int := 1
  const FillOpacity: real := 0.1

  /** The description token that names each direction. */
  function OrbitName(d: Direction): string
  {
    match d
    case Ascending => "ASCENDING"
    case Descending => "DESCENDING"
  }

  /** The orbit token decides the direction; any other token is fatal. */
  function Classify(orb: string): (r: Result<Direction>)
    ensures r.Ok? <==> orb == "ASCENDING" || orb == "DESCENDING"
    ensures r.Ok? ==> OrbitName(r.value) == orb
    ensures r.Err? ==> r.error == UnknownOrbit(orb)
  {
    if orb == "ASCENDING" then Ok(Ascending)
    else if orb == "DESCENDING" then Ok(Descending)
    else Err(UnknownOrbit(orb))
  }

  /** `AD`: the letter used in names and directory names. */
  function Tag(d: Direction): char
  {
    match d
    case Ascending => 'A'
    case Descending => 'D'
  }

  function ColorOf(d: Direction): string
  {
    match d
    case Ascending => ColorA
    case Descending => ColorD
  }

  /** The properties dictionary both scripts build: line and fill share one colour. */
  function Styled(name: string, color: string, geometry: Geometry): (f: Feature)
    ensures f.name == name && f.color == color && f.fillColor == color
    ensures f.opacity == LineOpacity && f.weight == LineWidth && f.fillOpacity == FillOpacity
    ensures f.geometry == geometry
  {
    Feature(name, color, LineOpacity, LineWidth, color, FillOpacity, geometry)
  }

  /** The text of the k-th `>`-separated segment of the description up to its first `<`,
      or None where the description has fewer than k + 1 segments. */
  function Token(descr: string, k: nat): (r: Option<string>)
    ensures r.Some? <==> k <= multiset(descr)['>']
    ensures r.Some? ==> '>' !in r.value && '<' !in r.value
  {
    var segs := Split(descr, '>');
    SplitLength(descr, '>');
    if k < |segs| then
      var t := Split(segs[k], '<')[0];
      SplitPiecesHaveNoSeparator(descr, '>');
      SplitPiecesHaveNoSeparator(segs[k], '<');
      SplitHeadIsPrefix(segs[k], '<');
      assert '>' !in t by {
        forall j | 0 <= j < |t| ensures t[j] != '>' { assert t[j] == segs[k][j]; }
      }
      Some(t)
    else None
  }

  /** A description laid out as markup yields the text between the k-th `>` and the next `<`. */
  lemma TokenOfMarkup(segs: seq<string>, k: nat, t: string, tail: string)
    requires k < |segs|
    requires forall j :: 0 <= j < |segs| ==> '>' !in segs[j]
    requires '<' !in t && (tail == [] || tail[0] == '<')
    requires segs[k] == t + tail
    ensures Token(Join(segs, '>'), k) == Some(t)
  {
    SplitJoin(segs, '>');
    SegmentHead(t, tail);
    TokenOfSegments(Join(segs, '>'), segs, k, t);
  }

  /** The text before the first `<` of t + tail, when t has none and tail starts with one. */
  lemma SegmentHead(t: string, tail: string)
    requires '<' !in t && (tail == [] || tail[0] == '<')
    ensures Split(t + tail, '<')[0] == t
  {
    if tail == [] {
      assert t + tail == t;
      SplitWithoutSeparator(t, '<');
    } else {
      assert t + tail == t + ['<'] + tail[1..];
      SplitAfterPlainPrefix(t, tail[1..], '<');
    }
  }

  /** Token reads the text before the first `<` of segment k. */
  lemma TokenOfSegments(descr: string, segs: seq<string>, k: nat, t: string)
    requires Split(descr, '>') == segs && k < |segs| && Split(segs[k], '<')[0] == t
    ensures Token(descr, k) == Some(t)
  {
  }

  /** The first point of the outer ring, or None where the geometry or its ring is empty. */
  function FirstVertex(g: Geometry): (p: Option<Point>)
    ensures p.Some? <==> |g.coordinates| > 0 && |g.coordinates[0]| > 0
    ensures p.Some? ==> p.value == g.coordinates[0][0]
  {
    if |g.coordinates| > 0 && |g.coordinates[0]| > 0 then Some(g.coordinates[0][0]) else None
  }

  /** Bursts whose first vertex lies beyond 84 degrees cannot be shown on the web map. */
  predicate InMercatorBand(lat: real)
  {
    !(lat > 84.0 || lat < -84.0)
  }

  /** The three tokens the tiling script reads from a description. */
  datatype Fields = Fields(orb: string, bid: string, swath: string)

  /** Orbit, burst id and swath: segments 11, 17 and 23, read in that order. */
  function TileFields(descr: string): (r: Result<Fields>)
    ensures r.Ok? <==> |Split(descr, '>')| >= 24
    ensures r.Err? ==> r.error.MissingSegment? && r.error.index in {11, 17, 23}
    ensures r.Err? ==> Token(descr, r.error.index) == None
    ensures r.Err? ==> forall k :: k in {11, 17, 23} && k < r.error.index ==> Token(descr, k).Some?
    ensures r.Ok? ==> Token(descr, 11) == Some(r.value.orb) &&
                      Token(descr, 17) == Some(r.value.bid) &&
                      Token(descr, 23) == Some(r.value.swath)
  {
    SplitLength(descr, '>');
    match Token(descr, 11)
    case None => Err(MissingSegment(11))
    case Some(orb) =>
      match Token(descr, 17)
      case None => Err(MissingSegment(17))
      case Some(bid) =>
        match Token(descr, 23)
        case None => Err(MissingSegment(23))
        case Some(swath) => Ok(Fields(orb, bid, swath))
  }

  /** The orbit token alone, as the dissolving script reads it. */
  function OrbitToken(descr: string): (r: Result<string>)
    ensures r.Ok? <==> |Split(descr, '>')| >= 12
    ensures r.Ok? ==> Token(descr, 11) == Some(r.value)
    ensures r.Err? ==> r.error == MissingSegment(11)
  {
    SplitLength(descr, '>');
    match Token(descr, 11)
    case None => Err(MissingSegment(11))
    case Some(orb) => Ok(orb)
  }

  /** The first three characters of the dataset's file name (fewer if it is shorter). */
  function Prefix3(name: string): (p: string)
    ensures p <= name && |p| == if |name| < 3 then |name| else 3
  {
    name[..if |name| < 3 then |name| else 3]
  }

  /** The partition of a dataset: its three-character orbit prefix read as an integer,
      reduced mod 5 with 0 mapped to 5; fails when the prefix is not an integer. */
  function PartitionIndex(name: string): (r: Result<int>)
    ensures r.Ok? <==> ParseInt(Prefix3(name)).Some?
    ensures r.Err? ==> r.error == InvalidDatasetId(Prefix3(name))
    ensures r.Ok? ==> 1 <= r.value <= 5 && (r.value - ParseInt(Prefix3(name)).value) % 5 == 0
  {
    var prefix := Prefix3(name);
    match ParseInt(prefix)
    case None => Err(InvalidDatasetId(prefix))
    case Some(n) => Ok(Bucket(n))
  }

  /** n mod 5 with 0 mapped to 5; the floored remainder agrees with Dafny's % for divisor 5. */
  function Bucket(n: int): (b: int)
    ensures 1 <= b <= 5 && (b - n) % 5 == 0
  {
    var m := n % 5;
    assert n == 5 * (n / 5) + m;
    if m == 0 then
      assert 5 - n == 5 * (1 - n / 5);
      5
    else
      assert m - n == 5 * (0 - n / 5);
      m
  }

  /** The partition law on the ids "003", "008", "010", "000": 3, 3, 5, 5. */
  lemma PartitionExamples()
    ensures PartitionIndex("003_D_S1.geojson") == Ok(3)
    ensures PartitionIndex("008_A_S1.geojson") == Ok(3)
    ensures PartitionIndex("010_D_S1.geojson") == Ok(5)
    ensures PartitionIndex("000_A_S1.geojson") == Ok(5)
  {
    ParseThreeDigits("003");
    ParseThreeDigits("008");
    ParseThreeDigits("010");
    ParseThreeDigits("000");
    assert Prefix3("003_D_S1.geojson") == "003";
    assert Prefix3("008_A_S1.geojson") == "008";
    assert Prefix3("010_D_S1.geojson") == "010";
    assert Prefix3("000_A_S1.geojson") == "000";
  }

  /** A name whose first three characters hold a letter has no partition. */
  lemma PartitionRejectsLetter(name: string, j: nat)
    requires j < |name| && j < 3 && ('A' <= name[j] <= 'Z' || 'a' <= name[j] <= 'z')
    ensures PartitionIndex(name).Err?
  {
    assert Prefix3(name)[j] == name[j];
    ParseIntRejects(Prefix3(name), name[j]);
  }

  /** A name starting with an information separator (U+001C to U+001F) has no partition. */
  lemma PartitionRejectsSeparator(name: string)
    requires |name| > 0 && 28 <= name[0] as int <= 31
    ensures PartitionIndex(name).Err?
  {
    var p := Prefix3(name);
    assert p == [name[0]] + p[1..];
    ParseIntRejectsSeparator(name[0], p[1..]);
  }
}
