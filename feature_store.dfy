/** The tile feature store: every tile file is an entry in a map from its
    path to the features of its FeatureCollection. */
module FeatureStore {
  import opened Common

  type Files = map<string, seq<Feature>>

  /** The features of the file at path; a missing file reads as an empty collection. */
  function Lookup(files: Files, path: string): seq<Feature>
  {
    if path in files then files[path] else []
  }

  /** The files after one add_feature(f, path). */
  function Appended(files: Files, path: string, f: Feature): (r: Files)
    ensures path in r && r[path] == Lookup(files, path) + [f]
    ensures r.Keys == files.Keys + {path}
    ensures forall q :: q != path ==> Lookup(r, q) == Lookup(files, q)
  {
    files[path := Lookup(files, path) + [f]]
  }

  /** The files after the appends, performed in order. */
  function ApplyAll(files: Files, appends: seq<Append>): Files
  {
    if appends == [] then files
    else
      var last := appends[|appends| - 1];
      Appended(ApplyAll(files, appends[..|appends| - 1]), last.path, last.feature)
  }

  /** The features of the appends that target path, in the order given. */
  function FeaturesFor(appends: seq<Append>, path: string): seq<Feature>
  {
    if appends == [] then []
    else (if appends[0].path == path then [appends[0].feature] else [])
         + FeaturesFor(appends[1..], path)
  }

  lemma {:induction false} FeaturesForConcat(a: seq<Append>, b: seq<Append>, path: string)
    ensures FeaturesFor(a + b, path) == FeaturesFor(a, path) + FeaturesFor(b, path)
  {
    if a != [] {
      assert (a + b)[1..] == a[1..] + b;
      FeaturesForConcat(a[1..], b, path);
    } else {
      assert a + b == b;
    }
  }

  /** Each file ends up holding what it held before, then the features appended to it, in order. */
  lemma {:induction false} ApplyAllLookup(files: Files, appends: seq<Append>, path: string)
    ensures Lookup(ApplyAll(files, appends), path) == Lookup(files, path) + FeaturesFor(appends, path)
  {
    if appends != [] {
      var init := appends[..|appends| - 1];
      var last := appends[|appends| - 1];
      ApplyAllLookup(files, init, path);
      FeaturesForConcat(init, [last], path);
      assert appends == init + [last];
    }
  }

  /** A file exists afterwards iff it existed before or something was appended to it. */
  lemma {:induction false} ApplyAllKeys(files: Files, appends: seq<Append>, path: string)
    ensures path in ApplyAll(files, appends) <==>
            path in files || exists k :: 0 <= k < |appends| && appends[k].path == path
  {
    if appends != [] {
      var init := appends[..|appends| - 1];
      ApplyAllKeys(files, init, path);
      if exists k :: 0 <= k < |init| && init[k].path == path {
        var k :| 0 <= k < |init| && init[k].path == path;
        assert appends[k].path == path;
      }
      if exists k :: 0 <= k < |appends| && appends[k].path == path {
        var k :| 0 <= k < |appends| && appends[k].path == path;
        if k < |init| { assert init[k].path == path; }
      }
    }
  }

  /** One more append after a batch. */
  lemma ApplyAllSnoc(files: Files, appends: seq<Append>, a: Append)
    ensures ApplyAll(files, appends + [a]) == Appended(ApplyAll(files, appends), a.path, a.feature)
  {
    assert (appends + [a])[..|appends|] == appends;
  }

  /** Appending two batches one after the other is appending their concatenation. */
  lemma {:induction false} ApplyAllConcat(files: Files, a: seq<Append>, b: seq<Append>)
    ensures ApplyAll(files, a + b) == ApplyAll(ApplyAll(files, a), b)
    decreases |b|
  {
    if b == [] {
      assert a + b == a;
    } else {
      var init, last := b[..|b| - 1], b[|b| - 1];
      ApplyAllConcat(files, a, init);
      assert (a + b)[..|a + b| - 1] == a + init;
      assert (a + b)[|a + b| - 1] == last;
      var before := ApplyAll(files, a + init);
      assert before == ApplyAll(ApplyAll(files, a), init);
      assert ApplyAll(files, a + b) == Appended(before, last.path, last.feature);
      assert ApplyAll(ApplyAll(files, a), b) == Appended(before, last.path, last.feature);
    }
  }

  /** The first append to an absent file creates a collection of exactly that feature;
      a second one keeps the first and adds the new one after it. */
  lemma FirstAndSecondAppend(files: Files, path: string, f1: Feature, f2: Feature)
    requires path !in files
    ensures Appended(files, path, f1)[path] == [f1]
    ensures Appended(Appended(files, path, f1), path, f2)[path] == [f1, f2]
  {
  }

  /** The output tree: one FeatureCollection per tile file, updated in place. */
  class Store {
    var files: Files

    /** The tree as it is when the run starts: stale files may survive from earlier runs. */
    constructor (initial: Files)
      ensures files == initial
    {
      files := initial;
    }

    function Features(path: string): seq<Feature>
      reads this
    {
      Lookup(files, path)
    }

    /** add_feature: create the file with no features if missing, load, append, write back. */
    method AddFeature(f: Feature, path: string)
      modifies this
      ensures files == Appended(old(files), path, f)
      ensures Features(path) == old(Features(path)) + [f]
      ensures forall q :: q != path ==> Features(q) == old(Features(q))
    {
      if path !in files {
        files := files[path := []];
      }
      var featuresList := files[path];
      featuresList := featuresList + [f];
      files := files[path := featuresList];
    }
  }
}
