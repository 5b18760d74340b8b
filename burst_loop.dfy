/** The shape both scripts' burst loops share: each burst either raises,
    is skipped, or yields one output; the first raise ends the loop and
    leaves the outputs produced before it. */
module BurstLoop {
  import opened Common

  /** The outputs of a loop, in order, and the error that ended it, if any. */
  datatype Outcome<U> = Outcome(outs: seq<U>, err: Option<Error>)

  /** The loop over xs, one step per element, stopping at the first error. */
  function Scan<T, U>(step: T -> Result<Option<U>>, xs: seq<T>): Outcome<U>
  {
    if xs == [] then Outcome([], None)
    else
      var prev := Scan(step, xs[..|xs| - 1]);
      if prev.err.Some? then prev
      else match step(xs[|xs| - 1])
        case Err(e) => Outcome(prev.outs, Some(e))
        case Ok(None) => prev
        case Ok(Some(u)) => Outcome(prev.outs + [u], None)
  }

  /** One more pass of a loop that has not failed yet. */
  lemma ScanStep<T, U>(step: T -> Result<Option<U>>, xs: seq<T>, k: nat)
    requires k < |xs| && Scan(step, xs[..k]).err == None
    ensures Scan(step, xs[..k + 1]) ==
              match step(xs[k])
              case Err(e) => Outcome(Scan(step, xs[..k]).outs, Some(e))
              case Ok(None) => Scan(step, xs[..k])
              case Ok(Some(u)) => Outcome(Scan(step, xs[..k]).outs + [u], None)
  {
    assert xs[..k + 1][..k] == xs[..k];
  }

  /** Once a prefix of the loop has failed, the rest of the input changes nothing. */
  lemma {:induction false} ScanAfterError<T, U>(step: T -> Result<Option<U>>, xs: seq<T>, n: nat)
    requires n <= |xs| && Scan(step, xs[..n]).err.Some?
    ensures Scan(step, xs) == Scan(step, xs[..n])
    decreases |xs| - n
  {
    if n < |xs| {
      assert xs[..n + 1][..n] == xs[..n];
      ScanAfterError(step, xs, n + 1);
    } else {
      assert xs[..n] == xs;
    }
  }

  predicate AllOk<T, U>(step: T -> Result<Option<U>>, xs: seq<T>)
  {
    forall k :: 0 <= k < |xs| ==> step(xs[k]).Ok?
  }

  /** Reference: the outputs of the steps that yield one, in order. */
  function Yields<T, U>(step: T -> Result<Option<U>>, xs: seq<T>): seq<U>
    requires AllOk(step, xs)
  {
    if xs == [] then []
    else (if step(xs[0]).value.Some? then [step(xs[0]).value.value] else [])
         + Yields(step, xs[1..])
  }

  lemma {:induction false} AllOkPrefix<T, U>(step: T -> Result<Option<U>>, xs: seq<T>, n: nat)
    requires n <= |xs| && AllOk(step, xs)
    ensures AllOk(step, xs[..n])
  {
    forall k | 0 <= k < n ensures step(xs[..n][k]).Ok? {
      assert xs[..n][k] == xs[k];
    }
  }

  lemma {:induction false} YieldsSnoc<T, U>(step: T -> Result<Option<U>>, xs: seq<T>)
    requires xs != [] && AllOk(step, xs)
    ensures AllOk(step, xs[..|xs| - 1])
    ensures Yields(step, xs) == Yields(step, xs[..|xs| - 1]) +
              (if step(xs[|xs| - 1]).value.Some? then [step(xs[|xs| - 1]).value.value] else [])
  {
    var init := xs[..|xs| - 1];
    AllOkPrefix(step, xs, |xs| - 1);
    if |xs| > 1 {
      assert xs[1..][..|xs[1..]| - 1] == init[1..];
      assert xs[1..][|xs[1..]| - 1] == xs[|xs| - 1];
      AllOkPrefix(step, xs, |xs|);
      assert AllOk(step, xs[1..]) by {
        forall k | 0 <= k < |xs[1..]| ensures step(xs[1..][k]).Ok? { assert xs[1..][k] == xs[k + 1]; }
      }
      YieldsSnoc(step, xs[1..]);
      assert init[0] == xs[0];
      var head := if step(xs[0]).value.Some? then [step(xs[0]).value.value] else [];
      var last := if step(xs[|xs| - 1]).value.Some? then [step(xs[|xs| - 1]).value.value] else [];
      assert Yields(step, xs) == head + Yields(step, xs[1..]);
      assert Yields(step, init) == head + Yields(step, init[1..]);
      assert Yields(step, xs[1..]) == Yields(step, init[1..]) + last;
      assert head + (Yields(step, init[1..]) + last) == (head + Yields(step, init[1..])) + last;
    } else {
      assert init == [];
      assert xs[1..] == [];
    }
  }

  /** The loop runs to the end exactly when no step raises. */
  lemma {:induction false} ScanFails<T, U>(step: T -> Result<Option<U>>, xs: seq<T>)
    ensures Scan(step, xs).err == None <==> AllOk(step, xs)
  {
    if xs != [] {
      var init := xs[..|xs| - 1];
      ScanFails(step, init);
      if AllOk(step, xs) {
        AllOkPrefix(step, xs, |xs| - 1);
        assert step(xs[|xs| - 1]).Ok?;
      } else if AllOk(step, init) {
        var k :| 0 <= k < |xs| && step(xs[k]).Err?;
        assert step(xs[|xs| - 1]).Err?;
      } else {
        var k :| 0 <= k < |init| && step(init[k]).Err?;
        assert xs[k] == init[k];
      }
    }
  }

  /** Without an error, the loop outputs what each step yields, once each, in order. */
  lemma {:induction false} ScanComplete<T, U>(step: T -> Result<Option<U>>, xs: seq<T>)
    requires AllOk(step, xs)
    ensures Scan(step, xs) == Outcome(Yields(step, xs), None)
  {
    if xs != [] {
      YieldsSnoc(step, xs);
      ScanComplete(step, xs[..|xs| - 1]);
    }
  }

  /** On an error, the outputs are those of the steps before the step that raised it. */
  lemma {:induction false} ScanStops<T, U>(step: T -> Result<Option<U>>, xs: seq<T>)
    requires Scan(step, xs).err.Some?
    ensures exists k :: 0 <= k < |xs| && AllOk(step, xs[..k]) &&
                        step(xs[k]) == Err(Scan(step, xs).err.value) &&
                        Scan(step, xs).outs == Yields(step, xs[..k])
  {
    var init := xs[..|xs| - 1];
    var prev := Scan(step, init);
    if prev.err.Some? {
      ScanStops(step, init);
      var k :| 0 <= k < |init| && AllOk(step, init[..k]) &&
               step(init[k]) == Err(prev.err.value) &&
               prev.outs == Yields(step, init[..k]);
      assert init[..k] == xs[..k] && init[k] == xs[k];
    } else {
      ScanFails(step, init);
      ScanComplete(step, init);
      assert xs[..|xs| - 1] == init;
    }
  }

  /** Every output comes from a step that yielded it. */
  lemma {:induction false} ScanOrigin<T, U>(step: T -> Result<Option<U>>, xs: seq<T>)
    ensures forall u :: u in Scan(step, xs).outs ==>
              exists k :: 0 <= k < |xs| && step(xs[k]) == Ok(Some(u))
  {
    if xs != [] {
      var init := xs[..|xs| - 1];
      ScanOrigin(step, init);
      forall u | u in Scan(step, xs).outs
        ensures exists k :: 0 <= k < |xs| && step(xs[k]) == Ok(Some(u))
      {
        if u in Scan(step, init).outs {
          var k :| 0 <= k < |init| && step(init[k]) == Ok(Some(u));
          assert xs[k] == init[k];
        } else {
          assert step(xs[|xs| - 1]) == Ok(Some(u));
        }
      }
    }
  }
}
