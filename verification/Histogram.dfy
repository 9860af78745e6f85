// One histogram series of src/metrics/collector.ts and its text form in
// src/metrics/prometheus.ts.  The series keeps a count per bucket; the text
// shows running totals.
module Histogram {
  import opened Wrappers

  // A JavaScript number: the collector ignores what is not finite.
  datatype Number = Finite(value: real) | NotFinite

  // One line of the exposition: a bucket with its bound (None is +Inf), the sum
  // or the count.
  datatype Sample = BucketLine(le: Option<real>, total: nat) | SumLine(sum: real) | CountLine(total: nat)

  ghost predicate Ascending(bounds: seq<real>) {
    forall i, j :: 0 <= i < j < |bounds| ==> bounds[i] <= bounds[j]
  }

  // --- what a series means -----------------------------------------------

  // The first bucket whose bound admits the value; the number of buckets if
  // none does.
  function BucketFor(bounds: seq<real>, value: real): (i: nat)
    ensures i <= |bounds|
    ensures forall j :: 0 <= j < i ==> value > bounds[j]
    ensures i < |bounds| ==> value <= bounds[i]
  {
    if bounds == [] || value <= bounds[0] then 0 else BucketFor(bounds[1..], value) + 1
  }

  function InBucket(bounds: seq<real>, i: nat, observed: seq<real>): nat {
    if observed == [] then 0
    else
      var n := |observed| - 1;
      InBucket(bounds, i, observed[..n]) + (if BucketFor(bounds, observed[n]) == i then 1 else 0)
  }

  // How many of the observations a bound covers.
  function AtMost(bound: real, observed: seq<real>): nat {
    if observed == [] then 0
    else
      var n := |observed| - 1;
      AtMost(bound, observed[..n]) + (if observed[n] <= bound then 1 else 0)
  }

  function Sum(observed: seq<real>): real {
    if observed == [] then 0.0 else Sum(observed[..|observed| - 1]) + observed[|observed| - 1]
  }

  // The buckets up to the i-th hold exactly what their last bound covers.
  lemma {:induction false} BucketsAddUp(bounds: seq<real>, i: nat, observed: seq<real>)
    requires Ascending(bounds) && i < |bounds|
    ensures AtMost(bounds[i], observed) ==
            (if i == 0 then 0 else AtMost(bounds[i - 1], observed)) + InBucket(bounds, i, observed)
  {
    if observed != [] {
      BucketsAddUp(bounds, i, observed[..|observed| - 1]);
    }
  }

  lemma {:induction false} AtMostGrows(low: real, high: real, observed: seq<real>)
    requires low <= high
    ensures AtMost(low, observed) <= AtMost(high, observed) <= |observed|
  {
    if observed != [] { AtMostGrows(low, high, observed[..|observed| - 1]); }
  }

  // The running totals never fall.
  lemma TotalsGrow(bounds: seq<real>, observed: seq<real>, lines: seq<Sample>)
    requires Ascending(bounds) && |lines| > |bounds| && lines[|bounds|] == BucketLine(None, |observed|)
    requires forall i :: 0 <= i < |bounds| ==> lines[i] == BucketLine(Some(bounds[i]), AtMost(bounds[i], observed))
    ensures forall i, j :: 0 <= i < j <= |bounds| ==> lines[i].total <= lines[j].total
  {
    forall i, j | 0 <= i < j <= |bounds| ensures lines[i].total <= lines[j].total {
      AtMostGrows(bounds[i], if j < |bounds| then bounds[j] else bounds[i], observed);
    }
  }

  // --- the series --------------------------------------------------------

  class Series {
    const bounds: seq<real>
    const bucketCounts: array<nat>
    var sum: real
    var count: nat
    ghost var observed: seq<real>

    ghost predicate Valid()
      reads this, bucketCounts
    {
      && Ascending(bounds) && bucketCounts.Length == |bounds|
      && (forall i :: 0 <= i < |bounds| ==> bucketCounts[i] == InBucket(bounds, i, observed))
      && sum == Sum(observed) && count == |observed|
    }

    constructor (bounds: seq<real>)
      requires Ascending(bounds)
      ensures Valid() && this.bounds == bounds && observed == [] && fresh(bucketCounts)
    {
      this.bounds := bounds;
      bucketCounts := new nat[|bounds|](_ => 0);
      sum, count, observed := 0.0, 0, [];
    }

    method Observe(number: Number)
      requires Valid()
      modifies this, bucketCounts
      ensures Valid() && observed == old(observed) + if number.Finite? then [number.value] else []
    {
      if number.NotFinite? { return; }
      var value := number.value;
      observed := observed + [value];
      assert observed[..|observed| - 1] == old(observed);
      var i := 0;
      while i < |bounds|
        invariant 0 <= i <= BucketFor(bounds, value)
        invariant forall j :: 0 <= j < |bounds| ==> bucketCounts[j] == InBucket(bounds, j, old(observed))
        invariant observed == old(observed) + [value] && sum == old(sum) && count == old(count)
      {
        if value <= bounds[i] {
          bucketCounts[i] := bucketCounts[i] + 1;
          break;
        }
        i := i + 1;
      }
      assert i == BucketFor(bounds, value);
      sum := sum + value;
      count := count + 1;
    }

    // Whatever was observed, each bucket line shows how many observations its
    // bound covers, and the +Inf line shows them all.
    method Render() returns (lines: seq<Sample>)
      requires Valid()
      ensures |lines| == |bounds| + 3
      ensures forall i :: 0 <= i < |bounds| ==> lines[i] == BucketLine(Some(bounds[i]), AtMost(bounds[i], observed))
      ensures lines[|bounds|..] == [BucketLine(None, |observed|), SumLine(Sum(observed)), CountLine(|observed|)]
      ensures forall i, j :: 0 <= i < j <= |bounds| ==> lines[i].total <= lines[j].total
    {
      lines := [];
      var cumulative := 0;
      for i := 0 to |bounds|
        invariant |lines| == i && cumulative == if i == 0 then 0 else AtMost(bounds[i - 1], observed)
        invariant forall j :: 0 <= j < i ==> lines[j] == BucketLine(Some(bounds[j]), AtMost(bounds[j], observed))
      {
        cumulative := cumulative + bucketCounts[i];
        BucketsAddUp(bounds, i, observed);
        lines := lines + [BucketLine(Some(bounds[i]), cumulative)];
      }
      ghost var buckets := lines;
      lines := lines + [BucketLine(None, count), SumLine(sum), CountLine(count)];
      TotalsGrow(bounds, observed, lines);
    }
  }

  // --- registering bounds ------------------------------------------------

  function Insert(bound: real, bounds: seq<real>): seq<real> {
    if bounds == [] || bound <= bounds[0] then [bound] + bounds else [bounds[0]] + Insert(bound, bounds[1..])
  }

  function Sorted(bounds: seq<real>): seq<real> {
    if bounds == [] then [] else Insert(bounds[0], Sorted(bounds[1..]))
  }

  lemma Prepend(bound: real, bounds: seq<real>)
    requires Ascending(bounds) && (bounds != [] ==> bound <= bounds[0])
    ensures Ascending([bound] + bounds)
  {
  }

  lemma {:induction false} InsertAscends(bound: real, bounds: seq<real>)
    requires Ascending(bounds)
    ensures var r := Insert(bound, bounds);
            Ascending(r) && r != [] && r[0] == if bounds == [] || bound <= bounds[0] then bound else bounds[0]
  {
    if bounds == [] || bound <= bounds[0] {
      Prepend(bound, bounds);
    } else {
      InsertAscends(bound, bounds[1..]);
      Prepend(bounds[0], Insert(bound, bounds[1..]));
    }
  }

  lemma {:induction false} InsertAdds(bound: real, bounds: seq<real>)
    ensures multiset(Insert(bound, bounds)) == multiset(bounds) + multiset{bound}
  {
    if bounds != [] && bound > bounds[0] {
      InsertAdds(bound, bounds[1..]);
      assert bounds == [bounds[0]] + bounds[1..];
    }
  }

  // The bounds a histogram works with: those it was given, in order.
  lemma {:induction false} SortedIsAscending(bounds: seq<real>)
    ensures Ascending(Sorted(bounds)) && multiset(Sorted(bounds)) == multiset(bounds)
    ensures Sorted(bounds) == [] ==> bounds == []
  {
    if bounds != [] {
      SortedIsAscending(bounds[1..]);
      InsertAscends(bounds[0], Sorted(bounds[1..]));
      InsertAdds(bounds[0], Sorted(bounds[1..]));
      assert bounds == [bounds[0]] + bounds[1..];
    }
  }

  // A histogram needs at least one bound.
  method Register(bounds: seq<real>) returns (series: Option<Series>)
    ensures series.None? <==> bounds == []
    ensures series.Some? ==> fresh(series.value) && series.value.Valid() && series.value.bounds == Sorted(bounds)
  {
    SortedIsAscending(bounds);
    var sorted := Sorted(bounds);
    if sorted == [] { return None; }
    var s := new Series(sorted);
    return Some(s);
  }
}
