// The series of one counter in src/metrics/collector.ts and the cap on how many
// there may be.  Once the cap is reached every increment, also one for a series
// that exists, goes to the overflow series.
module MetricSeries {

  // The values of a metric's label keys, in key order.
  type Labels = seq<string>

  const OVERFLOW := "__overflow__"

  datatype Number = Finite(value: real) | NotFinite
  datatype Increment = Increment(labels: Labels, value: real)

  // Unknown keys are dropped, missing ones are empty.
  function Normalise(keys: seq<string>, given: map<string, string>): (r: Labels)
    ensures |r| == |keys|
  {
    seq(|keys|, i requires 0 <= i < |keys| => if keys[i] in given then given[keys[i]] else "")
  }

  // Each label is the one given for its key, in key order, or empty; what is
  // given for keys the metric does not have makes no difference.
  lemma LabelsFollowKeys(keys: seq<string>, given: map<string, string>, other: map<string, string>)
    ensures forall i :: 0 <= i < |keys| ==>
              Normalise(keys, given)[i] == if keys[i] in given.Keys then given[keys[i]] else []
    ensures Normalise(keys, given) == Normalise(keys, other) <==>
              forall key :: key in keys ==>
                (if key in given then given[key] else "") == (if key in other then other[key] else "")
  {
    var a, b := Normalise(keys, given), Normalise(keys, other);
    if a == b {
      forall key | key in keys ensures (if key in given then given[key] else "") == (if key in other then other[key] else "") {
        var i :| 0 <= i < |keys| && keys[i] == key;
        assert a[i] == b[i];
      }
    }
  }

  function OverflowLabels(width: nat): Labels {
    seq(width, _ => OVERFLOW)
  }

  function Resolve(limit: nat, labels: Labels, size: nat): Labels {
    if size >= limit then OverflowLabels(|labels|) else labels
  }

  function Shown(series: map<Labels, real>, key: Labels): real {
    if key in series then series[key] else 0.0
  }

  function Bump(series: map<Labels, real>, key: Labels, value: real): map<Labels, real> {
    series[key := Shown(series, key) + value]
  }

  // The series after a sequence of increments.
  function After(limit: nat, log: seq<Increment>): map<Labels, real> {
    if log == [] then map[]
    else
      var before := After(limit, log[..|log| - 1]);
      var last := log[|log| - 1];
      Bump(before, Resolve(limit, last.labels, |before|), last.value)
  }

  lemma AfterNext(limit: nat, log: seq<Increment>, last: Increment)
    ensures After(limit, log + [last]) ==
            Bump(After(limit, log), Resolve(limit, last.labels, |After(limit, log)|), last.value)
  {
    assert (log + [last])[..|log|] == log;
  }

  class Counter {
    const keys: seq<string>
    const limit: nat
    var series: map<Labels, real>
    ghost var log: seq<Increment>

    ghost predicate Valid()
      reads this
    {
      series == After(limit, log) && Uniform(log, |keys|)
    }

    constructor (keys: seq<string>, limit: nat)
      ensures Valid() && log == [] && this.keys == keys && this.limit == limit
    {
      this.keys, this.limit := keys, limit;
      series, log := map[], [];
    }

    method Inc(given: map<string, string>, number: Number)
      requires Valid()
      modifies this
      ensures Valid()
      ensures log == if number.NotFinite? || number.value < 0.0 then old(log)
                     else old(log) + [Increment(Normalise(keys, given), number.value)]
    {
      if number.NotFinite? || number.value < 0.0 { return; }
      hide After;
      var key := Normalise(keys, given);
      AfterNext(limit, log, Increment(key, number.value));
      if |series| >= limit { key := OverflowLabels(|keys|); }
      if key in series {
        series := series[key := series[key] + number.value];
      } else {
        series := series[key := number.value];
      }
      log := log + [Increment(Normalise(keys, given), number.value)];
    }
  }

  // All increments of a metric name the same label keys.
  ghost predicate Uniform(log: seq<Increment>, width: nat) {
    forall i :: 0 <= i < |log| ==> |log[i].labels| == width
  }

  // --- how many series ---------------------------------------------------

  lemma {:induction false} SeriesAreCapped(limit: nat, width: nat, log: seq<Increment>)
    requires Uniform(log, width)
    ensures var series := After(limit, log);
            |series| <= limit + 1 && (|series| == limit + 1 ==> OverflowLabels(width) in series)
  {
    if log != [] {
      var n := |log| - 1;
      SeriesAreCapped(limit, width, log[..n]);
      var before := After(limit, log[..n]);
      var key := Resolve(limit, log[n].labels, |before|);
      var value := (if key in before then before[key] else 0.0) + log[n].value;
      assert before[key := value].Keys == before.Keys + {key};
      assert |before.Keys + {key}| == if key in before then |before| else |before| + 1 by {
        if key in before { assert before.Keys + {key} == before.Keys; }
      }
      assert |before.Keys| == |before|;
      assert After(limit, log) == before[key := value];
      assert |After(limit, log)| == |before[key := value].Keys|;
    }
  }

  // --- nothing is lost ---------------------------------------------------

  function Added(log: seq<Increment>): real {
    if log == [] then 0.0 else Added(log[..|log| - 1]) + log[|log| - 1].value
  }

  ghost function Sum(series: map<Labels, real>): real
    decreases |series|
  {
    if series == map[] then 0.0
    else
      var key :| key in series;
      series[key] + Sum(series - {key})
  }

  lemma {:induction false} SumWithout(series: map<Labels, real>, key: Labels)
    requires key in series
    ensures Sum(series) == series[key] + Sum(series - {key})
    decreases |series|
  {
    var picked :| picked in series && Sum(series) == series[picked] + Sum(series - {picked});
    if picked != key {
      SumWithout(series - {picked}, key);
      SumWithout(series - {key}, picked);
      assert series - {picked} - {key} == series - {key} - {picked};
    }
  }

  lemma SumOfBump(series: map<Labels, real>, key: Labels, value: real)
    ensures Sum(Bump(series, key, value)) == Sum(series) + value
  {
    var bumped := Bump(series, key, value);
    SumWithout(bumped, key);
    assert bumped - {key} == series - {key};
    if key in series {
      SumWithout(series, key);
    } else {
      assert series - {key} == series;
    }
  }

  // The series together show everything that was ever added.
  lemma {:induction false} NothingIsLost(limit: nat, log: seq<Increment>)
    ensures Sum(After(limit, log)) == Added(log)
  {
    if log != [] {
      var n := |log| - 1;
      NothingIsLost(limit, log[..n]);
      var before := After(limit, log[..n]);
      SumOfBump(before, Resolve(limit, log[n].labels, |before|), log[n].value);
    }
  }

  // --- before and after the cap ------------------------------------------

  function AddedTo(labels: Labels, log: seq<Increment>): real {
    if log == [] then 0.0
    else
      var n := |log| - 1;
      AddedTo(labels, log[..n]) + (if log[n].labels == labels then log[n].value else 0.0)
  }

  lemma {:induction false} SizeGrows(limit: nat, log: seq<Increment>, n: nat)
    requires n <= |log|
    ensures |After(limit, log[..n])| <= |After(limit, log)|
  {
    if n == |log| {
      assert log[..n] == log;
    } else {
      var shorter := log[..|log| - 1];
      SizeGrows(limit, shorter, n);
      assert shorter[..n] == log[..n];
      var before := After(limit, shorter);
      assert before.Keys <= After(limit, log).Keys;
      Cardinality(before.Keys, After(limit, log).Keys);
      assert |before.Keys| == |before| && |After(limit, log).Keys| == |After(limit, log)|;
    }
  }

  lemma {:induction false} Cardinality(a: set<Labels>, b: set<Labels>)
    requires a <= b
    ensures |a| <= |b|
    decreases a
  {
    if a != {} {
      var x :| x in a;
      Cardinality(a - {x}, b - {x});
    }
  }

  // Until the cap is reached each series shows what was added to it.
  lemma {:induction false} BelowTheCap(limit: nat, log: seq<Increment>, labels: Labels)
    requires log != [] ==> |After(limit, log[..|log| - 1])| < limit
    ensures Shown(After(limit, log), labels) == AddedTo(labels, log)
  {
    if log != [] {
      var shorter := log[..|log| - 1];
      if shorter != [] { SizeGrows(limit, shorter, |shorter| - 1); }
      BelowTheCap(limit, shorter, labels);
    }
  }

  // One more increment at the cap.
  lemma Overflows(limit: nat, log: seq<Increment>, last: Increment)
    requires |After(limit, log)| >= limit
    ensures After(limit, log + [last]) == Bump(After(limit, log), OverflowLabels(|last.labels|), last.value)
  {
    AfterNext(limit, log, last);
  }

  // From then on only the overflow series moves: it takes everything.
  lemma {:induction false} AtTheCap(limit: nat, width: nat, log: seq<Increment>, more: seq<Increment>, labels: Labels)
    requires Uniform(log + more, width) && |After(limit, log)| >= limit
    ensures Shown(After(limit, log + more), labels) ==
            Shown(After(limit, log), labels) + (if labels == OverflowLabels(width) then Added(more) else 0.0)
  {
    hide After;
    if more == [] {
      assert log + more == log;
    } else {
      var n := |more| - 1;
      var shorter := log + more[..n];
      assert shorter + [more[n]] == log + more && (log + more)[|shorter|] == more[n];
      assert forall i :: 0 <= i < |shorter| ==> shorter[i] == (log + more)[i];
      AtTheCap(limit, width, log, more[..n], labels);
      assert shorter[..|log|] == log;
      SizeGrows(limit, shorter, |log|);
      Overflows(limit, shorter, more[n]);
    }
  }
}
