// What the per-line limit counters are supposed to say: counts over a log of
// everything recorded, by UTC second, hour and day.  Times are milliseconds
// since the epoch; a UTC day has 86400 seconds.
module LimitLog {

  type Line = string
  type Phone = string

  datatype Period = Second | Hour | Day

  function Length(p: Period): int {
    match p
    case Second => 1000
    case Hour => 3600 * 1000
    case Day => 86400 * 1000
  }

  // The second, hour or day a moment lies in.
  function BucketOf(p: Period, at: int): int {
    at / Length(p)
  }

  function Milliseconds(p: Period): int {
    match p case Second => 1000 case Hour => 3_600_000 case Day => 86_400_000
  }

  // Buckets follow the UTC clock: each begins on the full second, hour or day and
  // ends where the next one begins.
  lemma BucketsFollowTheClock(p: Period, at: int, bucket: int)
    ensures BucketOf(p, at) == bucket <==> bucket * Milliseconds(p) <= at < (bucket + 1) * Milliseconds(p)
  {
    var size := Milliseconds(p);
    assert size * (at / size) <= at < size * (at / size) + size;
    if bucket < at / size { assert (bucket + 1) * size <= (at / size) * size; }
    if bucket > at / size { assert bucket * size >= (at / size + 1) * size; }
  }

  datatype Entry =
    | Sent(line: Line, at: int, followUp: bool)
    | Heard(line: Line, phone: Phone, at: int)

  // A counter: the sends, or the follow-ups, of one line in one bucket.
  datatype Counter = Counter(line: Line, period: Period, bucket: int, followUpsOnly: bool)

  predicate Counts(c: Counter, e: Entry) {
    e.Sent? && e.line == c.line && BucketOf(c.period, e.at) == c.bucket && (c.followUpsOnly ==> e.followUp)
  }

  function Total(c: Counter, log: seq<Entry>): nat {
    if log == [] then 0
    else Total(c, log[..|log| - 1]) + (if Counts(c, log[|log| - 1]) then 1 else 0)
  }

  // The numbers a line heard from on one day.
  function Callers(line: Line, day: int, log: seq<Entry>): set<Phone> {
    if log == [] then {}
    else
      var e := log[|log| - 1];
      Callers(line, day, log[..|log| - 1])
      + (if e.Heard? && e.line == line && BucketOf(Day, e.at) == day then {e.phone} else {})
  }

  lemma TotalNext(c: Counter, log: seq<Entry>, e: Entry)
    ensures Total(c, log + [e]) == Total(c, log) + (if Counts(c, e) then 1 else 0)
  {
    assert (log + [e])[..|log|] == log;
  }

  lemma CallersNext(line: Line, day: int, log: seq<Entry>, e: Entry)
    ensures Callers(line, day, log + [e]) ==
            Callers(line, day, log) + (if e.Heard? && e.line == line && BucketOf(Day, e.at) == day then {e.phone} else {})
  {
    assert (log + [e])[..|log|] == log;
  }

  // --- counters of one moment fit inside each other ----------------------

  function At(line: Line, p: Period, at: int): Counter {
    Counter(line, p, BucketOf(p, at), false)
  }

  lemma {:induction false} Fewer(c: Counter, c': Counter, log: seq<Entry>)
    requires forall e :: Counts(c, e) ==> Counts(c', e)
    ensures Total(c, log) <= Total(c', log)
  {
    if log != [] { Fewer(c, c', log[..|log| - 1]); }
  }

  lemma BucketsNest(at: int, at': int)
    ensures BucketOf(Second, at) == BucketOf(Second, at') ==> BucketOf(Hour, at) == BucketOf(Hour, at')
    ensures BucketOf(Hour, at) == BucketOf(Hour, at') ==> BucketOf(Day, at) == BucketOf(Day, at')
  {
    HoursOfSeconds(at);
    HoursOfSeconds(at');
    DaysOfHours(at);
    DaysOfHours(at');
  }

  // A coarser bucket can be told from a finer one.
  lemma HoursOfSeconds(at: int)
    ensures BucketOf(Hour, at) == BucketOf(Second, at) / 3600
  {
    var second := at / 1000;
    var hour := second / 3600;
    assert 1000 * second <= at < 1000 * second + 1000;
    assert 3600 * hour <= second <= 3600 * hour + 3599;
    assert 3600000 * hour <= at < 3600000 * hour + 3600000;
  }

  lemma DaysOfHours(at: int)
    ensures BucketOf(Day, at) == BucketOf(Hour, at) / 24
  {
    var hour := at / 3600000;
    var day := hour / 24;
    assert 3600000 * hour <= at < 3600000 * hour + 3600000;
    assert 24 * day <= hour <= 24 * day + 23;
    assert 86400000 * day <= at < 86400000 * day + 86400000;
  }

  lemma CountsNest(line: Line, at: int, log: seq<Entry>)
    ensures Total(At(line, Second, at), log) <= Total(At(line, Hour, at), log) <= Total(At(line, Day, at), log)
    ensures Total(At(line, Day, at).(followUpsOnly := true), log) <= Total(At(line, Day, at), log)
  {
    forall e: Entry ensures Counts(At(line, Second, at), e) ==> Counts(At(line, Hour, at), e) { BucketsNest(e.at, at); }
    forall e: Entry ensures Counts(At(line, Hour, at), e) ==> Counts(At(line, Day, at), e) { BucketsNest(e.at, at); }
    Fewer(At(line, Second, at), At(line, Hour, at), log);
    Fewer(At(line, Hour, at), At(line, Day, at), log);
    Fewer(At(line, Day, at).(followUpsOnly := true), At(line, Day, at), log);
  }

  // --- threshold crossings -----------------------------------------------

  datatype Limits = Limits(perHour: nat, perDay: nat, followUpWarn: int, followUpLimit: int, contactsWarn: int, contactsLimit: int)

  datatype Gauge = OutboundHour | OutboundDay | FollowUp | InboundDistinct
  datatype Level = Warn | Limit
  datatype Crossing = Crossing(gauge: Gauge, level: Level, line: Line, at: int)

  function Threshold(cfg: Limits, g: Gauge, l: Level): int {
    match (g, l)
    case (OutboundHour, Warn) => cfg.perHour * 8 / 10
    case (OutboundHour, Limit) => cfg.perHour
    case (OutboundDay, Warn) => cfg.perDay * 8 / 10
    case (OutboundDay, Limit) => cfg.perDay
    case (FollowUp, Warn) => cfg.followUpWarn
    case (FollowUp, Limit) => cfg.followUpLimit
    case (InboundDistinct, Warn) => cfg.contactsWarn
    case (InboundDistinct, Limit) => cfg.contactsLimit
  }

  function PeriodOf(g: Gauge): Period {
    if g == OutboundHour then Hour else Day
  }

  // What a gauge of a line shows for one bucket.
  function Reading(g: Gauge, line: Line, bucket: int, log: seq<Entry>): nat {
    match g
    case InboundDistinct => |Callers(line, bucket, log)|
    case _ => Total(Counter(line, PeriodOf(g), bucket, g == FollowUp), log)
  }

  // The entry moves the gauge of its line.
  predicate Moves(g: Gauge, log: seq<Entry>, e: Entry) {
    match g
    case InboundDistinct => e.Heard? && e.phone !in Callers(e.line, BucketOf(Day, e.at), log)
    case FollowUp => e.Sent? && e.followUp
    case _ => e.Sent?
  }

  function Alarm(cfg: Limits, log: seq<Entry>, e: Entry, g: Gauge, l: Level): seq<Crossing> {
    if Moves(g, log, e) && Reading(g, e.line, BucketOf(PeriodOf(g), e.at), log + [e]) == Threshold(cfg, g, l)
    then [Crossing(g, l, e.line, e.at)]
    else []
  }

  function Alarms(cfg: Limits, log: seq<Entry>, e: Entry, g: Gauge): seq<Crossing> {
    Alarm(cfg, log, e, g, Warn) + Alarm(cfg, log, e, g, Limit)
  }

  function Announced(cfg: Limits, log: seq<Entry>, e: Entry): seq<Crossing> {
    Alarms(cfg, log, e, OutboundHour) + Alarms(cfg, log, e, OutboundDay)
    + Alarms(cfg, log, e, FollowUp) + Alarms(cfg, log, e, InboundDistinct)
  }

  // Every crossing announced while the log was written.
  function Crossings(cfg: Limits, log: seq<Entry>): seq<Crossing> {
    if log == [] then []
    else Crossings(cfg, log[..|log| - 1]) + Announced(cfg, log[..|log| - 1], log[|log| - 1])
  }

  predicate Hits(x: Crossing, g: Gauge, l: Level, line: Line, bucket: int) {
    x.gauge == g && x.level == l && x.line == line && BucketOf(PeriodOf(g), x.at) == bucket
  }

  function Fired(xs: seq<Crossing>, g: Gauge, l: Level, line: Line, bucket: int): nat {
    if xs == [] then 0
    else Fired(xs[..|xs| - 1], g, l, line, bucket) + (if Hits(xs[|xs| - 1], g, l, line, bucket) then 1 else 0)
  }

  lemma {:induction false} FiredAppend(xs: seq<Crossing>, ys: seq<Crossing>, g: Gauge, l: Level, line: Line, bucket: int)
    ensures Fired(xs + ys, g, l, line, bucket) == Fired(xs, g, l, line, bucket) + Fired(ys, g, l, line, bucket)
  {
    if ys == [] {
      assert xs + ys == xs;
    } else {
      FiredAppend(xs, ys[..|ys| - 1], g, l, line, bucket);
      assert (xs + ys)[..|xs + ys| - 1] == xs + ys[..|ys| - 1];
    }
  }

  // An entry moves a reading by one, or not at all.
  lemma ReadingNext(g: Gauge, line: Line, bucket: int, log: seq<Entry>, e: Entry)
    ensures Reading(g, line, bucket, log + [e]) ==
            Reading(g, line, bucket, log)
            + (if Moves(g, log, e) && e.line == line && BucketOf(PeriodOf(g), e.at) == bucket then 1 else 0)
  {
    if g == InboundDistinct {
      CallersNext(line, bucket, log, e);
      if e.Heard? && e.line == line && BucketOf(Day, e.at) == bucket && e.phone in Callers(line, bucket, log) {
        assert Callers(line, bucket, log) + {e.phone} == Callers(line, bucket, log);
      }
    } else {
      TotalNext(Counter(line, PeriodOf(g), bucket, g == FollowUp), log, e);
    }
  }

  lemma AlarmFires(cfg: Limits, log: seq<Entry>, e: Entry, g': Gauge, l': Level, g: Gauge, l: Level, line: Line, bucket: int)
    ensures Fired(Alarm(cfg, log, e, g', l'), g, l, line, bucket) ==
            if g' == g && l' == l && Moves(g, log, e) && e.line == line && BucketOf(PeriodOf(g), e.at) == bucket
               && Reading(g, line, bucket, log + [e]) == Threshold(cfg, g, l)
            then 1 else 0
  {
    hide Moves, Reading, BucketOf, Threshold;
    assert [Crossing(g', l', e.line, e.at)][..0] == [];
  }

  lemma AlarmsFire(cfg: Limits, log: seq<Entry>, e: Entry, g': Gauge, g: Gauge, l: Level, line: Line, bucket: int)
    ensures Fired(Alarms(cfg, log, e, g'), g, l, line, bucket) ==
            if g' == g then Fired(Alarm(cfg, log, e, g, l), g, l, line, bucket) else 0
  {
    hide Alarm, Fired, BucketOf, Reading, Moves;
    FiredAppend(Alarm(cfg, log, e, g', Warn), Alarm(cfg, log, e, g', Limit), g, l, line, bucket);
    AlarmFires(cfg, log, e, g', Warn, g, l, line, bucket);
    AlarmFires(cfg, log, e, g', Limit, g, l, line, bucket);
  }

  lemma AnnouncedFires(cfg: Limits, log: seq<Entry>, e: Entry, g: Gauge, l: Level, line: Line, bucket: int)
    ensures Fired(Announced(cfg, log, e), g, l, line, bucket) == Fired(Alarm(cfg, log, e, g, l), g, l, line, bucket)
  {
    hide Alarms, Alarm, Fired;
    var a, b := Alarms(cfg, log, e, OutboundHour), Alarms(cfg, log, e, OutboundDay);
    var c, d := Alarms(cfg, log, e, FollowUp), Alarms(cfg, log, e, InboundDistinct);
    FiredAppend(a + b + c, d, g, l, line, bucket);
    FiredAppend(a + b, c, g, l, line, bucket);
    FiredAppend(a, b, g, l, line, bucket);
    AlarmsFire(cfg, log, e, OutboundHour, g, l, line, bucket);
    AlarmsFire(cfg, log, e, OutboundDay, g, l, line, bucket);
    AlarmsFire(cfg, log, e, FollowUp, g, l, line, bucket);
    AlarmsFire(cfg, log, e, InboundDistinct, g, l, line, bucket);
  }

  // However the log was written, a threshold is announced exactly once in every
  // bucket whose reading reaches it, and never in any other.
  lemma {:induction false} ThresholdsFireOnce(cfg: Limits, log: seq<Entry>, g: Gauge, l: Level, line: Line, bucket: int)
    ensures Fired(Crossings(cfg, log), g, l, line, bucket) ==
            if 1 <= Threshold(cfg, g, l) <= Reading(g, line, bucket, log) then 1 else 0
  {
    hide Alarm, Fired, Announced, Reading, Moves, Threshold, BucketOf;
    if log == [] {
      NothingYet(g, l, line, bucket);
    } else {
      var before, e := log[..|log| - 1], log[|log| - 1];
      assert before + [e] == log;
      ThresholdsFireOnce(cfg, before, g, l, line, bucket);
      FiredAppend(Crossings(cfg, before), Announced(cfg, before, e), g, l, line, bucket);
      AnnouncedFires(cfg, before, e, g, l, line, bucket);
      AlarmFires(cfg, before, e, g, l, g, l, line, bucket);
      ReadingNext(g, line, bucket, before, e);
    }
  }

  // The sends of an hour or a day are warned of once they reach four fifths of
  // what is allowed, rounded down, and reported once they reach all of it; a
  // limit below two warns of nothing.
  lemma SendsWarnExactlyWhen(cfg: Limits, log: seq<Entry>, g: Gauge, line: Line, bucket: int)
    requires g.OutboundHour? || g.OutboundDay?
    ensures var allowed := if g.OutboundHour? then cfg.perHour else cfg.perDay;
            var sent := Total(Counter(line, if g.OutboundHour? then Hour else Day, bucket, false), log);
            && Fired(Crossings(cfg, log), g, Warn, line, bucket) == (if allowed >= 2 && 10 * (sent + 1) > 8 * allowed then 1 else 0)
            && Fired(Crossings(cfg, log), g, Limit, line, bucket) == (if sent >= allowed > 0 then 1 else 0)
  {
    hide Fired, Crossings, Total;
    ThresholdsFireOnce(cfg, log, g, Warn, line, bucket);
    ThresholdsFireOnce(cfg, log, g, Limit, line, bucket);
  }

  // Follow-ups and contacts have thresholds of their own for both.
  lemma OthersWarnExactlyWhen(cfg: Limits, log: seq<Entry>, line: Line, bucket: int)
    ensures var followUps := Total(Counter(line, Day, bucket, true), log);
            && Fired(Crossings(cfg, log), FollowUp, Warn, line, bucket) == (if followUps >= cfg.followUpWarn > 0 then 1 else 0)
            && Fired(Crossings(cfg, log), FollowUp, Limit, line, bucket) == (if followUps >= cfg.followUpLimit > 0 then 1 else 0)
    ensures var contacts := |Callers(line, bucket, log)|;
            && Fired(Crossings(cfg, log), InboundDistinct, Warn, line, bucket) == (if contacts >= cfg.contactsWarn > 0 then 1 else 0)
            && Fired(Crossings(cfg, log), InboundDistinct, Limit, line, bucket) == (if contacts >= cfg.contactsLimit > 0 then 1 else 0)
  {
    hide Fired, Crossings, Total, Callers;
    ThresholdsFireOnce(cfg, log, FollowUp, Warn, line, bucket);
    ThresholdsFireOnce(cfg, log, FollowUp, Limit, line, bucket);
    ThresholdsFireOnce(cfg, log, InboundDistinct, Warn, line, bucket);
    ThresholdsFireOnce(cfg, log, InboundDistinct, Limit, line, bucket);
  }

  lemma NothingYet(g: Gauge, l: Level, line: Line, bucket: int)
    ensures Fired([], g, l, line, bucket) == 0 && Reading(g, line, bucket, []) == 0
  {
  }
}
