/** `Stats`: the progress counter of a batch or task, with a start time, an
    optional end time and a lifecycle of setting the total, counting
    completed items, ending and merging. Times are positive millisecond
    readings of the clock, passed in by the caller. */
module StatsModel {
  import opened Wrappers
  import opened Values

  type Millis = t: int | t > 0 witness 1

  const TotalAfterEnd := "Cannot set total after Stats#end() is called."
  const UpdateAfterEnd := "Cannot update stats after Stats#end() is called."
  const UpdateBeforeTotal := "Cannot update stats before total is set."
  const CompletedOverTotal := "Completed count cannot be greated than total."
  const EndTwice := "Stats#end() is already called."

  function BadIncrement(n: Value): string {
    "Cannot update stats with " + StringOf(n)
  }

  /** The increment `update` counts: a missing argument defaults to 1. */
  function Increment(n: Value): (c: Value)
    ensures n.Undefined? ==> c == Num(1)
    ensures !n.Undefined? ==> c == n
  {
    if n.Undefined? then Num(1) else n
  }

  /** What `mergeWith` reads from its argument, a `Stats` or a plain record. */
  datatype Counts = Counts(total: int, completed: int, startTime: int)

  /** `toObject()` without `elapsedTime`. */
  datatype Snapshot = Snapshot(total: int, completed: int, percent: real, startTime: int, endTime: Option<Millis>)

  function Min(a: int, b: int): int {
    if a <= b then a else b
  }

  class Stats {
    var total: int
    var completed: int
    var startTime: int
    var endTime: Option<Millis>

    /** `this.endTime` is set. */
    predicate Ended()
      reads this
    {
      endTime.Some?
    }

    /** `update(n)` would succeed. */
    predicate Accepts(n: Value)
      reads this
    {
      var c := Increment(n);
      !Ended() && total != 0 && c.Num? && c.n >= 1 && completed + c.n <= total
    }

    /** `new Stats(total)` at time `now`. */
    constructor (total: int, now: Millis)
      ensures this.total == total && completed == 0
      ensures startTime == now && endTime == None
    {
      this.total := total;
      completed := 0;
      startTime := now;
      endTime := None;
    }

    /** The `total` setter: a negative total is stored as 0. */
    method SetTotal(value: int) returns (r: Result<()>)
      modifies this
      ensures r.Err? <==> old(Ended())
      ensures r.Err? ==> r.msg == TotalAfterEnd && unchanged(this)
      ensures r.Ok? ==> total == (if value < 0 then 0 else value)
      ensures r.Ok? ==> completed == old(completed) && startTime == old(startTime) && endTime == old(endTime)
    {
      if Ended() {
        return Err(TotalAfterEnd);
      }
      total := if value < 0 then 0 else value;
      return Ok(());
    }

    /** `update(n)`: counts `n` more completed items, 1 when `n` is missing.
        `+Infinity` passes the "at least 1" test and then exceeds any total;
        fractional increments and `NaN` are rejected like non-numbers. */
    method Update(n: Value) returns (r: Result<()>)
      modifies this
      ensures r.Ok? <==> old(Accepts(n))
      ensures old(Ended()) ==> r == Err(UpdateAfterEnd)
      ensures !old(Ended()) && old(total) == 0 ==> r == Err(UpdateBeforeTotal)
      ensures var c := Increment(n);
        !old(Ended()) && old(total) != 0 && !(c.Num? && c.n >= 1) && c != Inf(false) ==> r == Err(BadIncrement(c))
      ensures !old(Ended()) && old(total) != 0 && n == Inf(false) ==> r == Err(CompletedOverTotal)
      ensures var c := Increment(n);
        !old(Ended()) && old(total) != 0 && c.Num? && c.n >= 1 && old(completed) + c.n > old(total) ==>
        r == Err(CompletedOverTotal)
      ensures r.Err? ==> unchanged(this)
      ensures r.Ok? ==> completed == old(completed) + Increment(n).n
      ensures n.Undefined? && r.Ok? ==> completed == old(completed) + 1
      ensures total == old(total) && startTime == old(startTime) && endTime == old(endTime)
    {
      var c := Increment(n);
      if Ended() {
        return Err(UpdateAfterEnd);
      }
      if total == 0 {
        return Err(UpdateBeforeTotal);
      }
      if c == Inf(false) {
        return Err(CompletedOverTotal);
      }
      if !c.Num? || c.n < 1 {
        return Err(BadIncrement(c));
      }
      if completed + c.n > total {
        return Err(CompletedOverTotal);
      }
      completed := completed + c.n;
      return Ok(());
    }

    /** `end()` at time `now`. */
    method End(now: Millis) returns (r: Result<()>)
      modifies this
      ensures r.Err? <==> old(Ended())
      ensures r.Err? ==> r.msg == EndTwice && unchanged(this)
      ensures r.Ok? ==> endTime == Some(now)
      ensures total == old(total) && completed == old(completed) && startTime == old(startTime)
    {
      if Ended() {
        return Err(EndTwice);
      }
      endTime := Some(now);
      return Ok(());
    }

    /** The `percent` getter, as an exact fraction. */
    function Percent(): (p: real)
      reads this
      ensures total <= 0 ==> p == 0.0
      ensures total > 0 ==> p * total as real == completed as real
    {
      if total > 0 then completed as real / total as real else 0.0
    }

    /** What `mergeWith` reads from this instance. */
    function Reading(): Counts
      reads this
    {
      Counts(total, completed, startTime)
    }

    /** `toObject()`, leaving out the elapsed time. */
    function ToObject(): (o: Snapshot)
      reads this
      ensures o.total == total && o.completed == completed && o.percent == Percent()
      ensures o.startTime == startTime && o.endTime == endTime
    {
      Snapshot(total, completed, Percent(), startTime, endTime)
    }

    /** `mergeWith(b)`: sums of the counts, the earlier start, not ended.
        The argument is read only. */
    method MergeWith(b: Counts)
      modifies this
      ensures total == old(total) + b.total && completed == old(completed) + b.completed
      ensures startTime == Min(old(startTime), b.startTime) && endTime == None
    {
      total, completed := total + b.total, completed + b.completed;
      startTime := Min(startTime, b.startTime);
      endTime := None;
    }

    /** `Stats.merge(a, b)` at time `now`: an instance `a` is merged into in
        place; a plain record is first merged into a new instance. */
    static method Merge(a: StatsArg, b: StatsArg, now: Millis) returns (r: Stats)
      modifies if a.Instance? then {a.stats} else {}
      ensures a.Instance? ==> r == a.stats
      ensures a.Record? ==> fresh(r)
      ensures r.total == old(CountsOf(a).total) + old(CountsOf(b).total)
      ensures r.completed == old(CountsOf(a).completed) + old(CountsOf(b).completed)
      ensures a.Instance? ==> r.startTime == Min(old(CountsOf(a).startTime), old(CountsOf(b).startTime))
      ensures a.Record? ==> r.startTime == Min(Min(now, a.counts.startTime), old(CountsOf(b).startTime))
      ensures !r.Ended()
    {
      var second := CountsOf(b);
      if a.Instance? {
        r := a.stats;
      } else {
        r := new Stats(0, now);
        r.MergeWith(a.counts);
      }
      r.MergeWith(second);
    }
  }

  /** An argument of `Stats.merge`: an instance or a plain record. */
  datatype StatsArg = Instance(stats: Stats) | Record(counts: Counts)

  function CountsOf(a: StatsArg): Counts
    reads if a.Instance? then {a.stats} else {}
  {
    if a.Instance? then a.stats.Reading() else a.counts
  }

  /** `percent` is 1 exactly when every item of a non-zero total is done. */
  lemma PercentComplete(s: Stats)
    ensures s.Percent() == 1.0 <==> s.total > 0 && s.completed == s.total
  {
    if s.total > 0 {
      assert s.Percent() * s.total as real == s.completed as real;
    }
  }

  /** A fresh instance counts nothing and is not ended. */
  lemma FreshStats(s: Stats)
    requires s.completed == 0 && s.endTime == None
    ensures s.Percent() == 0.0 && !s.Ended()
  {
  }
}
