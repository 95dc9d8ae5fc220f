/** The sliding window behind the read and write speeds of a connection. */
module TrafficStats {
  import opened Bytes

  // durations in nanoseconds, as in the source
  const WINDOW: nat := 250_000_000

  datatype Interval = Interval(time: nat, value: int)

  predicate Current(i: Interval, now: nat) {
    now <= i.time + WINDOW
  }

  /** The simple definition: of all that was ever added, what is at most one window old. */
  function Recent(history: seq<Interval>, now: nat): seq<Interval> {
    if history == [] then []
    else (if Current(history[0], now) then [history[0]] else []) + Recent(history[1..], now)
  }

  /** The window holds exactly what is at most 250 milliseconds old. */
  lemma {:induction false} RecentMeans(history: seq<Interval>, now: nat, i: Interval)
    ensures i in Recent(history, now) <==> i in history && now - i.time <= 250_000_000
  {
    if history != [] {
      RecentMeans(history[1..], now, i);
    }
  }

  function Total(intervals: seq<Interval>): int {
    if intervals == [] then 0 else intervals[0].value + Total(intervals[1..])
  }

  ghost predicate Ordered(history: seq<Interval>)
  {
    forall i, j :: 0 <= i <= j < |history| ==> history[i].time <= history[j].time
  }

  lemma {:induction false} RecentSnoc(history: seq<Interval>, last: Interval, now: nat)
    ensures Recent(history + [last], now) == Recent(history, now) + if Current(last, now) then [last] else []
  {
    if history == [] {
      assert [] + [last] == [last];
    } else {
      assert (history + [last])[0] == history[0] && (history + [last])[1..] == history[1..] + [last];
      RecentSnoc(history[1..], last, now);
      Assoc(if Current(history[0], now) then [history[0]] else [], Recent(history[1..], now),
            if Current(last, now) then [last] else []);
    }
  }

  lemma {:induction false} TotalSnoc(intervals: seq<Interval>, last: Interval)
    ensures Total(intervals + [last]) == Total(intervals) + last.value
  {
    if intervals == [] {
      assert [] + [last] == [last];
    } else {
      assert (intervals + [last])[1..] == intervals[1..] + [last];
      TotalSnoc(intervals[1..], last);
    }
  }

  /** What was dropped earlier would be dropped later too. */
  lemma {:induction false} RecentLater(history: seq<Interval>, now: nat, later: nat)
    requires now <= later
    ensures Recent(Recent(history, now), later) == Recent(history, later)
  {
    if history != [] {
      var rest := Recent(history[1..], now);
      assert [] + rest == rest && ([history[0]] + rest)[1..] == rest;
      RecentLater(history[1..], now, later);
    }
  }

  /** In time order, the expired intervals are a prefix: those before the first one that is current. */
  lemma {:induction false} ExpiredPrefix(intervals: seq<Interval>, now: nat, index: nat)
    requires Ordered(intervals) && index <= |intervals|
    requires forall i :: 0 <= i < index ==> !Current(intervals[i], now)
    requires index < |intervals| ==> Current(intervals[index], now)
    ensures Recent(intervals, now) == intervals[index..]
  {
    if intervals != [] {
      if index > 0 {
        ExpiredPrefix(intervals[1..], now, index - 1);
      } else {
        AllCurrent(intervals, now);
      }
    }
  }

  lemma {:induction false} AllCurrent(intervals: seq<Interval>, now: nat)
    requires Ordered(intervals) && (intervals != [] ==> Current(intervals[0], now))
    ensures Recent(intervals, now) == intervals
  {
    if |intervals| > 1 {
      AllCurrent(intervals[1..], now);
    }
  }

  lemma {:induction false} RecentOrdered(history: seq<Interval>, now: nat)
    requires Ordered(history)
    ensures Ordered(Recent(history, now))
    ensures Recent(history, now) != [] ==> history != [] && history[0].time <= Recent(history, now)[0].time
  {
    if history != [] {
      RecentOrdered(history[1..], now);
    }
  }

  lemma TotalDrop(intervals: seq<Interval>, index: nat)
    requires index < |intervals|
    ensures Total(intervals[index..]) == intervals[index].value + Total(intervals[index + 1..])
  {
    assert intervals[index..][1..] == intervals[index + 1..];
  }

  /** What is left of a validated list once its expired prefix is gone. */
  lemma DropExpired(history: seq<Interval>, before: nat, now: nat, index: nat)
    requires Ordered(history) && before <= now
    requires var intervals := Recent(history, before);
      && index <= |intervals|
      && (forall i :: 0 <= i < index ==> !Current(intervals[i], now))
      && (index < |intervals| ==> Current(intervals[index], now))
    ensures Recent(history, now) == Recent(history, before)[index..]
  {
    RecentOrdered(history, before);
    ExpiredPrefix(Recent(history, before), now, index);
    RecentLater(history, before, now);
  }

  class Speed {
    var intervals: seq<Interval>
    var sum: int
    ghost var history: seq<Interval>    // all that was ever added
    ghost var validated: nat            // the time of the last validate

    ghost predicate Valid()
      reads this
    {
      && Ordered(history)
      && intervals == Recent(history, validated)
      && sum == Total(intervals)
      && (history != [] ==> history[|history| - 1].time <= validated)
    }

    constructor ()
      ensures Valid() && history == [] && validated == 0
    {
      intervals, sum, history, validated := [], 0, [], 0;
    }

    /** The clock is read twice: for the interval, and again in validate. */
    method Add(value: int, now: nat, later: nat)
      requires Valid() && validated <= now <= later
      modifies this
      ensures Valid() && validated == later
      ensures history == old(history) + [Interval(now, value)]
    {
      ghost var last := Interval(now, value);
      RecentSnoc(history, last, validated);
      TotalSnoc(intervals, last);
      intervals := intervals + [Interval(now, value)];
      sum := sum + value;
      history := history + [last];
      Validate(later);
    }

    method Validate(now: nat)
      requires Ordered(history) && validated <= now
      requires intervals == Recent(history, validated) && sum == Total(intervals)
      requires history != [] ==> history[|history| - 1].time <= now
      modifies `intervals, `sum, `validated
      ensures Valid() && validated == now
    {
      var index := SubtractExpired(now);
      DropExpired(history, validated, now, index);
      if index > 0 {
        intervals := intervals[index..];
      }
      validated := now;
    }

    /** The loop of validate: it scans up to the first interval that is still current. */
    method SubtractExpired(now: nat) returns (index: nat)
      requires sum == Total(intervals)
      modifies `sum
      ensures index <= |intervals|
      ensures forall i :: 0 <= i < index ==> !Current(intervals[i], now)
      ensures index < |intervals| ==> Current(intervals[index], now)
      ensures sum == Total(intervals[index..])
    {
      index := 0;
      assert intervals[0..] == intervals;
      while index < |intervals| && now - intervals[index].time > WINDOW
        invariant index <= |intervals|
        invariant forall i :: 0 <= i < index ==> !Current(intervals[i], now)
        invariant sum == Total(intervals[index..])
      {
        TotalDrop(intervals, index);
        sum := sum - intervals[index].value;
        index := index + 1;
      }
    }

    method GetSpeed(now: nat) returns (bytesPerSecond: real)
      requires Valid() && validated <= now
      modifies `intervals, `sum, `validated
      ensures Valid() && validated == now
      ensures bytesPerSecond == Total(Recent(history, now)) as real / 0.25
    {
      Validate(now);
      bytesPerSecond := sum as real / (WINDOW as real / 1_000_000_000.0);
    }
  }
}
