/**
 * The top-users statistics page: the date-range handler that clamps the
 * selected window to at most thirty days, the per-row quota breakdown and
 * the positional rank column. Instants are JavaScript millisecond
 * timestamps; the hook stores whole seconds.
 */
module StatsPage {
  import opened Wrappers
  import opened NumberText
  import opened TopUsersData

  /** Thirty days, in seconds. */
  const MaxDuration := 30 * 24 * 60 * 60

  /** A window `[start, end]` in seconds. */
  datatype Window = Window(start: int, end: int)

  /**
   * A window longer than thirty days is replaced by the thirty days ending
   * at `end`; any other window is kept as it is.
   */
  function ClampWindow(start: int, end: int): (w: Window)
    ensures w.end == end
    ensures w.end - w.start <= MaxDuration
    ensures end - start <= MaxDuration ==> w.start == start
    ensures end - start > MaxDuration ==> w.start == end - MaxDuration && start < w.start
    ensures start <= end ==> start <= w.start <= w.end
  {
    if end - start > MaxDuration then Window(end - MaxDuration, end) else Window(start, end)
  }

  /** Clamping a clamped window changes nothing. */
  lemma ClampIdempotent(start: int, end: int)
    ensures var w := ClampWindow(start, end); ClampWindow(w.start, w.end) == w
  {
  }

  /** A forty-day window keeps its last thirty days. */
  lemma ClampFortyDays(t: int)
    ensures ClampWindow(t, t + 40 * 24 * 60 * 60) == Window(t + 10 * 24 * 60 * 60, t + 40 * 24 * 60 * 60)
  {
  }

  /** The picker hands over both ends (a cleared picker is the empty sequence). */
  predicate IsCompleteRange(picked: seq<Option<int>>)
    ensures IsCompleteRange(picked) ==> |picked| >= 2
    ensures picked == [] ==> !IsCompleteRange(picked)
  {
    |picked| >= 2 && picked[0].Some? && picked[1].Some?
  }

  /** `Math.floor(ms / 1000)`: Dafny's division by a positive divisor rounds down. */
  function Seconds(ms: int): (s: int)
    ensures s * 1000 <= ms < s * 1000 + 1000
  {
    ms / 1000
  }

  /** The quota breakdown shown for one row. */
  datatype QuotaUsage = QuotaUsage(remain: int, total: int, used: int, percent: real)

  /** `total > 0 ? (remain / total) * 100 : 0`, in exact arithmetic. */
  function RemainingPercent(remain: int, total: int): (p: real)
    ensures total <= 0 ==> p == 0.0
    ensures total > 0 ==> p * (total as real) == (remain as real) * 100.0
    ensures 0 <= remain <= total ==> 0.0 <= p <= 100.0
  {
    if total > 0 then
      var r, t := remain as real, total as real;
      var x := r / t;
      assert x * t == r;
      assert (x * 100.0) * t == (x * t) * 100.0;
      assert 0 <= remain <= total ==> 0.0 <= x <= 1.0;
      x * 100.0
    else 0.0
  }

  /**
   * Remaining and total are read with parse-or-zero; `used` is their
   * difference, unclamped; the remaining percentage is 0 for a
   * non-positive total.
   */
  function RenderQuotaUsage(record: TopUser): (u: QuotaUsage)
    ensures u.remain == ParseIntOrZero(record.remainingQuota)
    ensures u.total == ParseIntOrZero(record.totalQuota)
    ensures u.used + u.remain == u.total
    ensures u.percent == RemainingPercent(u.remain, u.total)
  {
    var remain := ParseIntOrZero(record.remainingQuota);
    var total := ParseIntOrZero(record.totalQuota);
    QuotaUsage(remain, total, total - remain, RemainingPercent(remain, total))
  }

  /** More remaining than total shows as negative usage. */
  lemma NegativeUsage(remain: nat, total: nat)
    requires remain > total
    ensures RenderQuotaUsage(TopUser("u", DecimalString(remain), DecimalString(total), 0)).used < 0
  {
    ParseIntOfDecimalPrefix(remain, []);
    ParseIntOfDecimalPrefix(total, []);
    assert DecimalString(remain) + [] == DecimalString(remain);
    assert DecimalString(total) + [] == DecimalString(total);
  }

  /** `remaining "5", total "0"`: used -5, remaining 5, 0 percent. */
  lemma ZeroTotalExample()
    ensures RenderQuotaUsage(TopUser("u", "5", "0", 0)) == QuotaUsage(5, 0, -5, 0.0)
  {
    ParseIntOfDecimalPrefix(5, []);
    ParseIntOfDecimalPrefix(0, []);
    assert DecimalString(5) + [] == "5";
    assert DecimalString(0) + [] == "0";
  }

  /** `remaining "30", total "100"`: used 70, remaining 30, 30 percent. */
  lemma NormalExample()
    ensures RenderQuotaUsage(TopUser("u", "30", "100", 0)) == QuotaUsage(30, 100, 70, 30.0)
  {
    assert DecimalString(30) == "30" by {
      assert DecimalString(3) == "3";
    }
    assert DecimalString(100) == "100" by {
      assert DecimalString(1) == "1";
      assert DecimalString(10) == "10";
    }
    ParseIntOfDecimalPrefix(30, []);
    ParseIntOfDecimalPrefix(100, []);
    assert "30" + [] == "30" && "100" + [] == "100";
    var p := RemainingPercent(30, 100);
    assert p * 100.0 == 3000.0;
  }

  /** A row of the table: its rank and its record. */
  datatype RankedRow = RankedRow(rank: nat, user: TopUser)

  /** The table rows in server order; the rank of the row at index `i` is `i + 1`. */
  function RankedRows(users: seq<TopUser>): (rows: seq<RankedRow>)
    ensures |rows| == |users|
    ensures forall i :: 0 <= i < |rows| ==> rows[i] == RankedRow(i + 1, users[i])
  {
    if users == [] then []
    else RankedRows(users[..|users| - 1]) + [RankedRow(|users|, users[|users| - 1])]
  }

  /** Ranks are strictly increasing from 1 and rows are not reordered. */
  lemma RanksArePositions(users: seq<TopUser>)
    ensures var rows := RankedRows(users);
      (forall i, j :: 0 <= i < j < |rows| ==> rows[i].rank < rows[j].rank)
      && (|rows| > 0 ==> rows[0].rank == 1 && rows[|rows| - 1].rank == |users|)
  {
  }

  class StatsPage {
    const hook: TopUsersData
    /** The picker's value, in milliseconds. */
    var dateRange: seq<Option<int>>

    constructor (hook: TopUsersData)
      ensures this.hook == hook && dateRange == []
    {
      this.hook := hook;
      dateRange := [];
    }

    /** The mount effect: the window from today's local midnight to now. */
    method Mount(todayStartMs: int, nowMs: int)
      modifies this`dateRange, hook`startTimestamp, hook`endTimestamp
      ensures hook.startTimestamp == Seconds(todayStartMs) && hook.endTimestamp == Seconds(nowMs)
      ensures dateRange == [Some(todayStartMs), Some(nowMs)]
    {
      hook.SetStartTimestamp(Seconds(todayStartMs));
      hook.SetEndTimestamp(Seconds(nowMs));
      dateRange := [Some(todayStartMs), Some(nowMs)];
    }

    /**
     * `handleDateChange`: an incomplete selection is ignored; otherwise the
     * hook gets the clamped window in seconds, and the picker either keeps
     * the selection or, when it was clamped, shows the clamped window.
     */
    method HandleDateChange(picked: seq<Option<int>>)
      modifies this`dateRange, hook`startTimestamp, hook`endTimestamp
      ensures !IsCompleteRange(picked) ==>
        dateRange == old(dateRange)
        && hook.startTimestamp == old(hook.startTimestamp) && hook.endTimestamp == old(hook.endTimestamp)
      ensures IsCompleteRange(picked) ==>
        var start, end := Seconds(picked[0].value), Seconds(picked[1].value);
        var w := ClampWindow(start, end);
        hook.startTimestamp == w.start && hook.endTimestamp == w.end
        && hook.endTimestamp - hook.startTimestamp <= MaxDuration
        && dateRange == if end - start > MaxDuration then [Some(w.start * 1000), Some(w.end * 1000)] else picked
    {
      if |picked| >= 2 && picked[0].Some? && picked[1].Some? {
        var start := Seconds(picked[0].value);
        var end := Seconds(picked[1].value);
        if end - start > MaxDuration {
          hook.SetStartTimestamp(end - MaxDuration);
          hook.SetEndTimestamp(end);
          dateRange := [Some((end - MaxDuration) * 1000), Some(end * 1000)];
        } else {
          hook.SetStartTimestamp(start);
          hook.SetEndTimestamp(end);
          dateRange := picked;
        }
      }
    }
  }
}
