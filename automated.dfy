/**
  * The automated planner: the total item count is spread over the slots, each
  * slot getting the floor share and the first `total % n` slots one item more;
  * slots whose share is zero are dropped.
  */
module Automated {
  import opened Types
  import opened Calendar
  import opened Slots
  import opened PlanSummary

  /** Division that truncates toward zero, as JavaScript's `%` pairs with. */
  function TruncDiv(a: int, n: int): int
    requires n > 0
  {
    if a >= 0 then a / n else -((-a) / n)
  }

  /** JavaScript's `%`: the remainder of truncating division, with the dividend's sign. */
  function JsRemainder(a: int, n: int): (r: int)
    requires n > 0
    ensures a == n * TruncDiv(a, n) + r && -n < r < n
    ensures a >= 0 ==> r >= 0
    ensures a <= 0 ==> r <= 0
  {
    if a >= 0 then a % n else -((-a) % n)
  }

  /** The share of the slot at `index` among `n` slots (`Math.floor` is floor division). */
  function BatchSize(n: int, total: int, index: int): int
    requires n > 0
  {
    if index < JsRemainder(total, n) then total / n + 1 else total / n
  }

  /** The executions for the first `k` slots. */
  function PlanPrefix(slots: seq<int>, total: int, k: int): seq<Execution>
    requires 0 <= k <= |slots|
    decreases k
  {
    if k == 0 then []
    else
      var size := BatchSize(|slots|, total, k - 1);
      PlanPrefix(slots, total, k - 1) + (if size > 0 then [Execution(slots[k - 1], size)] else [])
  }

  /** The distribution of `total` items over `slots`; no slots, no executions. */
  function Distribute(slots: seq<int>, total: int): seq<Execution>
  {
    if |slots| == 0 then [] else PlanPrefix(slots, total, |slots|)
  }

  /** The automated plan of a request. */
  function AutomatedSchedule(c: Config): seq<Execution>
    requires c.mode.Automated?
  {
    Distribute(TimeSlots(c), c.mode.totalCount)
  }

  /** `calculateAutomatedSchedule`. */
  method CalculateAutomatedSchedule(c: Config) returns (executions: seq<Execution>)
    requires c.mode.Automated?
    ensures executions == AutomatedSchedule(c)
  {
    var slots := CalculateTimeSlots(c);
    var totalCount := c.mode.totalCount;
    var totalSlots := |slots|;
    if totalSlots == 0 {
      return [];
    }
    executions := [];
    var baseItemsPerSlot := totalCount / totalSlots;
    var remainder := JsRemainder(totalCount, totalSlots);
    for index := 0 to totalSlots
      invariant executions == PlanPrefix(slots, totalCount, index)
    {
      var batchSize := if index < remainder then baseItemsPerSlot + 1 else baseItemsPerSlot;
      if batchSize > 0 {
        executions := executions + [Execution(slots[index], batchSize)];
      }
    }
  }

  /**
    * Shares are balanced and front-loaded: earlier slots never get less, no two
    * differ by more than one, and a slot gets the larger share exactly when its
    * index is below `total % n`.
    */
  lemma BatchSizesBalanced(n: int, total: int, i: int, j: int)
    requires n > 0 && total >= 0 && 0 <= i <= j < n
    ensures BatchSize(n, total, j) <= BatchSize(n, total, i) <= BatchSize(n, total, j) + 1
    ensures BatchSize(n, total, i) == total / n + 1 <==> i < total % n
    ensures BatchSize(n, total, i) == total / n <==> i >= total % n
  {
  }

  /** Floor division of a non-negative count by a positive one. */
  lemma DivisionFacts(total: int, n: int)
    requires total >= 0 && n > 0
    ensures total == n * (total / n) + total % n
    ensures total / n >= 0 && 0 <= total % n < n
    ensures total / n == 0 <==> total < n
    ensures total < n ==> total % n == total
  {
    if total / n > 0 {
      assert n * (total / n) >= n;
    }
  }

  /**
    * For a non-negative total, the first `k` slots yield one execution per slot
    * as long as shares stay positive, each at its slot with its share.
    */
  lemma {:induction false} PlanPrefixShape(slots: seq<int>, total: int, k: int)
    requires |slots| > 0 && total >= 0 && 0 <= k <= |slots|
    ensures |PlanPrefix(slots, total, k)| == (if total < k then total else k)
    ensures forall m :: 0 <= m < |PlanPrefix(slots, total, k)| ==>
      PlanPrefix(slots, total, k)[m] == Execution(slots[m], BatchSize(|slots|, total, m))
    decreases k
  {
    if k > 0 {
      var n := |slots|;
      DivisionFacts(total, n);
      PlanPrefixShape(slots, total, k - 1);
      if BatchSize(n, total, k - 1) <= 0 {
        assert total / n == 0 && total % n == total;
      }
    }
  }

  /**
    * For a non-negative total with floor share `base` and remainder `rem`, the
    * first `k` slots hold `k * base + min(k, rem)` items.
    */
  lemma {:induction false} PlanPrefixItems(slots: seq<int>, total: int, k: int, base: int, rem: int)
    requires |slots| > 0 && total >= 0 && 0 <= k <= |slots|
    requires base == total / |slots| && rem == total % |slots|
    ensures TotalItems(PlanPrefix(slots, total, k)) == k * base + (if k < rem then k else rem)
    decreases k
  {
    if k > 0 {
      var n := |slots|;
      DivisionFacts(total, n);
      var prev := PlanPrefix(slots, total, k - 1);
      var size := BatchSize(n, total, k - 1);
      assert size == if k - 1 < rem then base + 1 else base;
      PlanPrefixItems(slots, total, k - 1, base, rem);
      var tail := if size > 0 then [Execution(slots[k - 1], size)] else [];
      TotalItemsAppend(prev, tail);
      assert TotalItems(tail) == if size > 0 then size else 0;
      assert k * base == (k - 1) * base + base;
      if size <= 0 {
        assert base == 0 && rem == total;
      }
    }
  }

  /**
    * With at least one slot and a non-negative total, the plan holds exactly
    * `total` items, one execution for each of the first `min(n, total)` slots,
    * each at its slot with its share, and every share is at least one.
    */
  lemma DistributeExact(slots: seq<int>, total: int)
    requires |slots| > 0 && total >= 0
    ensures var p := Distribute(slots, total);
      TotalItems(p) == total &&
      |p| == (if total < |slots| then total else |slots|) &&
      (forall m :: 0 <= m < |p| ==>
        p[m] == Execution(slots[m], BatchSize(|slots|, total, m)) && p[m].batchSize >= 1)
  {
    var n := |slots|;
    PlanPrefixShape(slots, total, n);
    PlanPrefixItems(slots, total, n, total / n, total % n);
    DivisionFacts(total, n);
    forall m | 0 <= m < n
      ensures m < total ==> BatchSize(n, total, m) >= 1
    {
    }
  }

  /** A negative total gives every slot a negative share, so nothing is emitted. */
  lemma {:induction false} NegativeTotalPlansNothing(slots: seq<int>, total: int, k: int)
    requires total < 0 && 0 <= k <= |slots|
    ensures PlanPrefix(slots, total, k) == []
    decreases k
  {
    if k > 0 {
      NegativeTotalPlansNothing(slots, total, k - 1);
    }
  }

  /** The automated plan is empty without slots or with a negative total. */
  lemma AutomatedScheduleEmpty(c: Config)
    requires c.mode.Automated?
    requires TimeSlots(c) == [] || c.mode.totalCount < 0
    ensures AutomatedSchedule(c) == []
  {
    if TimeSlots(c) != [] {
      NegativeTotalPlansNothing(TimeSlots(c), c.mode.totalCount, |TimeSlots(c)|);
    }
  }

  /** With at least one slot and a non-negative total, the automated plan holds exactly the total. */
  lemma AutomatedScheduleTotal(c: Config)
    requires c.mode.Automated?
    requires TimeSlots(c) != [] && c.mode.totalCount >= 0
    ensures TotalItems(AutomatedSchedule(c)) == c.mode.totalCount
  {
    DistributeExact(TimeSlots(c), c.mode.totalCount);
  }

  /**
    * The automated plan's executions sit at the opening minute of allowed
    * days of the range, on distinct days in ascending order, each of at least
    * one item.
    */
  lemma AutomatedScheduleSound(c: Config)
    requires c.mode.Automated?
    requires ClockTime(c.window.fromHour, c.window.fromMinute)
    ensures forall i :: 0 <= i < |AutomatedSchedule(c)| ==>
      var t := AutomatedSchedule(c)[i].timestamp;
      MinuteOfDay(t) == c.window.From() && IsAllowed(c.allowedDays, Weekday(t)) &&
      c.startDay <= DayOf(t) <= c.endDay && AutomatedSchedule(c)[i].batchSize >= 1
    ensures forall i, j :: 0 <= i < j < |AutomatedSchedule(c)| ==>
      DayOf(AutomatedSchedule(c)[i].timestamp) < DayOf(AutomatedSchedule(c)[j].timestamp) &&
      AutomatedSchedule(c)[i].timestamp < AutomatedSchedule(c)[j].timestamp
  {
    var slots := TimeSlots(c);
    var total := c.mode.totalCount;
    var s := AutomatedSchedule(c);
    if slots == [] || total < 0 {
      AutomatedScheduleEmpty(c);
    } else {
      TimeSlotsSound(c);
      DistributeExact(slots, total);
      assert forall i :: 0 <= i < |s| ==> s[i].timestamp == slots[i] && s[i].batchSize >= 1;
    }
  }
}
