/** The two sliding-window rate limiters, the in-memory one of `rate_limit.py` and the
    database one of `storage.py`, against a log that keeps every acceptance for ever. */
module RateLimit {
  import opened HashChain

  datatype Call = Call(key: string, now: real)

  /** Acceptance times per key. */
  type Log = map<string, seq<real>>

  function Entries(log: Log, key: string): seq<real> {
    if key in log then log[key] else []
  }

  function CountAbove(times: seq<real>, cutoff: real): nat {
    if times == [] then 0 else CountAbove(Front(times), cutoff) + (if Last(times) > cutoff then 1 else 0)
  }

  /** The meaning of the limit: accept when fewer than `limit` acceptances of the key lie in
      the last window. Nothing is ever forgotten. */
  function IdealStep(limit: int, window: int, log: Log, call: Call): (Log, bool) {
    if CountAbove(Entries(log, call.key), call.now - window as real) < limit then
      (log[call.key := Entries(log, call.key) + [call.now]], true)
    else (log, false)
  }

  // ---- in memory ----

  /** `while q and q[0] <= cutoff: q.popleft()`. */
  function DropOld(queue: seq<real>, cutoff: real): seq<real> {
    if queue != [] && queue[0] <= cutoff then DropOld(queue[1..], cutoff) else queue
  }

  function AtLeastOne(n: int): int { if n > 1 then n else 1 }

  /** `SlidingWindowRateLimiter.allow`, with limit and window raised to at least 1. */
  function MemoryStep(limit: int, window: int, events: Log, call: Call): (Log, bool) {
    var queue := DropOld(Entries(events, call.key), call.now - AtLeastOne(window) as real);
    if |queue| >= AtLeastOne(limit) then (events[call.key := queue], false)
    else (events[call.key := queue + [call.now]], true)
  }

  // ---- in the database ----

  /** Rows of `rate_limit_events`. */
  type Rows = seq<Call>

  function Undeleted(rows: Rows, key: string, cutoff: real): Rows {
    if rows == [] then []
    else if Last(rows).key == key && Last(rows).now <= cutoff then Undeleted(Front(rows), key, cutoff)
    else Undeleted(Front(rows), key, cutoff) + [Last(rows)]
  }

  function TimesOf(rows: Rows, key: string): seq<real> {
    if rows == [] then []
    else if Last(rows).key == key then TimesOf(Front(rows), key) + [Last(rows).now]
    else TimesOf(Front(rows), key)
  }

  /** `allow_rate_limit`: refuses at once for a limit or window that is not positive, and a
      refusal rolls its deletions back. */
  function DatabaseStep(limit: int, window: int, rows: Rows, call: Call): (Rows, bool) {
    if limit <= 0 || window <= 0 then (rows, false)
    else
      var kept := Undeleted(rows, call.key, call.now - window as real);
      if |TimesOf(kept, call.key)| >= limit then (rows, false)
      else (kept + [call], true)
  }

  // ---- call sequences ----

  ghost predicate ClockMonotone(calls: seq<Call>) {
    forall i, j :: 0 <= i < j < |calls| ==> calls[i].now <= calls[j].now
  }

  function IdealLog(limit: int, window: int, calls: seq<Call>): Log {
    if calls == [] then map[] else IdealStep(limit, window, IdealLog(limit, window, Front(calls)), Last(calls)).0
  }

  function MemoryEvents(limit: int, window: int, calls: seq<Call>): Log {
    if calls == [] then map[] else MemoryStep(limit, window, MemoryEvents(limit, window, Front(calls)), Last(calls)).0
  }

  function DatabaseRows(limit: int, window: int, calls: seq<Call>): Rows {
    if calls == [] then [] else DatabaseStep(limit, window, DatabaseRows(limit, window, Front(calls)), Last(calls)).0
  }

  /** The answer to a call that comes after `calls`. */
  function IdealAllows(limit: int, window: int, calls: seq<Call>, call: Call): bool {
    IdealStep(limit, window, IdealLog(limit, window, calls), call).1
  }

  function MemoryAllows(limit: int, window: int, calls: seq<Call>, call: Call): bool {
    MemoryStep(limit, window, MemoryEvents(limit, window, calls), call).1
  }

  function DatabaseAllows(limit: int, window: int, calls: seq<Call>, call: Call): bool {
    DatabaseStep(limit, window, DatabaseRows(limit, window, calls), call).1
  }

  ghost predicate Sorted(times: seq<real>) {
    forall i, j :: 0 <= i < j < |times| ==> times[i] <= times[j]
  }

  /** Two stores of times that no cutoff from `horizon` on can tell apart. */
  ghost predicate SameAbove(a: seq<real>, b: seq<real>, horizon: real) {
    forall cutoff :: cutoff >= horizon ==> CountAbove(a, cutoff) == CountAbove(b, cutoff)
  }

  lemma {:induction false} CountOfConcat(a: seq<real>, b: seq<real>, cutoff: real)
    ensures CountAbove(a + b, cutoff) == CountAbove(a, cutoff) + CountAbove(b, cutoff)
  {
    if b == [] {
      assert a + b == a;
    } else {
      assert Front(a + b) == a + Front(b);
      CountOfConcat(a, Front(b), cutoff);
    }
  }

  lemma {:induction false} CountIsAll(times: seq<real>, cutoff: real)
    requires forall i :: 0 <= i < |times| ==> times[i] > cutoff
    ensures CountAbove(times, cutoff) == |times|
  {
    if times != [] { CountIsAll(Front(times), cutoff); }
  }

  /** What the popping loop leaves: the same counts for every later cutoff, and nothing old. */
  lemma {:induction false} DropOldKeepsCounts(queue: seq<real>, cutoff: real, later: real)
    requires Sorted(queue) && cutoff <= later
    ensures CountAbove(DropOld(queue, cutoff), later) == CountAbove(queue, later)
    ensures Sorted(DropOld(queue, cutoff)) && |DropOld(queue, cutoff)| == CountAbove(queue, cutoff)
    ensures forall x :: x in DropOld(queue, cutoff) ==> x in queue
  {
    if queue != [] && queue[0] <= cutoff {
      DropOldKeepsCounts(queue[1..], cutoff, later);
      assert queue == [queue[0]] + queue[1..];
      CountOfConcat([queue[0]], queue[1..], later);
      CountOfConcat([queue[0]], queue[1..], cutoff);
    } else {
      CountIsAll(queue, cutoff);
    }
  }

  lemma {:induction false} SameAboveAfterAppend(a: seq<real>, b: seq<real>, horizon: real, x: real)
    requires SameAbove(a, b, horizon)
    ensures SameAbove(a + [x], b + [x], horizon)
  {
    assert Front(a + [x]) == a && Front(b + [x]) == b;
  }

  /** A queue is sorted, not ahead of the clock, and as good as the full log of its key. */
  ghost predicate QueueRefines(queue: seq<real>, log: seq<real>, horizon: real, clock: real) {
    && Sorted(queue)
    && (forall i :: 0 <= i < |queue| ==> queue[i] <= clock)
    && SameAbove(queue, log, horizon)
  }

  ghost predicate MemoryRefines(events: Log, log: Log, clock: real, window: int) {
    forall key :: QueueRefines(Entries(events, key), Entries(log, key), clock - window as real, clock)
  }

  /** The queue after the popping loop, against the full log of the key. */
  lemma {:induction false} PoppedQueue(queue: seq<real>, log: seq<real>, horizon: real, clock: real, cutoff: real,
                                       now: real)
    requires QueueRefines(queue, log, horizon, clock) && horizon <= cutoff && clock <= now
    ensures QueueRefines(DropOld(queue, cutoff), log, cutoff, now)
    ensures |DropOld(queue, cutoff)| == CountAbove(log, cutoff)
  {
    DropOldKeepsCounts(queue, cutoff, cutoff);
    forall later | later >= cutoff ensures CountAbove(DropOld(queue, cutoff), later) == CountAbove(log, later) {
      DropOldKeepsCounts(queue, cutoff, later);
    }
    var popped := DropOld(queue, cutoff);
    assert forall i :: 0 <= i < |popped| ==> popped[i] in popped && popped[i] in queue;
  }

  lemma {:induction false} AppendedQueue(queue: seq<real>, log: seq<real>, cutoff: real, now: real)
    requires QueueRefines(queue, log, cutoff, now)
    ensures QueueRefines(queue + [now], log + [now], cutoff, now)
  {
    SameAboveAfterAppend(queue, log, cutoff, now);
  }

  lemma {:induction false} LaterQueue(queue: seq<real>, log: seq<real>, horizon: real, clock: real, cutoff: real,
                                      now: real)
    requires QueueRefines(queue, log, horizon, clock) && horizon <= cutoff && clock <= now
    ensures QueueRefines(queue, log, cutoff, now)
  {
  }

  lemma {:induction false} MemoryStepRefines(limit: int, window: int, events: Log, log: Log, clock: real, call: Call)
    requires limit >= 1 && window >= 1 && clock <= call.now && MemoryRefines(events, log, clock, window)
    ensures MemoryStep(limit, window, events, call).1 == IdealStep(limit, window, log, call).1
    ensures MemoryRefines(MemoryStep(limit, window, events, call).0, IdealStep(limit, window, log, call).0,
                          call.now, window)
  {
    hide DropOld, CountAbove, QueueRefines;
    var horizon, cutoff := clock - window as real, call.now - window as real;
    var queue := DropOld(Entries(events, call.key), cutoff);
    PoppedQueue(Entries(events, call.key), Entries(log, call.key), horizon, clock, cutoff, call.now);
    AppendedQueue(queue, Entries(log, call.key), cutoff, call.now);
    var events', log' := MemoryStep(limit, window, events, call).0, IdealStep(limit, window, log, call).0;
    forall key ensures QueueRefines(Entries(events', key), Entries(log', key), cutoff, call.now) {
      if key != call.key {
        LaterQueue(Entries(events, key), Entries(log, key), horizon, clock, cutoff, call.now);
      }
    }
  }

  lemma {:induction false} SameAboveLater(a: seq<real>, b: seq<real>, horizon: real, later: real)
    requires SameAbove(a, b, horizon) && horizon <= later
    ensures SameAbove(a, b, later)
  {
  }

  lemma {:induction false} TimesOfAppend(rows: Rows, call: Call, key: string)
    ensures TimesOf(rows + [call], key)
         == if call.key == key then TimesOf(rows, key) + [call.now] else TimesOf(rows, key)
  {
    assert Front(rows + [call]) == rows;
  }

  lemma {:induction false} CountOfAppend(times: seq<real>, x: real, cutoff: real)
    ensures CountAbove(times + [x], cutoff) == CountAbove(times, cutoff) + (if x > cutoff then 1 else 0)
  {
    assert Front(times + [x]) == times;
  }

  /** Deleting a key's old rows changes no count from the cutoff on. */
  lemma {:induction false} UndeletedKeepsCounts(rows: Rows, key: string, cutoff: real, other: string, later: real)
    requires cutoff <= later
    ensures CountAbove(TimesOf(Undeleted(rows, key, cutoff), other), later) == CountAbove(TimesOf(rows, other), later)
  {
    hide CountAbove, TimesOf;
    if rows != [] {
      var front, last := Front(rows), Last(rows);
      var kept := Undeleted(front, key, cutoff);
      assert rows == front + [last];
      UndeletedKeepsCounts(front, key, cutoff, other, later);
      TimesOfAppend(front, last, other);
      if last.key == other {
        CountOfAppend(TimesOf(front, other), last.now, later);
      }
      if last.key != key || last.now > cutoff {
        TimesOfAppend(kept, last, other);
        if last.key == other {
          CountOfAppend(TimesOf(kept, other), last.now, later);
        }
      }
    }
  }

  lemma {:induction false} UndeletedAreRecent(rows: Rows, key: string, cutoff: real)
    ensures forall x :: x in TimesOf(Undeleted(rows, key, cutoff), key) ==> x > cutoff
  {
    if rows != [] {
      UndeletedAreRecent(Front(rows), key, cutoff);
      TimesOfAppend(Undeleted(Front(rows), key, cutoff), Last(rows), key);
    }
  }

  ghost predicate DatabaseRefines(rows: Rows, log: Log, clock: real, window: int) {
    forall key :: SameAbove(TimesOf(rows, key), Entries(log, key), clock - window as real)
  }

  /** The rows after the deletion, against the full log of any key. */
  lemma {:induction false} DeletedRows(rows: Rows, key: string, log: seq<real>, horizon: real, cutoff: real,
                                       other: string)
    requires horizon <= cutoff && SameAbove(TimesOf(rows, other), log, horizon)
    ensures SameAbove(TimesOf(Undeleted(rows, key, cutoff), other), log, cutoff)
    ensures key == other ==> |TimesOf(Undeleted(rows, key, cutoff), key)| == CountAbove(log, cutoff)
  {
    forall later | later >= cutoff
      ensures CountAbove(TimesOf(Undeleted(rows, key, cutoff), other), later) == CountAbove(log, later)
    {
      UndeletedKeepsCounts(rows, key, cutoff, other, later);
    }
    UndeletedAreRecent(rows, key, cutoff);
    var times := TimesOf(Undeleted(rows, key, cutoff), key);
    assert forall i :: 0 <= i < |times| ==> times[i] in times;
    CountIsAll(times, cutoff);
  }

  lemma {:induction false} DatabaseStepRefines(limit: int, window: int, rows: Rows, log: Log, clock: real, call: Call)
    requires limit >= 1 && window >= 1 && clock <= call.now && DatabaseRefines(rows, log, clock, window)
    ensures DatabaseStep(limit, window, rows, call).1 == IdealStep(limit, window, log, call).1
    ensures DatabaseRefines(DatabaseStep(limit, window, rows, call).0, IdealStep(limit, window, log, call).0,
                            call.now, window)
  {
    hide CountAbove, SameAbove, TimesOf, Undeleted;
    var horizon, cutoff := clock - window as real, call.now - window as real;
    var kept := Undeleted(rows, call.key, cutoff);
    DeletedRows(rows, call.key, Entries(log, call.key), horizon, cutoff, call.key);
    var rows', log' := DatabaseStep(limit, window, rows, call).0, IdealStep(limit, window, log, call).0;
    forall key ensures SameAbove(TimesOf(rows', key), Entries(log', key), cutoff) {
      DeletedRows(rows, call.key, Entries(log, key), horizon, cutoff, key);
      SameAboveLater(TimesOf(rows, key), Entries(log, key), horizon, cutoff);
      TimesOfAppend(kept, call, key);
      if key == call.key {
        SameAboveAfterAppend(TimesOf(kept, key), Entries(log, key), cutoff, call.now);
      }
    }
  }

  function Clock(calls: seq<Call>): real
    requires calls != []
  {
    Last(calls).now
  }

  ghost predicate BothRefine(limit: int, window: int, calls: seq<Call>, clock: real) {
    && MemoryRefines(MemoryEvents(limit, window, calls), IdealLog(limit, window, calls), clock, window)
    && DatabaseRefines(DatabaseRows(limit, window, calls), IdealLog(limit, window, calls), clock, window)
  }

  lemma {:induction false} BothRefineLater(limit: int, window: int, calls: seq<Call>, clock: real, later: real)
    requires clock <= later && BothRefine(limit, window, calls, clock)
    ensures BothRefine(limit, window, calls, later)
  {
    hide CountAbove, MemoryEvents, IdealLog, DatabaseRows, TimesOf;
  }

  lemma {:induction false} RunsRefine(limit: int, window: int, calls: seq<Call>, clock: real)
    requires limit >= 1 && window >= 1 && ClockMonotone(calls) && (calls == [] || clock >= Clock(calls))
    ensures BothRefine(limit, window, calls, clock)
  {
    hide MemoryStep, IdealStep, DatabaseStep, CountAbove;
    if calls != [] {
      var front, call := Front(calls), Last(calls);
      RunsRefine(limit, window, front, call.now);
      MemoryStepRefines(limit, window, MemoryEvents(limit, window, front), IdealLog(limit, window, front),
                        call.now, call);
      DatabaseStepRefines(limit, window, DatabaseRows(limit, window, front), IdealLog(limit, window, front),
                          call.now, call);
      BothRefineLater(limit, window, calls, call.now, clock);
    }
  }

  /** Both limiters answer as the unbounded log does, on every call sequence. */
  lemma {:induction false} LimitersAgree(limit: int, window: int, calls: seq<Call>, call: Call)
    requires limit >= 1 && window >= 1 && ClockMonotone(calls + [call])
    ensures MemoryAllows(limit, window, calls, call) == IdealAllows(limit, window, calls, call)
    ensures DatabaseAllows(limit, window, calls, call) == IdealAllows(limit, window, calls, call)
  {
    assert calls + [call] == calls + [call] && forall i :: 0 <= i < |calls| ==> (calls + [call])[i] == calls[i];
    assert (calls + [call])[|calls|] == call;
    RunsRefine(limit, window, calls, call.now);
    MemoryStepRefines(limit, window, MemoryEvents(limit, window, calls), IdealLog(limit, window, calls),
                      call.now, call);
    DatabaseStepRefines(limit, window, DatabaseRows(limit, window, calls), IdealLog(limit, window, calls),
                        call.now, call);
  }

  /** The two limiters are interchangeable exactly for positive settings: otherwise the
      in-memory one works with 1 and the database one refuses everything. */
  ghost predicate Interchangeable(limit: int, window: int) {
    forall calls, call | ClockMonotone(calls + [call]) ::
      MemoryAllows(limit, window, calls, call) == DatabaseAllows(limit, window, calls, call)
  }

  lemma {:induction false} InterchangeableWhenPositive(limit: int, window: int)
    ensures Interchangeable(limit, window) <==> limit >= 1 && window >= 1
  {
    if limit >= 1 && window >= 1 {
      forall calls, call | ClockMonotone(calls + [call])
        ensures MemoryAllows(limit, window, calls, call) == DatabaseAllows(limit, window, calls, call)
      {
        LimitersAgree(limit, window, calls, call);
      }
    } else {
      var first := Call("key", 0.0);
      assert ClockMonotone([] + [first]);
      assert MemoryAllows(limit, window, [], first) && !DatabaseAllows(limit, window, [], first);
    }
  }

  // ---- the limit itself ----

  /** Acceptances that are `limit` apart are at least a window apart. */
  ghost predicate Spaced(limit: int, window: int, times: seq<real>) {
    forall i, j :: 0 <= i < |times| && 0 <= j < |times| && j == i + limit ==> times[j] - times[i] >= window as real
  }

  lemma {:induction false} CountFromIndex(times: seq<real>, i: nat, cutoff: real)
    requires Sorted(times) && i < |times| && times[i] > cutoff
    ensures CountAbove(times, cutoff) >= |times| - i
  {
    assert times == times[..i] + times[i..];
    CountOfConcat(times[..i], times[i..], cutoff);
    CountIsAll(times[i..], cutoff);
  }

  lemma {:induction false} AcceptanceKeepsSpacing(limit: int, window: int, times: seq<real>, now: real)
    requires limit >= 1 && Sorted(times) && Spaced(limit, window, times)
    requires forall i :: 0 <= i < |times| ==> times[i] <= now
    requires CountAbove(times, now - window as real) < limit
    ensures Sorted(times + [now]) && Spaced(limit, window, times + [now])
  {
    var i := |times| - limit;
    if i >= 0 && times[i] > now - window as real {
      CountFromIndex(times, i, now - window as real);
    }
  }

  lemma {:induction false} LogIsSpaced(limit: int, window: int, calls: seq<Call>, key: string)
    requires limit >= 1 && window >= 1 && ClockMonotone(calls)
    ensures var times := Entries(IdealLog(limit, window, calls), key);
      && Sorted(times) && Spaced(limit, window, times)
      && forall i :: 0 <= i < |times| ==> calls != [] && times[i] <= Clock(calls)
  {
    hide CountAbove, Sorted, Spaced;
    if calls == [] {
      EmptyIsSpaced(limit, window);
    } else {
      var call := Last(calls);
      LogIsSpaced(limit, window, Front(calls), key);
      var before := Entries(IdealLog(limit, window, Front(calls)), key);
      var after := Entries(IdealLog(limit, window, calls), key);
      if after != before {
        AcceptanceKeepsSpacing(limit, window, before, call.now);
      }
    }
  }

  lemma {:induction false} EmptyIsSpaced(limit: int, window: int)
    requires limit >= 1
    ensures Sorted([]) && Spaced(limit, window, [])
  {
  }

  /** `[a, a + w)` or `(a, a + w]`. */
  predicate Inside(x: real, a: real, w: real, closedBelow: bool) {
    if closedBelow then a <= x < a + w else a < x <= a + w
  }

  function CountInside(times: seq<real>, a: real, w: real, closedBelow: bool): nat {
    if times == [] then 0
    else CountInside(Front(times), a, w, closedBelow) + (if Inside(Last(times), a, w, closedBelow) then 1 else 0)
  }

  /** Counting inside an interval meets at most `limit` acceptances, the last `limit` of them. */
  lemma {:induction false} SpacedMeansFew(limit: int, window: int, times: seq<real>, a: real, closedBelow: bool)
    requires limit >= 1 && window >= 1 && Sorted(times) && Spaced(limit, window, times)
    ensures CountInside(times, a, window as real, closedBelow) <= limit
  {
    if times != [] {
      var last := |times| - 1;
      if Inside(times[last], a, window as real, closedBelow) {
        OnlyRecentInside(times, last, limit, a, window, closedBelow);
      } else {
        SpacedMeansFew(limit, window, Front(times), a, closedBelow);
      }
    }
  }

  /** With an acceptance inside the interval, everything `limit` before it lies outside. */
  lemma {:induction false} OnlyRecentInside(times: seq<real>, last: nat, limit: int, a: real, window: int,
                                            closedBelow: bool)
    requires limit >= 1 && Sorted(times) && Spaced(limit, window, times)
    requires last == |times| - 1 && Inside(times[last], a, window as real, closedBelow)
    ensures CountInside(times, a, window as real, closedBelow) <= limit
  {
    var n := if last + 1 > limit then last + 1 - limit else 0;
    forall i | 0 <= i < n ensures !Inside(times[i], a, window as real, closedBelow) {
      assert times[n - 1 + limit] - times[n - 1] >= window as real;
      assert times[i] <= times[n - 1];
    }
    NoneInside(times[..n], a, window as real, closedBelow);
    InsideAtMostRest(times, n, a, window as real, closedBelow);
  }

  lemma {:induction false} NoneInside(times: seq<real>, a: real, w: real, closedBelow: bool)
    requires forall i :: 0 <= i < |times| ==> !Inside(times[i], a, w, closedBelow)
    ensures CountInside(times, a, w, closedBelow) == 0
  {
    if times != [] { NoneInside(Front(times), a, w, closedBelow); }
  }

  lemma {:induction false} InsideAtMostRest(times: seq<real>, n: nat, a: real, w: real, closedBelow: bool)
    requires n <= |times| && CountInside(times[..n], a, w, closedBelow) == 0
    ensures CountInside(times, a, w, closedBelow) <= |times| - n
    decreases |times|
  {
    if n == |times| {
      assert times[..n] == times;
    } else {
      assert Front(times)[..n] == times[..n];
      InsideAtMostRest(Front(times), n, a, w, closedBelow);
    }
  }

  /** The times of the calls on `key` that the in-memory limiter allowed. */
  function MemoryAccepted(limit: int, window: int, calls: seq<Call>, key: string): seq<real> {
    if calls == [] then []
    else
      var call := Last(calls);
      MemoryAccepted(limit, window, Front(calls), key)
      + (if call.key == key && MemoryAllows(limit, window, Front(calls), call) then [call.now] else [])
  }

  /** The times of the calls on `key` that the database limiter allowed. */
  function DatabaseAccepted(limit: int, window: int, calls: seq<Call>, key: string): seq<real> {
    if calls == [] then []
    else
      var call := Last(calls);
      DatabaseAccepted(limit, window, Front(calls), key)
      + (if call.key == key && DatabaseAllows(limit, window, Front(calls), call) then [call.now] else [])
  }

  /** The log gains a call's time exactly if it allows the call. */
  lemma {:induction false} LogGrows(limit: int, window: int, calls: seq<Call>, call: Call, key: string)
    ensures Entries(IdealLog(limit, window, calls + [call]), key) ==
      Entries(IdealLog(limit, window, calls), key)
      + (if call.key == key && IdealAllows(limit, window, calls, call) then [call.now] else [])
  {
    hide CountAbove;
    assert Front(calls + [call]) == calls;
  }

  /** What a limiter forgets it has allowed all the same: both allowed exactly what the log holds. */
  lemma {:induction false} AcceptedIsLogged(limit: int, window: int, calls: seq<Call>, key: string)
    requires limit >= 1 && window >= 1 && ClockMonotone(calls)
    ensures MemoryAccepted(limit, window, calls, key) == Entries(IdealLog(limit, window, calls), key)
    ensures DatabaseAccepted(limit, window, calls, key) == Entries(IdealLog(limit, window, calls), key)
  {
    hide MemoryAllows, DatabaseAllows, IdealAllows;
    if calls != [] {
      AcceptedIsLogged(limit, window, Front(calls), key);
      assert Front(calls) + [Last(calls)] == calls;
      hide IdealLog, Entries;
      LogGrows(limit, window, Front(calls), Last(calls), key);
      LimitersAgree(limit, window, Front(calls), Last(calls));
    }
  }

  /** The in-memory limiter works with a limit and a window of at least 1. */
  lemma {:induction false} SettingsAreRaised(limit: int, window: int, calls: seq<Call>, key: string)
    ensures MemoryEvents(limit, window, calls) == MemoryEvents(AtLeastOne(limit), AtLeastOne(window), calls)
    ensures MemoryAccepted(limit, window, calls, key)
         == MemoryAccepted(AtLeastOne(limit), AtLeastOne(window), calls, key)
  {
    hide DropOld;
    if calls != [] {
      SettingsAreRaised(limit, window, Front(calls), key);
    }
  }

  lemma {:induction false} NothingAccepted(limit: int, window: int, calls: seq<Call>, key: string)
    requires limit <= 0 || window <= 0
    ensures DatabaseAccepted(limit, window, calls, key) == []
  {
    if calls != [] {
      NothingAccepted(limit, window, Front(calls), key);
    }
  }

  /** No half-open interval of one window's length holds more than `limit` calls on a key that a
      limiter allowed: in memory with settings raised to 1, in the database none at all for
      settings that are not positive. */
  lemma {:induction false} AtMostLimitPerWindow(limit: int, window: int, calls: seq<Call>, key: string, a: real,
                                                closedBelow: bool)
    requires ClockMonotone(calls)
    ensures CountInside(MemoryAccepted(limit, window, calls, key), a, AtLeastOne(window) as real, closedBelow)
         <= AtLeastOne(limit)
    ensures CountInside(DatabaseAccepted(limit, window, calls, key), a, window as real, closedBelow)
         <= (if limit >= 1 && window >= 1 then limit else 0)
  {
    hide CountInside, MemoryAccepted, DatabaseAccepted, IdealLog, Sorted, Spaced, ClockMonotone;
    SettingsAreRaised(limit, window, calls, key);
    LoggedAtMostLimit(AtLeastOne(limit), AtLeastOne(window), calls, key, a, closedBelow);
    AcceptedIsLogged(AtLeastOne(limit), AtLeastOne(window), calls, key);
    if limit <= 0 || window <= 0 {
      NothingAccepted(limit, window, calls, key);
      NoneInside([], a, window as real, closedBelow);
    }
  }

  /** The positions of the times within the window that ends at `now`. */
  ghost function Recent(times: seq<real>, now: real, window: int): set<int> {
    set i | 0 <= i < |times| && now - window as real < times[i]
  }

  lemma {:induction false} RecentIsCounted(times: seq<real>, now: real, window: int)
    ensures |Recent(times, now, window)| == CountAbove(times, now - window as real)
  {
    if times != [] {
      var front, n := Front(times), |times| - 1;
      RecentIsCounted(front, now, window);
      var last: set<int> := if now - window as real < times[n] then {n} else {};
      assert Recent(times, now, window) == Recent(front, now, window) + last;
    }
  }

  /** A limiter's own answers alone decide its next one: it allows a call exactly if, of the calls on the
      key that it allowed before, fewer than `limit` lie in the last window. In memory, limit and
      window count as at least 1; the database allows nothing if one of them is not positive. */
  lemma {:induction false} AllowsIff(limit: int, window: int, calls: seq<Call>, call: Call)
    requires ClockMonotone(calls + [call])
    ensures
      var limit', window' := if limit < 1 then 1 else limit, if window < 1 then 1 else window;
      MemoryAllows(limit, window, calls, call) <==>
        |Recent(MemoryAccepted(limit, window, calls, call.key), call.now, window')| < limit'
    ensures DatabaseAllows(limit, window, calls, call) <==>
      && limit > 0 && window > 0
      && |Recent(DatabaseAccepted(limit, window, calls, call.key), call.now, window)| < limit
  {
    assert ClockMonotone(calls) by {
      assert forall i :: 0 <= i < |calls| ==> (calls + [call])[i] == calls[i];
    }
    hide MemoryAccepted, DatabaseAccepted, Recent, MemoryAllows, ClockMonotone;
    SettingsAreRaised(limit, window, calls, call.key);
    MemoryAllowsRaised(limit, window, calls, call);
    AllowsAsLogged(AtLeastOne(limit), AtLeastOne(window), calls, call);
    if limit > 0 && window > 0 {
      hide DatabaseAllows;
      AllowsAsLogged(limit, window, calls, call);
    }
  }

  lemma {:induction false} MemoryAllowsRaised(limit: int, window: int, calls: seq<Call>, call: Call)
    ensures MemoryAllows(limit, window, calls, call) == MemoryAllows(AtLeastOne(limit), AtLeastOne(window), calls, call)
  {
    hide MemoryEvents, DropOld, Entries;
    SettingsAreRaised(limit, window, calls, call.key);
  }

  lemma {:induction false} LogAllows(limit: int, window: int, calls: seq<Call>, call: Call)
    ensures IdealAllows(limit, window, calls, call) <==>
      |Recent(Entries(IdealLog(limit, window, calls), call.key), call.now, window)| < limit
  {
    RecentIsCounted(Entries(IdealLog(limit, window, calls), call.key), call.now, window);
    hide IdealLog, Recent, Entries, CountAbove;
  }

  lemma {:induction false} AllowsAsLogged(limit: int, window: int, calls: seq<Call>, call: Call)
    requires limit >= 1 && window >= 1 && ClockMonotone(calls) && ClockMonotone(calls + [call])
    ensures MemoryAllows(limit, window, calls, call) <==>
      |Recent(MemoryAccepted(limit, window, calls, call.key), call.now, window)| < limit
    ensures DatabaseAllows(limit, window, calls, call) <==>
      |Recent(DatabaseAccepted(limit, window, calls, call.key), call.now, window)| < limit
  {
    hide MemoryAllows, DatabaseAllows, IdealAllows, MemoryAccepted, DatabaseAccepted, IdealLog, Entries, Recent,
      ClockMonotone;
    LimitersAgree(limit, window, calls, call);
    AcceptedIsLogged(limit, window, calls, call.key);
    LogAllows(limit, window, calls, call);
  }

  lemma {:induction false} LoggedAtMostLimit(limit: int, window: int, calls: seq<Call>, key: string, a: real,
                                             closedBelow: bool)
    requires limit >= 1 && window >= 1 && ClockMonotone(calls)
    ensures CountInside(Entries(IdealLog(limit, window, calls), key), a, window as real, closedBelow) <= limit
  {
    LogIsSpaced(limit, window, calls, key);
    SpacedMeansFew(limit, window, Entries(IdealLog(limit, window, calls), key), a, closedBelow);
  }

  // ---- the limiters in their own form ----

  class SlidingWindowRateLimiter {
    const limit: int
    const window: int
    var events: Log

    constructor (limit: int, window: int)
      ensures this.limit == AtLeastOne(limit) && this.window == AtLeastOne(window) && events == map[]
    {
      this.limit := if limit > 1 then limit else 1;
      this.window := if window > 1 then window else 1;
      events := map[];
    }

    method Allow(key: string, now: real) returns (allowed: bool)
      requires limit >= 1 && window >= 1
      modifies this
      ensures (events, allowed) == MemoryStep(limit, window, old(events), Call(key, now))
    {
      var cutoff := now - window as real;
      var q := Entries(events, key);
      while q != [] && q[0] <= cutoff
        invariant DropOld(q, cutoff) == DropOld(Entries(events, key), cutoff)
        decreases |q|
      {
        q := q[1..];
      }
      if |q| >= limit {
        events := events[key := q];
        return false;
      }
      events := events[key := q + [now]];
      allowed := true;
    }
  }

  class RateLimitTable {
    var rows: Rows

    constructor ()
      ensures rows == []
    {
      rows := [];
    }

    method AllowRateLimit(key: string, limit: int, window: int, now: real) returns (allowed: bool)
      modifies this
      ensures (rows, allowed) == DatabaseStep(limit, window, old(rows), Call(key, now))
    {
      if limit <= 0 || window <= 0 {
        return false;
      }
      var before, cutoff := rows, now - window as real;
      rows := [];
      var count := 0;
      for i := 0 to |before|
        invariant rows == Undeleted(before[..i], key, cutoff) && count == |TimesOf(rows, key)|
      {
        assert Front(before[..i + 1]) == before[..i];
        if before[i].key != key || before[i].now > cutoff {
          assert Front(rows + [before[i]]) == rows;
          rows := rows + [before[i]];
          count := if before[i].key == key then count + 1 else count;
        }
      }
      assert before[..|before|] == before;
      if count >= limit {
        rows := before;
        return false;
      }
      rows := rows + [Call(key, now)];
      allowed := true;
    }
  }
}
