/** The multi-source price oracle of `maat.py`: newest observation of each source, median
    centre, sources close to it, and the median of those. */
module Maat {
  import opened Prelude

  datatype Observation = Observation(
    sourceId: string, symbol: string, price: real, timestamp: string, sourceKind: string, provenance: string)

  /** SHA-256 over the canonical listing of observations. */
  type Digest = seq<Observation> -> string

  datatype Status = InsufficientData | InsufficientSources | Disagreement | Consensus

  datatype ConsensusResult = ConsensusResult(
    symbol: string, price: Option<real>, status: Status, sourceCount: nat,
    dispersion: Option<real>, accepted: seq<string>, rejected: seq<string>, evidenceHash: string)

  // ---- medians ----

  predicate Sorted(s: seq<real>) {
    forall i, j :: 0 <= i < j < |s| ==> s[i] <= s[j]
  }

  function Insert(x: real, s: seq<real>): seq<real> {
    if s == [] || x <= s[0] then [x] + s else [s[0]] + Insert(x, s[1..])
  }

  function Sort(xs: seq<real>): (s: seq<real>)
    ensures |s| == |xs|
  {
    if xs == [] then [] else
      InsertKeeps(xs[0], Sort(xs[1..]));
      Insert(xs[0], Sort(xs[1..]))
  }

  lemma {:induction false} InsertKeeps(x: real, s: seq<real>)
    ensures multiset(Insert(x, s)) == multiset(s) + multiset{x}
    ensures |Insert(x, s)| == |s| + 1
  {
    if s != [] && x > s[0] {
      InsertKeeps(x, s[1..]);
      assert s == [s[0]] + s[1..];
    }
  }

  lemma {:induction false} InsertSorts(x: real, s: seq<real>)
    requires Sorted(s)
    ensures Sorted(Insert(x, s))
  {
    if s != [] && x > s[0] {
      var rest := Insert(x, s[1..]);
      InsertSorts(x, s[1..]);
      InsertKeeps(x, s[1..]);
      forall j | 0 <= j < |rest| ensures s[0] <= rest[j] {
        assert rest[j] in multiset(rest);
        assert rest[j] == x || rest[j] in s[1..];
      }
    }
  }

  lemma {:induction false} SortSorts(xs: seq<real>)
    ensures Sorted(Sort(xs)) && multiset(Sort(xs)) == multiset(xs)
  {
    if xs != [] {
      SortSorts(xs[1..]);
      InsertKeeps(xs[0], Sort(xs[1..]));
      InsertSorts(xs[0], Sort(xs[1..]));
      assert xs == [xs[0]] + xs[1..];
    }
  }

  lemma {:induction false} FirstIsLeast(s: seq<real>, x: real)
    requires Sorted(s) && s != [] && x in multiset(s)
    ensures s[0] <= x
  {
    var i :| 0 <= i < |s| && s[i] == x;
  }

  lemma {:induction false} Uncons(s: seq<real>)
    requires s != []
    ensures multiset(s) == multiset{s[0]} + multiset(s[1..])
    ensures s[0] in multiset(s) && |multiset(s)| == |s|
  {
    assert s == [s[0]] + s[1..];
  }

  lemma {:induction false} Cancel(x: real, a: multiset<real>, b: multiset<real>)
    requires multiset{x} + a == multiset{x} + b
    ensures a == b
  {
    assert a == (multiset{x} + a) - multiset{x};
    assert b == (multiset{x} + b) - multiset{x};
  }

  lemma {:induction false} SortedIsUnique(a: seq<real>, b: seq<real>)
    requires Sorted(a) && Sorted(b) && |a| == |b| && multiset(a) == multiset(b)
    ensures a == b
  {
    hide Sorted;
    if a != [] {
      Uncons(a);
      Uncons(b);
      FirstIsLeast(a, b[0]);
      FirstIsLeast(b, a[0]);
      Cancel(a[0], multiset(a[1..]), multiset(b[1..]));
      TailIsSorted(a);
      TailIsSorted(b);
      SortedIsUnique(a[1..], b[1..]);
      assert a == [a[0]] + a[1..] && b == [b[0]] + b[1..];
    }
  }

  lemma {:induction false} TailIsSorted(s: seq<real>)
    requires Sorted(s) && s != []
    ensures Sorted(s[1..])
  {
  }

  /** `statistics.median`. */
  function Median(xs: seq<real>): real
    requires xs != []
  {
    var s, n := Sort(xs), |xs|;
    if n % 2 == 1 then s[n / 2] else (s[n / 2 - 1] + s[n / 2]) / 2.0
  }

  lemma {:induction false} MedianIgnoresOrder(xs: seq<real>, ys: seq<real>)
    requires xs != [] && multiset(xs) == multiset(ys)
    ensures |xs| == |ys| && Median(xs) == Median(ys)
  {
    hide Sort, Sorted;
    assert |multiset(xs)| == |xs| && |multiset(ys)| == |ys|;
    SortSorts(xs);
    SortSorts(ys);
    SortedIsUnique(Sort(xs), Sort(ys));
  }

  // ---- counting ----

  function Count(xs: seq<real>, p: real -> bool): (n: nat)
    ensures n <= |xs|
  {
    if xs == [] then 0 else (if p(xs[0]) then 1 else 0) + Count(xs[1..], p)
  }

  lemma {:induction false} CountInsert(x: real, s: seq<real>, p: real -> bool)
    ensures Count(Insert(x, s), p) == (if p(x) then 1 else 0) + Count(s, p)
  {
    if s != [] && x > s[0] {
      CountInsert(x, s[1..], p);
    }
  }

  lemma {:induction false} CountSort(xs: seq<real>, p: real -> bool)
    ensures Count(Sort(xs), p) == Count(xs, p)
  {
    if xs != [] {
      CountSort(xs[1..], p);
      CountInsert(xs[0], Sort(xs[1..]), p);
    }
  }

  lemma {:induction false} CountConcat(xs: seq<real>, ys: seq<real>, p: real -> bool)
    ensures Count(xs + ys, p) == Count(xs, p) + Count(ys, p)
  {
    if xs == [] {
      assert xs + ys == ys;
    } else {
      assert (xs + ys)[1..] == xs[1..] + ys;
      CountConcat(xs[1..], ys, p);
    }
  }

  lemma {:induction false} CountAll(xs: seq<real>, p: real -> bool)
    ensures Count(xs, p) == |xs| <==> forall i :: 0 <= i < |xs| ==> p(xs[i])
  {
    if xs != [] {
      CountAll(xs[1..], p);
      assert forall i :: 0 <= i < |xs| - 1 ==> xs[1..][i] == xs[i + 1];
      assert forall i :: 0 < i < |xs| ==> xs[i] == xs[1..][i - 1];
    }
  }

  lemma {:induction false} CountNone(xs: seq<real>, p: real -> bool)
    requires forall i :: 0 <= i < |xs| ==> !p(xs[i])
    ensures Count(xs, p) == 0
  {
    if xs != [] {
      CountNone(xs[1..], p);
    }
  }

  lemma {:induction false} CountDisjoint(xs: seq<real>, p: real -> bool, q: real -> bool)
    requires forall x :: !(p(x) && q(x))
    ensures Count(xs, p) + Count(xs, q) <= |xs|
  {
    if xs != [] {
      CountDisjoint(xs[1..], p, q);
    }
  }

  /** In a sorted list, an element below `t` has only elements below `t` before it. */
  lemma {:induction false} BelowAtIndex(xs: seq<real>, t: real, i: nat)
    requires i < |xs| && Sort(xs)[i] < t
    ensures Count(xs, x => x < t) >= i + 1
  {
    var s := Sort(xs);
    var p := (x: real) => x < t;
    SortSorts(xs);
    CountSort(xs, p);
    assert s == s[..i + 1] + s[i + 1..];
    CountConcat(s[..i + 1], s[i + 1..], p);
    CountAll(s[..i + 1], p);
  }

  lemma {:induction false} AboveAtIndex(xs: seq<real>, t: real, i: nat)
    requires i < |xs| && Sort(xs)[i] > t
    ensures Count(xs, x => x > t) >= |xs| - i
  {
    var s := Sort(xs);
    var p := (x: real) => x > t;
    SortSorts(xs);
    CountSort(xs, p);
    assert s == s[..i] + s[i..];
    CountConcat(s[..i], s[i..], p);
    CountAll(s[i..], p);
  }

  /** `x` is the value at place `k` of the values in order: at most `k` are smaller, more than `k` are not greater. */
  predicate AtPlace(xs: seq<real>, k: nat, x: real) {
    Count(xs, y => y < x) <= k < Count(xs, y => y <= x)
  }

  lemma {:induction false} FewBelow(xs: seq<real>, k: nat, x: real)
    requires k < |xs| && Sort(xs)[k] == x
    ensures Count(xs, y => y < x) <= k
  {
    var s := Sort(xs);
    var p := (y: real) => y < x;
    SortSorts(xs);
    CountSort(xs, p);
    hide Sort, Count;
    assert s == s[..k] + s[k..];
    CountConcat(s[..k], s[k..], p);
    CountNone(s[k..], p);
  }

  lemma {:induction false} ManyUpTo(xs: seq<real>, k: nat, x: real)
    requires k < |xs| && Sort(xs)[k] == x
    ensures Count(xs, y => y <= x) > k
  {
    var s := Sort(xs);
    var p := (y: real) => y <= x;
    SortSorts(xs);
    CountSort(xs, p);
    hide Sort, Count;
    assert s == s[..k + 1] + s[k + 1..];
    CountConcat(s[..k + 1], s[k + 1..], p);
    CountAll(s[..k + 1], p);
  }

  lemma {:induction false} SortedPlace(xs: seq<real>, k: nat)
    requires k < |xs|
    ensures AtPlace(xs, k, Sort(xs)[k])
  {
    FewBelow(xs, k, Sort(xs)[k]);
    ManyUpTo(xs, k, Sort(xs)[k]);
    hide Sort, Count;
  }

  /** The median is the value in the middle of an odd number of them, and halfway between the two in
      the middle of an even number. */
  lemma {:induction false} MedianIsMiddle(xs: seq<real>) returns (low: real, high: real)
    requires xs != []
    ensures AtPlace(xs, (|xs| - 1) / 2, low) && AtPlace(xs, |xs| / 2, high)
    ensures Median(xs) == (low + high) / 2.0
  {
    var n := |xs|;
    SortedPlace(xs, (n - 1) / 2);
    SortedPlace(xs, n / 2);
    hide AtPlace, Sort;
    low, high := Sort(xs)[(n - 1) / 2], Sort(xs)[n / 2];
    assert if n % 2 == 1 then (n - 1) / 2 == n / 2 else (n - 1) / 2 == n / 2 - 1;
  }

  /** How many of the values lie in `[lo, hi]`. */
  function Inside(xs: seq<real>, lo: real, hi: real): nat {
    Count(xs, x => lo <= x <= hi)
  }

  /** With `k` values in `[lo, hi]`, so are the sorted values at all but `|xs| - k` places at
      each end. */
  lemma {:induction false} MiddleIsInside(xs: seq<real>, lo: real, hi: real, i: nat)
    requires |xs| - Inside(xs, lo, hi) <= i < Inside(xs, lo, hi)
    ensures lo <= Sort(xs)[i] <= hi
  {
    hide Sort, Count;
    if Sort(xs)[i] < lo {
      BelowAtIndex(xs, lo, i);
      CountDisjoint(xs, x => x < lo, x => lo <= x <= hi);
    }
    if Sort(xs)[i] > hi {
      AboveAtIndex(xs, hi, i);
      CountDisjoint(xs, x => x > hi, x => lo <= x <= hi);
    }
  }

  /** A strict majority of the values in an interval puts the median there. */
  lemma {:induction false} MajorityHoldsMedian(xs: seq<real>, lo: real, hi: real)
    requires xs != [] && 2 * Inside(xs, lo, hi) > |xs|
    ensures lo <= Median(xs) <= hi
  {
    var n := |xs|;
    MiddleIsInside(xs, lo, hi, n / 2);
    if n % 2 == 0 {
      MiddleIsInside(xs, lo, hi, n / 2 - 1);
    }
  }

  function Repeat(x: real, m: nat): seq<real> {
    seq(m, _ => x)
  }

  /** With at least as many values far above as good ones, the median leaves the interval. */
  lemma {:induction false} HalfMovesMedian(good: seq<real>, lo: real, hi: real, m: nat)
    requires good != [] && Inside(good, lo, hi) == |good| && m >= |good|
    ensures Median(good + Repeat(2.0 * hi - lo + 1.0, m)) > hi
  {
    hide Sort, Count;
    var far := 2.0 * hi - lo + 1.0;
    var bad := Repeat(far, m);
    var xs := good + bad;
    CountAll(good, x => lo <= x <= hi);
    assert lo <= good[0] <= hi;
    CountConcat(good, bad, x => x < far);
    CountConcat(good, bad, x => x < lo);
    CountNone(bad, x => x < far);
    CountNone(bad, x => x < lo);
    CountNone(good, x => x < lo);
    var n := |xs|;
    forall i | 0 <= i < n ensures Sort(xs)[i] >= lo && (i >= |good| ==> Sort(xs)[i] >= far) {
      if Sort(xs)[i] < lo {
        BelowAtIndex(xs, lo, i);
      }
      if Sort(xs)[i] < far {
        BelowAtIndex(xs, far, i);
      }
    }
  }

  /** No choice of `m` further values moves the median out of `[lo, hi]`. */
  ghost predicate Resists(good: seq<real>, lo: real, hi: real, m: nat)
    requires good != []
  {
    forall bad: seq<real> :: |bad| == m ==> lo <= Median(good + bad) <= hi
  }

  /** Breakdown point: good values in `[lo, hi]` hold the median there against every choice of
      `m` further values exactly when they outnumber them. */
  lemma {:induction false} MedianBreakdownPoint(good: seq<real>, lo: real, hi: real, m: nat)
    requires good != [] && Inside(good, lo, hi) == |good|
    ensures Resists(good, lo, hi, m) <==> m < |good|
  {
    hide Median, Count;
    if m < |good| {
      forall bad: seq<real> | |bad| == m ensures lo <= Median(good + bad) <= hi {
        CountConcat(good, bad, x => lo <= x <= hi);
        MajorityHoldsMedian(good + bad, lo, hi);
      }
    } else {
      HalfMovesMedian(good, lo, hi, m);
      var bad := Repeat(2.0 * hi - lo + 1.0, m);
      assert |bad| == m && Median(good + bad) > hi;
    }
  }

  // ---- newest observation of each source ----

  /** `a < b` on strings, by code points. */
  predicate Before(a: string, b: string) {
    b != [] && (a == [] || a[0] < b[0] || (a[0] == b[0] && Before(a[1..], b[1..])))
  }

  lemma {:induction false} BeforeIsTransitive(a: string, b: string, c: string)
    requires Before(a, b) && Before(b, c)
    ensures Before(a, c)
  {
    if a != [] && a[0] == b[0] == c[0] {
      BeforeIsTransitive(a[1..], b[1..], c[1..]);
    }
  }

  lemma {:induction false} BeforeIsTotal(a: string, b: string)
    ensures Before(a, b) || Before(b, a) || a == b
    ensures !(Before(a, b) && Before(b, a)) && !Before(a, a)
  {
    if a != [] && b != [] && a[0] == b[0] {
      BeforeIsTotal(a[1..], b[1..]);
      assert a == [a[0]] + a[1..] && b == [b[0]] + b[1..];
    }
    if a != [] {
      BeforeIsTotal(a[1..], a[1..]);
    }
  }

  function OfSymbol(log: seq<Observation>, symbol: string): (obs: seq<Observation>)
    ensures forall o :: o in obs <==> o in log && o.symbol == symbol
  {
    if log == [] then []
    else
      var front, o := log[..|log| - 1], log[|log| - 1];
      assert log == front + [o];
      if o.symbol == symbol then OfSymbol(front, symbol) + [o] else OfSymbol(front, symbol)
  }

  /** The `latest` dictionary. */
  function Latest(obs: seq<Observation>): map<string, Observation> {
    if obs == [] then map[]
    else
      var latest, o := Latest(obs[..|obs| - 1]), obs[|obs| - 1];
      if o.sourceId !in latest || Before(latest[o.sourceId].timestamp, o.timestamp) then latest[o.sourceId := o]
      else latest
  }

  /** Its keys in insertion order. */
  function Sources(obs: seq<Observation>): (sources: seq<string>)
    ensures forall s :: s in sources <==> s in Latest(obs)
  {
    if obs == [] then []
    else
      var sources, o := Sources(obs[..|obs| - 1]), obs[|obs| - 1];
      if o.sourceId in sources then sources else sources + [o.sourceId]
  }

  /** `o` has the newest timestamp of its source, and is the first with that timestamp. */
  ghost predicate Newest(obs: seq<Observation>, i: nat) {
    && i < |obs|
    && (forall j :: 0 <= j < i && obs[j].sourceId == obs[i].sourceId ==> Before(obs[j].timestamp, obs[i].timestamp))
    && (forall j :: i < j < |obs| && obs[j].sourceId == obs[i].sourceId ==> !Before(obs[i].timestamp, obs[j].timestamp))
  }

  /** The dictionary holds, for each source, its newest observation. */
  lemma {:induction false} LatestIsNewest(obs: seq<Observation>, i: nat)
    requires i < |obs|
    ensures obs[i].sourceId in Latest(obs)
    ensures Latest(obs)[obs[i].sourceId].sourceId == obs[i].sourceId
    ensures Newest(obs, i) ==> Latest(obs)[obs[i].sourceId] == obs[i]
    ensures !Before(Latest(obs)[obs[i].sourceId].timestamp, obs[i].timestamp)
    decreases |obs|
  {
    var n := |obs| - 1;
    var front, o := obs[..n], obs[n];
    if i < n {
      LatestIsNewest(front, i);
      var held := Latest(front)[obs[i].sourceId];
      assert Newest(obs, i) ==> Newest(front, i);
      if o.sourceId == obs[i].sourceId && Before(held.timestamp, o.timestamp) && Before(o.timestamp, obs[i].timestamp) {
        BeforeIsTransitive(held.timestamp, o.timestamp, obs[i].timestamp);
      }
    } else {
      BeforeIsTotal(o.timestamp, o.timestamp);
      if o.sourceId in Latest(front) {
        var held := LatestIsStored(front, o.sourceId);
        assert obs[held] == front[held];
      }
    }
  }

  lemma {:induction false} LatestIsStored(obs: seq<Observation>, source: string) returns (i: nat)
    requires source in Latest(obs)
    ensures i < |obs| && obs[i] == Latest(obs)[source] && obs[i].sourceId == source
  {
    var n := |obs| - 1;
    if obs[n].sourceId == source && Latest(obs)[source] == obs[n] {
      i := n;
    } else {
      i := LatestIsStored(obs[..n], source);
    }
  }

  function PricesOf(latest: map<string, Observation>, sources: seq<string>): (prices: seq<real>)
    requires forall s :: s in sources ==> s in latest
    ensures |prices| == |sources|
    ensures forall i :: 0 <= i < |sources| ==> prices[i] == latest[sources[i]].price
  {
    seq(|sources|, i requires 0 <= i < |sources| => latest[sources[i]].price)
  }

  // ---- sorted lists of sources ----

  ghost predicate InOrder(ids: seq<string>) {
    forall i, j :: 0 <= i < j < |ids| ==> !Before(ids[j], ids[i])
  }

  function InsertId(id: string, ids: seq<string>): seq<string> {
    if ids == [] || !Before(ids[0], id) then [id] + ids else [ids[0]] + InsertId(id, ids[1..])
  }

  /** `sorted`. */
  function SortIds(ids: seq<string>): (sorted: seq<string>)
    ensures |sorted| == |ids|
    ensures forall s :: s in sorted <==> s in ids
  {
    if ids == [] then [] else
      InsertIdKeeps(ids[0], SortIds(ids[1..]));
      assert ids == [ids[0]] + ids[1..];
      InsertId(ids[0], SortIds(ids[1..]))
  }

  lemma {:induction false} InsertIdKeeps(id: string, ids: seq<string>)
    ensures multiset(InsertId(id, ids)) == multiset(ids) + multiset{id}
    ensures |InsertId(id, ids)| == |ids| + 1
    ensures forall s :: s in InsertId(id, ids) <==> s in ids || s == id
  {
    hide Before;
    if ids != [] && Before(ids[0], id) {
      InsertIdKeeps(id, ids[1..]);
      assert ids == [ids[0]] + ids[1..];
    }
  }

  lemma {:induction false} NotBefore(held: string, x: string, late: string)
    requires !Before(held, x) && !Before(x, late)
    ensures !Before(held, late)
  {
    hide Before;
    BeforeIsTotal(x, late);
    if Before(held, late) && Before(late, x) {
      BeforeIsTransitive(held, late, x);
    }
  }

  lemma {:induction false} InsertIdOrders(id: string, ids: seq<string>)
    requires InOrder(ids)
    ensures InOrder(InsertId(id, ids))
  {
    hide Before;
    if ids != [] && Before(ids[0], id) {
      var rest := InsertId(id, ids[1..]);
      InsertIdOrders(id, ids[1..]);
      InsertIdKeeps(id, ids[1..]);
      BeforeIsTotal(ids[0], id);
      forall j | 0 <= j < |rest| ensures !Before(rest[j], ids[0]) {
        assert rest[j] in rest;
      }
    } else {
      forall j | 0 <= j < |ids| ensures !Before(ids[j], id) {
        if j > 0 {
          NotBefore(ids[j], ids[0], id);
        }
      }
    }
  }

  lemma {:induction false} SortIdsSorts(ids: seq<string>)
    ensures InOrder(SortIds(ids)) && multiset(SortIds(ids)) == multiset(ids)
  {
    hide InOrder;
    if ids == [] {
      NoneInOrder();
    } else {
      SortIdsSorts(ids[1..]);
      InsertIdKeeps(ids[0], SortIds(ids[1..]));
      InsertIdOrders(ids[0], SortIds(ids[1..]));
      assert ids == [ids[0]] + ids[1..];
    }
  }

  lemma {:induction false} NoneInOrder()
    ensures InOrder([])
  {
  }

  lemma {:induction false} FirstIsFirst(ids: seq<string>, x: string)
    requires InOrder(ids) && ids != [] && x in multiset(ids)
    ensures !Before(x, ids[0])
  {
    var i :| 0 <= i < |ids| && ids[i] == x;
    BeforeIsTotal(x, x);
  }

  lemma {:induction false} IdsWithoutFirst(ids: seq<string>)
    requires ids != []
    ensures multiset(ids) == multiset{ids[0]} + multiset(ids[1..])
    ensures ids[0] in multiset(ids)
    ensures InOrder(ids) ==> InOrder(ids[1..])
  {
    assert ids == [ids[0]] + ids[1..];
  }

  lemma {:induction false} CancelId(x: string, a: multiset<string>, b: multiset<string>)
    requires multiset{x} + a == multiset{x} + b
    ensures a == b
  {
    assert a == (multiset{x} + a) - multiset{x};
    assert b == (multiset{x} + b) - multiset{x};
  }

  lemma {:induction false} OrderIsUnique(a: seq<string>, b: seq<string>)
    requires InOrder(a) && InOrder(b) && |a| == |b| && multiset(a) == multiset(b)
    ensures a == b
  {
    hide InOrder, Before;
    if a != [] {
      IdsWithoutFirst(a);
      IdsWithoutFirst(b);
      FirstIsFirst(a, b[0]);
      FirstIsFirst(b, a[0]);
      BeforeIsTotal(a[0], b[0]);
      CancelId(a[0], multiset(a[1..]), multiset(b[1..]));
      OrderIsUnique(a[1..], b[1..]);
      assert a == [a[0]] + a[1..] && b == [b[0]] + b[1..];
    }
  }

  /** Sorted lists of the same sources are the same list. */
  lemma {:induction false} SortingIgnoresOrder(a: seq<string>, b: seq<string>)
    requires multiset(a) == multiset(b)
    ensures SortIds(a) == SortIds(b)
  {
    hide SortIds, InOrder;
    assert |multiset(a)| == |a| && |multiset(b)| == |b|;
    SortIdsSorts(a);
    SortIdsSorts(b);
    OrderIsUnique(SortIds(a), SortIds(b));
  }

  /** The observations of the given sources, in order of source: what `_fingerprint` hashes. */
  function Listing(latest: map<string, Observation>, sources: seq<string>): seq<Observation>
    requires forall s :: s in sources ==> s in latest
  {
    var sorted := SortIds(sources);
    seq(|sorted|, i requires 0 <= i < |sorted| => assert sorted[i] in sorted; latest[sorted[i]])
  }

  // ---- consensus ----

  function Abs(x: real): real {
    if x < 0.0 then -x else x
  }

  /** Distance from the centre, relative to it. */
  function Relative(price: real, center: real): real
    requires center > 0.0
  {
    Abs(price - center) / center
  }

  /** The sources, in order, whose price is close to the centre, or not close when `close` is false. */
  function Select(latest: map<string, Observation>, sources: seq<string>, center: real, e: real,
                  close: bool): (chosen: seq<string>)
    requires center > 0.0 && forall s :: s in sources ==> s in latest
    ensures forall s :: s in chosen <==> s in sources && (Relative(latest[s].price, center) <= e) == close
    ensures |chosen| <= |sources|
  {
    if sources == [] then []
    else
      var rest := Select(latest, sources[1..], center, e, close);
      assert sources == [sources[0]] + sources[1..];
      if (Relative(latest[sources[0]].price, center) <= e) == close then [sources[0]] + rest else rest
  }

  /** The largest relative distance. */
  function Dispersion(prices: seq<real>, center: real): (d: real)
    requires center > 0.0 && prices != []
    ensures forall i :: 0 <= i < |prices| ==> Relative(prices[i], center) <= d
    ensures exists i :: 0 <= i < |prices| && Relative(prices[i], center) == d
  {
    if |prices| == 1 then Relative(prices[0], center)
    else
      var n := |prices| - 1;
      var d := Dispersion(prices[..n], center);
      assert forall i :: 0 <= i < n ==> prices[..n][i] == prices[i];
      if Relative(prices[n], center) > d then Relative(prices[n], center) else d
  }

  predicate Positive(log: seq<Observation>) {
    forall i :: 0 <= i < |log| ==> log[i].price > 0.0
  }

  lemma {:induction false} MedianInRange(xs: seq<real>, lo: real, hi: real)
    requires xs != [] && forall i :: 0 <= i < |xs| ==> lo <= xs[i] <= hi
    ensures lo <= Median(xs) <= hi
  {
    hide Median;
    CountAll(xs, x => lo <= x <= hi);
    MajorityHoldsMedian(xs, lo, hi);
  }

  lemma {:induction false} MedianIsPositive(xs: seq<real>)
    requires xs != [] && forall i :: 0 <= i < |xs| ==> xs[i] > 0.0
    ensures Median(xs) > 0.0
  {
    SortSorts(xs);
    forall i | 0 <= i < |xs| ensures Sort(xs)[i] > 0.0 {
      assert Sort(xs)[i] in multiset(xs);
    }
  }

  lemma {:induction false} LatestIsPositive(log: seq<Observation>, symbol: string, source: string)
    requires Positive(log) && source in Latest(OfSymbol(log, symbol))
    ensures Latest(OfSymbol(log, symbol))[source].price > 0.0
  {
    var obs := OfSymbol(log, symbol);
    hide OfSymbol;
    var i := LatestIsStored(obs, source);
    assert obs[i] in log;
  }

  function PricesIn(log: seq<Observation>, symbol: string): seq<real> {
    var obs := OfSymbol(log, symbol);
    PricesOf(Latest(obs), Sources(obs))
  }

  ghost predicate Booked(latest: map<string, Observation>, sources: seq<string>) {
    forall s :: s in sources ==> s in latest && latest[s].price > 0.0
  }

  lemma {:induction false} BookedPrices(latest: map<string, Observation>, sources: seq<string>)
    requires Booked(latest, sources) && sources != []
    ensures Median(PricesOf(latest, sources)) > 0.0
  {
    var prices := PricesOf(latest, sources);
    forall i | 0 <= i < |prices| ensures prices[i] > 0.0 {
      assert sources[i] in sources;
    }
    MedianIsPositive(prices);
  }

  lemma {:induction false} LogIsBooked(log: seq<Observation>, symbol: string)
    requires Positive(log)
    ensures Booked(Latest(OfSymbol(log, symbol)), Sources(OfSymbol(log, symbol)))
  {
    hide Latest, OfSymbol, Sources;
    var obs := OfSymbol(log, symbol);
    forall s | s in Sources(obs) ensures s in Latest(obs) && Latest(obs)[s].price > 0.0 {
      LatestIsPositive(log, symbol, s);
    }
  }

  /** The answer for the newest observation of each source. */
  function Answer(symbol: string, digest: Digest, latest: map<string, Observation>, sources: seq<string>,
                  e: real, minSources: int): ConsensusResult
    requires Booked(latest, sources) && minSources >= 1
  {
    var evidence := digest(Listing(latest, sources));
    if |sources| < minSources then
      ConsensusResult(symbol, None, InsufficientSources, |sources|, None, [], SortIds(sources), evidence)
    else
      BookedPrices(latest, sources);
      var prices := PricesOf(latest, sources);
      var center := Median(prices);
      var accepted := SortIds(Select(latest, sources, center, e, true));
      var rejected := SortIds(Select(latest, sources, center, e, false));
      var dispersion := Some(Dispersion(prices, center));
      if |accepted| < minSources then
        ConsensusResult(symbol, None, Disagreement, |sources|, dispersion, accepted, rejected, evidence)
      else
        var price := Some(Median(PricesOf(latest, accepted)));
        ConsensusResult(symbol, price, Consensus, |sources|, dispersion, accepted, rejected, evidence)
  }

  /** The answer of the oracle for the observations submitted so far. */
  function ConsensusOf(digest: Digest, log: seq<Observation>, symbol: string, e: real, minSources: int): ConsensusResult
    requires Positive(log) && minSources >= 1
  {
    var obs := OfSymbol(log, symbol);
    LogIsBooked(log, symbol);
    if obs == [] then ConsensusResult(symbol, None, InsufficientData, 0, None, [], [], digest([]))
    else Answer(symbol, digest, Latest(obs), Sources(obs), e, minSources)
  }

  /** Sorting the accepted sources does not move their median. */
  lemma {:induction false} SortingKeepsMedian(latest: map<string, Observation>, ids: seq<string>)
    requires ids != [] && forall s :: s in ids ==> s in latest
    ensures SortIds(ids) != [] && Median(PricesOf(latest, SortIds(ids))) == Median(PricesOf(latest, ids))
  {
    hide SortIds, Median, PricesOf;
    SortIdsSorts(ids);
    PricesPermute(latest, SortIds(ids), ids);
    MedianIgnoresOrder(PricesOf(latest, SortIds(ids)), PricesOf(latest, ids));
  }

  lemma {:induction false} SelectPartitions(latest: map<string, Observation>, sources: seq<string>, center: real,
                                            e: real)
    requires center > 0.0 && forall s :: s in sources ==> s in latest
    ensures |Select(latest, sources, center, e, true)| + |Select(latest, sources, center, e, false)| == |sources|
  {
    if sources != [] {
      SelectPartitions(latest, sources[1..], center, e);
    }
  }

  /** A price within the accepted distance of the centre. */
  lemma {:induction false} CloseMeans(price: real, center: real, e: real)
    requires center > 0.0
    ensures Relative(price, center) <= e <==> center * (1.0 - e) <= price <= center * (1.0 + e)
  {
    var d := Abs(price - center);
    assert d / center * center == d;
    if d / center <= e {
      Scale(d / center, e, center);
    } else {
      ScaleStrictly(e, d / center, center);
    }
  }

  lemma {:induction false} ScaleStrictly(a: real, b: real, c: real)
    requires a < b && c > 0.0
    ensures a * c < b * c
  {
  }

  lemma {:induction false} Scale(a: real, b: real, c: real)
    requires a <= b && c >= 0.0
    ensures a * c <= b * c
  {
  }

  lemma {:induction false} AgreedPriceIsNearCenter(latest: map<string, Observation>, sources: seq<string>,
                                                   center: real, e: real)
    requires center > 0.0 && forall s :: s in sources ==> s in latest && latest[s].price > 0.0
    requires Select(latest, sources, center, e, true) != []
    ensures var price := Median(PricesOf(latest, Select(latest, sources, center, e, true)));
      price > 0.0 && center * (1.0 - e) <= price <= center * (1.0 + e)
  {
    hide Median, Select, Relative;
    var accepted := Select(latest, sources, center, e, true);
    var low, high := center * (1.0 - e), center * (1.0 + e);
    var close := PricesOf(latest, accepted);
    forall i | 0 <= i < |close| ensures low <= close[i] <= high && close[i] > 0.0 {
      assert accepted[i] in accepted;
      CloseMeans(close[i], center, e);
    }
    MedianInRange(close, low, high);
    MedianIsPositive(close);
  }

  lemma {:induction false} NearCenterIsNearInterval(price: real, center: real, e: real, lo: real, hi: real)
    requires 0.0 < lo <= center <= hi && e > 0.0
    requires price > 0.0 && center * (1.0 - e) <= price <= center * (1.0 + e)
    ensures lo * (1.0 - e) <= price <= hi * (1.0 + e)
  {
    Scale(center, hi, 1.0 + e);
    if e <= 1.0 {
      Scale(lo, center, 1.0 - e);
      assert lo * (1.0 - e) <= center * (1.0 - e);
    } else {
      Scale(0.0, lo, e - 1.0);
      assert lo * (1.0 - e) <= 0.0;
    }
  }

  /** With a majority of the sources in `[lo, hi]`, an agreed price is at most the accepted
      dispersion outside it. */
  lemma {:induction false} ConsensusPriceIsBounded(digest: Digest, log: seq<Observation>, symbol: string, e: real,
                                                   minSources: int, lo: real, hi: real)
    requires Positive(log) && minSources >= 1 && e > 0.0 && lo > 0.0
    requires 2 * Inside(PricesIn(log, symbol), lo, hi) > |PricesIn(log, symbol)|
    requires ConsensusOf(digest, log, symbol, e, minSources).status == Consensus
    ensures var price := ConsensusOf(digest, log, symbol, e, minSources).price.value;
      lo * (1.0 - e) <= price <= hi * (1.0 + e)
  {
    LogIsBooked(log, symbol);
    var obs := OfSymbol(log, symbol);
    var latest, sources := Latest(obs), Sources(obs);
    BookedPrices(latest, sources);
    var center := Median(PricesOf(latest, sources));
    hide Median, Select, Latest, Sources, OfSymbol, Inside, Dispersion, SortIds, Listing;
    MajorityHoldsMedian(PricesOf(latest, sources), lo, hi);
    SortingKeepsMedian(latest, Select(latest, sources, center, e, true));
    AgreedPriceIsNearCenter(latest, sources, center, e);
    NearCenterIsNearInterval(ConsensusOf(digest, log, symbol, e, minSources).price.value, center, e, lo, hi);
  }

  lemma {:induction false} TightIsClose(price: real, center: real, e: real, lo: real, hi: real)
    requires 0.0 < lo <= price <= hi && lo <= center <= hi && e > 0.0 && hi - lo <= e * lo
    ensures Relative(price, center) <= e
  {
    Scale(lo, center, e);
    assert Abs(price - center) <= e * center;
    CloseMeans(price, center, e);
  }

  /** Selecting the close sources drops none in a tight interval around the centre. */
  lemma {:induction false} SelectKeepsInside(latest: map<string, Observation>, sources: seq<string>, center: real,
                                             e: real, lo: real, hi: real)
    requires forall s :: s in sources ==> s in latest
    requires 0.0 < lo <= center <= hi && e > 0.0 && hi - lo <= e * lo
    ensures Inside(PricesOf(latest, Select(latest, sources, center, e, true)), lo, hi)
         == Inside(PricesOf(latest, sources), lo, hi)
  {
    hide Relative, Inside, PricesOf;
    if sources == [] {
      assert PricesOf(latest, Select(latest, sources, center, e, true)) == PricesOf(latest, sources);
    } else {
      var rest := Select(latest, sources[1..], center, e, true);
      SelectKeepsInside(latest, sources[1..], center, e, lo, hi);
      var price := latest[sources[0]].price;
      if lo <= price <= hi {
        TightIsClose(price, center, e, lo, hi);
      }
      InsideCons(latest, sources[0], sources[1..], lo, hi);
      InsideCons(latest, sources[0], rest, lo, hi);
      assert sources == [sources[0]] + sources[1..];
    }
  }

  lemma {:induction false} InsideCons(latest: map<string, Observation>, source: string, sources: seq<string>,
                                      lo: real, hi: real)
    requires forall s :: s in [source] + sources ==> s in latest
    requires forall s :: s in sources ==> s in latest
    ensures var price := latest[source].price;
      Inside(PricesOf(latest, [source] + sources), lo, hi)
      == (if lo <= price <= hi then 1 else 0) + Inside(PricesOf(latest, sources), lo, hi)
  {
    var prices := PricesOf(latest, [source] + sources);
    assert prices == [latest[source].price] + PricesOf(latest, sources);
    assert prices[1..] == PricesOf(latest, sources);
  }

  /** A majority of sources that agree to within the accepted dispersion, and are enough of
      them, decides: there is a consensus, and its price lies between theirs, whatever the
      others say. */
  lemma {:induction false} TightMajorityDecides(digest: Digest, log: seq<Observation>, symbol: string, e: real,
                                                minSources: int, lo: real, hi: real)
    requires Positive(log) && minSources >= 1 && e > 0.0 && lo > 0.0 && hi - lo <= e * lo
    requires 2 * Inside(PricesIn(log, symbol), lo, hi) > |PricesIn(log, symbol)|
    requires Inside(PricesIn(log, symbol), lo, hi) >= minSources
    ensures var r := ConsensusOf(digest, log, symbol, e, minSources);
      r.status == Consensus && lo <= r.price.value <= hi
  {
    LogIsBooked(log, symbol);
    var obs := OfSymbol(log, symbol);
    var latest, sources := Latest(obs), Sources(obs);
    BookedPrices(latest, sources);
    var prices := PricesOf(latest, sources);
    var center := Median(prices);
    hide Median, Select, Latest, Sources, OfSymbol, Count, Dispersion, Relative, SortIds, Listing;
    MajorityHoldsMedian(prices, lo, hi);
    SelectKeepsInside(latest, sources, center, e, lo, hi);
    var close := PricesOf(latest, Select(latest, sources, center, e, true));
    MajorityHoldsMedian(close, lo, hi);
    SortingKeepsMedian(latest, Select(latest, sources, center, e, true));
  }

  predicate Coherent(r: ConsensusResult, e: real, minSources: int) {
    && (r.price.Some? <==> r.status == Consensus)
    && (r.status == Consensus <==> |r.accepted| >= minSources)
    && (r.dispersion.Some? ==> |r.accepted| + |r.rejected| == r.sourceCount)
    && (r.dispersion.Some? ==> (r.dispersion.value <= e <==> r.rejected == []))
  }

  /** Nothing is rejected exactly when the dispersion is accepted. */
  lemma {:induction false} RejectedMeansDispersed(latest: map<string, Observation>, sources: seq<string>,
                                                  center: real, e: real)
    requires center > 0.0 && sources != [] && forall s :: s in sources ==> s in latest
    ensures Dispersion(PricesOf(latest, sources), center) <= e <==> Select(latest, sources, center, e, false) == []
  {
    hide Relative, Dispersion, Select;
    var prices := PricesOf(latest, sources);
    var rejected := Select(latest, sources, center, e, false);
    var d := Dispersion(prices, center);
    if rejected != [] {
      assert rejected[0] in rejected && rejected[0] in sources;
      var i :| 0 <= i < |sources| && sources[i] == rejected[0];
      assert Relative(prices[i], center) > e;
    }
    if d > e {
      var i :| 0 <= i < |prices| && Relative(prices[i], center) == d;
      assert sources[i] in sources && prices[i] == latest[sources[i]].price;
      assert sources[i] in rejected;
    }
  }

  lemma {:induction false} BookAnswerIsCoherent(symbol: string, digest: Digest, latest: map<string, Observation>,
                                                sources: seq<string>, e: real, minSources: int)
    requires Booked(latest, sources) && minSources >= 1
    ensures Coherent(Answer(symbol, digest, latest, sources, e, minSources), e, minSources)
    ensures Answer(symbol, digest, latest, sources, e, minSources).status != InsufficientData
  {
    hide Median, Relative, Select, Dispersion, SortIds, Listing, PricesOf;
    if |sources| >= minSources {
      BookedPrices(latest, sources);
      var center := Median(PricesOf(latest, sources));
      SelectPartitions(latest, sources, center, e);
      RejectedMeansDispersed(latest, sources, center, e);
    }
  }

  /** What the parts of an answer say about each other. */
  lemma {:induction false} AnswerIsCoherent(digest: Digest, log: seq<Observation>, symbol: string, e: real,
                                            minSources: int)
    requires Positive(log) && minSources >= 1
    ensures Coherent(ConsensusOf(digest, log, symbol, e, minSources), e, minSources)
    ensures ConsensusOf(digest, log, symbol, e, minSources).status == InsufficientData <==>
      forall o :: o in log ==> o.symbol != symbol
  {
    hide Answer, Latest, Sources, OfSymbol, Booked;
    LogIsBooked(log, symbol);
    var obs := OfSymbol(log, symbol);
    if obs != [] {
      assert obs[0] in obs;
      BookAnswerIsCoherent(symbol, digest, Latest(obs), Sources(obs), e, minSources);
    }
  }

  /** The price differs from the centre by at most the fraction `e` of it. */
  predicate CloseTo(price: real, center: real, e: real) {
    center - e * center <= price <= center + e * center
  }

  function Gap(x: real, y: real): real {
    if x < y then y - x else x - y
  }

  lemma {:induction false} RelativeMeansClose(price: real, center: real, e: real)
    requires center > 0.0
    ensures Relative(price, center) <= e <==> CloseTo(price, center, e)
    ensures Relative(price, center) * center == Gap(price, center)
  {
    var distance := Abs(price - center);
    var relative := distance / center;
    assert relative * center == distance;
    if relative <= e {
      Scale(relative, e, center);
    }
    if distance <= e * center {
      ScaleDown(relative, e, center);
    }
  }

  lemma {:induction false} ScaleDown(x: real, y: real, c: real)
    requires x * c <= y * c && c > 0.0
    ensures x <= y
  {
  }

  /** `ids` are the sources whose price is close to the centre, or not close when `close` is false. */
  ghost predicate Picks(latest: map<string, Observation>, ids: seq<string>, center: real, e: real, close: bool) {
    Distinct(ids) && forall s :: s in ids <==> s in latest && CloseTo(latest[s].price, center, e) == close
  }

  /** All prices are within `d` of the centre, and one is that far away. */
  ghost predicate Reaches(latest: map<string, Observation>, center: real, d: real) {
    && (forall s :: s in latest ==> CloseTo(latest[s].price, center, d))
    && (exists s :: s in latest && d * center == Gap(latest[s].price, center))
  }

  /** The answer in terms of the newest observation of each source. */
  ghost predicate Explained(r: ConsensusResult, symbol: string, latest: map<string, Observation>, center: real, e: real,
                            minSources: int)
  {
    && r.symbol == symbol && r.sourceCount == |latest|
    && (r.status == InsufficientData <==> |latest| == 0)
    && (r.status == InsufficientSources <==> 0 < |latest| < minSources)
    && (if |latest| == 0 || |latest| < minSources then
          && r.dispersion == None && r.accepted == []
          && Distinct(r.rejected) && forall s :: s in r.rejected <==> s in latest
        else
          && Picks(latest, r.accepted, center, e, true) && Picks(latest, r.rejected, center, e, false)
          && r.dispersion.Some? && Reaches(latest, center, r.dispersion.value))
    && (r.price.Some? ==>
         && r.accepted != [] && (forall s :: s in r.accepted ==> s in latest)
         && r.price.value == Median(PricesOf(latest, r.accepted)))
  }

  lemma {:induction false} SourcesAreKeys(obs: seq<Observation>)
    ensures |Sources(obs)| == |Latest(obs)|
  {
    SourcesAreDistinct(obs);
    DistinctSize(Sources(obs));
    hide Sources, Latest, Distinct;
    assert (set s | s in Sources(obs)) == Latest(obs).Keys;
  }

  lemma {:induction false} DistinctSize(s: seq<string>)
    requires Distinct(s)
    ensures |set x | x in s| == |s|
  {
    if s != [] {
      DistinctSize(s[1..]);
      assert s == [s[0]] + s[1..];
      assert s[0] !in s[1..];
      assert (set x | x in s) == (set x | x in s[1..]) + {s[0]};
    }
  }

  lemma {:induction false} SortingKeepsDistinct(ids: seq<string>)
    requires Distinct(ids)
    ensures Distinct(SortIds(ids))
  {
    SortIdsSorts(ids);
    var sorted := SortIds(ids);
    forall i, j | 0 <= i < j < |sorted| ensures sorted[i] != sorted[j] {
      if sorted[i] == sorted[j] {
        DistinctOnce(ids, sorted[i]);
        TwiceInside(sorted, i, j);
      }
    }
  }

  lemma {:induction false} TwiceInside(s: seq<string>, i: nat, j: nat)
    requires i < j < |s| && s[i] == s[j]
    ensures multiset(s)[s[i]] >= 2
  {
    assert s == s[..j] + [s[j]] + s[j + 1..];
    assert s[..j][i] in multiset(s[..j]);
  }

  /** Every answer: how many sources there are, which of them are close to the median of their newest
      prices and which are not, how far the farthest is, and the median of the close ones. */
  lemma {:induction false} AnswerIsExplained(digest: Digest, log: seq<Observation>, symbol: string, e: real,
                                             minSources: int)
    requires Positive(log) && minSources >= 1
    ensures var latest := Latest(OfSymbol(log, symbol));
      var center := if latest == map[] then 0.0 else MiddlePrice(log, symbol);
      Explained(ConsensusOf(digest, log, symbol, e, minSources), symbol, latest, center, e, minSources)
  {
    LogIsBooked(log, symbol);
    var obs := OfSymbol(log, symbol);
    hide OfSymbol, Answer, Explained, Positive, Booked;
    if obs != [] {
      SourcesAreKeys(obs);
      SourcesAreDistinct(obs);
      assert obs[|obs| - 1].sourceId in Latest(obs);
      AnswerExplained(symbol, digest, Latest(obs), Sources(obs), e, minSources);
    } else {
      NothingExplained(symbol, digest, e, minSources);
    }
  }

  /** The median of the newest prices of a symbol. */
  function MiddlePrice(log: seq<Observation>, symbol: string): real {
    var prices := PricesIn(log, symbol);
    if prices == [] then 0.0 else Median(prices)
  }

  lemma {:induction false} NothingExplained(symbol: string, digest: Digest, e: real, minSources: int)
    requires minSources >= 1
    ensures Explained(ConsensusResult(symbol, None, InsufficientData, 0, None, [], [], digest([])), symbol, map[], 0.0,
                      e, minSources)
  {
  }

  lemma {:induction false} SelectPicks(latest: map<string, Observation>, sources: seq<string>, center: real, e: real,
                                       close: bool)
    requires center > 0.0 && Distinct(sources) && forall s :: s in sources <==> s in latest
    ensures Picks(latest, SortIds(Select(latest, sources, center, e, close)), center, e, close)
  {
    var chosen := Select(latest, sources, center, e, close);
    SelectIsDistinct(latest, sources, center, e, close);
    SortingKeepsDistinct(chosen);
    hide Relative, Select, CloseTo, Distinct, SortIds;
    forall s | s in latest ensures Relative(latest[s].price, center) <= e <==> CloseTo(latest[s].price, center, e) {
      RelativeMeansClose(latest[s].price, center, e);
    }
  }

  lemma {:induction false} DispersionReaches(latest: map<string, Observation>, sources: seq<string>, center: real)
    requires center > 0.0 && sources != [] && forall s :: s in sources <==> s in latest
    ensures Reaches(latest, center, Dispersion(PricesOf(latest, sources), center))
  {
    hide Relative, Dispersion, CloseTo, Gap;
    var prices := PricesOf(latest, sources);
    var d := Dispersion(prices, center);
    forall s | s in latest ensures CloseTo(latest[s].price, center, d) {
      var i :| 0 <= i < |sources| && sources[i] == s;
      assert prices[i] == latest[s].price;
      RelativeMeansClose(latest[s].price, center, d);
    }
    var i :| 0 <= i < |prices| && Relative(prices[i], center) == d;
    RelativeMeansClose(prices[i], center, d);
    assert sources[i] in latest && prices[i] == latest[sources[i]].price;
  }

  lemma {:induction false} AnswerExplained(symbol: string, digest: Digest, latest: map<string, Observation>,
                                           sources: seq<string>, e: real, minSources: int)
    requires Booked(latest, sources) && minSources >= 1 && sources != [] && |sources| == |latest| && Distinct(sources)
    requires forall s :: s in sources <==> s in latest
    ensures Explained(Answer(symbol, digest, latest, sources, e, minSources), symbol, latest,
                      Median(PricesOf(latest, sources)), e, minSources)
  {
    hide Median, Select, Dispersion, SortIds, Listing, Distinct, Picks, Reaches, Explained, PricesOf, Booked;
    SortingKeepsDistinct(sources);
    var evidence := digest(Listing(latest, sources));
    if |sources| < minSources {
      TooFewExplained(symbol, latest, SortIds(sources), Median(PricesOf(latest, sources)), e, minSources, evidence);
    } else {
      BookedPrices(latest, sources);
      var prices := PricesOf(latest, sources);
      var center := Median(prices);
      SelectPicks(latest, sources, center, e, true);
      SelectPicks(latest, sources, center, e, false);
      DispersionReaches(latest, sources, center);
      var accepted := SortIds(Select(latest, sources, center, e, true));
      var rejected := SortIds(Select(latest, sources, center, e, false));
      JudgedExplained(symbol, latest, accepted, rejected, Dispersion(prices, center), center, e, minSources, evidence);
    }
  }

  lemma {:induction false} TooFewExplained(symbol: string, latest: map<string, Observation>, rejected: seq<string>,
                                           center: real, e: real, minSources: int, evidence: string)
    requires 0 < |latest| < minSources && Distinct(rejected) && forall s :: s in rejected <==> s in latest
    ensures var r := ConsensusResult(symbol, None, InsufficientSources, |latest|, None, [], rejected, evidence);
      Explained(r, symbol, latest, center, e, minSources)
  {
    hide CloseTo, Median;
  }

  lemma {:induction false} JudgedExplained(symbol: string, latest: map<string, Observation>, accepted: seq<string>,
                                           rejected: seq<string>, d: real, center: real, e: real, minSources: int,
                                           evidence: string)
    requires |latest| >= minSources >= 1 && Reaches(latest, center, d)
    requires Picks(latest, accepted, center, e, true) && Picks(latest, rejected, center, e, false)
    requires forall s :: s in accepted ==> s in latest
    ensures var r :=
        if |accepted| < minSources then
          ConsensusResult(symbol, None, Disagreement, |latest|, Some(d), accepted, rejected, evidence)
        else
          ConsensusResult(symbol, Some(Median(PricesOf(latest, accepted))), Consensus, |latest|, Some(d), accepted,
                          rejected, evidence);
      Explained(r, symbol, latest, center, e, minSources)
  {
    hide CloseTo, Median, Gap, Distinct;
  }

  /** The newest observation of each source, in order of the sources. */
  ghost predicate Lists(listing: seq<Observation>, latest: map<string, Observation>) {
    && |listing| == |latest|
    && (forall o :: o in listing <==> o.sourceId in latest && latest[o.sourceId] == o)
    && (forall i, j :: 0 <= i < j < |listing| ==> !Before(listing[j].sourceId, listing[i].sourceId))
  }

  lemma {:induction false} ListingAt(latest: map<string, Observation>, sources: seq<string>)
    requires forall s :: s in sources ==> s in latest && latest[s].sourceId == s
    ensures |Listing(latest, sources)| == |SortIds(sources)| == |sources|
    ensures forall i :: 0 <= i < |sources| ==>
      && Listing(latest, sources)[i].sourceId == SortIds(sources)[i]
      && SortIds(sources)[i] in latest && Listing(latest, sources)[i] == latest[SortIds(sources)[i]]
  {
    var ids := SortIds(sources);
    hide SortIds;
    assert forall i :: 0 <= i < |ids| ==> ids[i] in ids;
  }

  lemma {:induction false} ListingHolds(latest: map<string, Observation>, sources: seq<string>, o: Observation)
    requires forall s :: s in sources <==> s in latest
    requires forall s :: s in latest ==> latest[s].sourceId == s
    ensures o in Listing(latest, sources) <==> o.sourceId in latest && latest[o.sourceId] == o
  {
    ListingAt(latest, sources);
    hide SortIds, Listing;
    if o.sourceId in latest && latest[o.sourceId] == o {
      assert o.sourceId in SortIds(sources);
      var i :| 0 <= i < |sources| && SortIds(sources)[i] == o.sourceId;
      assert Listing(latest, sources)[i] == o;
    }
  }

  lemma {:induction false} ListingLists(latest: map<string, Observation>, sources: seq<string>)
    requires |sources| == |latest| && forall s :: s in sources <==> s in latest
    requires forall s :: s in latest ==> latest[s].sourceId == s
    ensures Lists(Listing(latest, sources), latest)
  {
    forall o: Observation ensures o in Listing(latest, sources) <==> o.sourceId in latest && latest[o.sourceId] == o {
      ListingHolds(latest, sources, o);
    }
    ListingAt(latest, sources);
    SortIdsSorts(sources);
    hide SortIds, Before, Listing;
  }

  lemma {:induction false} HashOfAnswer(digest: Digest, log: seq<Observation>, symbol: string, e: real, minSources: int)
    requires Positive(log) && minSources >= 1
    ensures var obs := OfSymbol(log, symbol);
      && (forall s :: s in Sources(obs) ==> s in Latest(obs))
      && ConsensusOf(digest, log, symbol, e, minSources).evidenceHash == digest(Listing(Latest(obs), Sources(obs)))
  {
    LogIsBooked(log, symbol);
    var obs := OfSymbol(log, symbol);
    if obs == [] {
      assert Listing(Latest(obs), Sources(obs)) == [];
    }
    hide OfSymbol, Latest, Sources, Listing, SortIds, Select, Median, Dispersion;
  }

  /** The evidence hash is that of the newest observation of every source, in order of the sources. */
  lemma {:induction false} EvidenceIsListed(digest: Digest, log: seq<Observation>, symbol: string, e: real,
                                            minSources: int)
    returns (listing: seq<Observation>)
    requires Positive(log) && minSources >= 1
    ensures ConsensusOf(digest, log, symbol, e, minSources).evidenceHash == digest(listing)
    ensures Lists(listing, Latest(OfSymbol(log, symbol)))
  {
    HashOfAnswer(digest, log, symbol, e, minSources);
    var obs := OfSymbol(log, symbol);
    hide OfSymbol, Latest, Sources, Lists, ConsensusOf, Listing;
    SourcesAreKeys(obs);
    forall s | s in Latest(obs) ensures Latest(obs)[s].sourceId == s {
      var k := LatestIsStored(obs, s);
    }
    listing := Listing(Latest(obs), Sources(obs));
    ListingLists(Latest(obs), Sources(obs));
  }

  // ---- order and staleness of submissions ----

  /** Same observations of each source and symbol at each time. */
  predicate Unambiguous(log: seq<Observation>) {
    forall i, j :: 0 <= i < |log| && 0 <= j < |log| && SameSlot(log[i], log[j]) ==> log[i] == log[j]
  }

  predicate SameSlot(a: Observation, b: Observation) {
    a.sourceId == b.sourceId && a.symbol == b.symbol && a.timestamp == b.timestamp
  }

  ghost predicate SameElements<T(!new)>(a: seq<T>, b: seq<T>) {
    forall x :: x in a <==> x in b
  }

  predicate Distinct(s: seq<string>) {
    forall i, j :: 0 <= i < j < |s| ==> s[i] != s[j]
  }

  lemma {:induction false} DistinctOnce(s: seq<string>, x: string)
    requires Distinct(s)
    ensures multiset(s)[x] == if x in s then 1 else 0
  {
    if s != [] {
      DistinctOnce(s[1..], x);
      assert s == [s[0]] + s[1..];
      assert s[0] !in s[1..];
    }
  }

  lemma {:induction false} SameElementsSameMultiset(a: seq<string>, b: seq<string>)
    requires Distinct(a) && Distinct(b) && SameElements(a, b)
    ensures multiset(a) == multiset(b) && |a| == |b|
  {
    forall x: string ensures multiset(a)[x] == multiset(b)[x] {
      DistinctOnce(a, x);
      DistinctOnce(b, x);
    }
    assert multiset(a) == multiset(b);
    assert |multiset(a)| == |a| && |multiset(b)| == |b|;
  }

  lemma {:induction false} SourcesAreDistinct(obs: seq<Observation>)
    ensures Distinct(Sources(obs))
  {
    hide Latest;
    if obs != [] {
      SourcesAreDistinct(obs[..|obs| - 1]);
    }
  }

  lemma {:induction false} SelectIsDistinct(latest: map<string, Observation>, sources: seq<string>, center: real,
                                            e: real, close: bool)
    requires center > 0.0 && forall s :: s in sources ==> s in latest
    requires Distinct(sources)
    ensures Distinct(Select(latest, sources, center, e, close))
  {
    hide Relative;
    if sources != [] {
      var rest := Select(latest, sources[1..], center, e, close);
      SelectIsDistinct(latest, sources[1..], center, e, close);
      forall i | 0 <= i < |rest| ensures rest[i] != sources[0] {
        assert rest[i] in rest && rest[i] in sources[1..];
      }
    }
  }

  lemma {:induction false} SplitAt(xs: seq<real>, k: nat)
    requires k < |xs|
    ensures multiset(xs) == multiset(xs[..k] + xs[k + 1..]) + multiset{xs[k]}
  {
    assert xs == xs[..k] + [xs[k]] + xs[k + 1..];
  }

  lemma {:induction false} PricesWithout(latest: map<string, Observation>, b: seq<string>, k: nat, rest: seq<string>)
    requires k < |b| && forall s :: s in b ==> s in latest
    requires rest == b[..k] + b[k + 1..] && forall s :: s in rest ==> s in latest
    ensures multiset(PricesOf(latest, b)) == multiset(PricesOf(latest, rest)) + multiset{latest[b[k]].price}
  {
    var prices := PricesOf(latest, b);
    SplitAt(prices, k);
    assert PricesOf(latest, rest) == prices[..k] + prices[k + 1..] by {
      hide PricesOf;
    }
  }

  lemma {:induction false} PricesPermute(latest: map<string, Observation>, a: seq<string>, b: seq<string>)
    requires forall s :: s in a ==> s in latest
    requires forall s :: s in b ==> s in latest
    requires multiset(a) == multiset(b)
    ensures multiset(PricesOf(latest, a)) == multiset(PricesOf(latest, b))
  {
    hide PricesOf;
    if a == [] {
      assert |multiset(b)| == |b|;
      assert PricesOf(latest, a) == [] && PricesOf(latest, b) == [];
    } else {
      var k, rest := TakeOut(b, a);
      var tail := a[1..];
      assert tail == a[..0] + a[1..];
      PricesPermute(latest, tail, rest);
      PricesWithout(latest, a, 0, tail);
      PricesWithout(latest, b, k, rest);
    }
  }

  /** `b` without one occurrence of the first element of its rearrangement `a`. */
  lemma {:induction false} TakeOut(b: seq<string>, a: seq<string>) returns (k: nat, rest: seq<string>)
    requires a != [] && multiset(a) == multiset(b)
    ensures 0 <= k < |b| && b[k] == a[0] && rest == b[..k] + b[k + 1..]
    ensures multiset(rest) == multiset(a[1..])
    ensures forall s :: s in rest ==> s in b
  {
    assert a == [a[0]] + a[1..];
    assert a[0] in multiset(b);
    k :| 0 <= k < |b| && b[k] == a[0];
    rest := b[..k] + b[k + 1..];
    assert b == b[..k] + [b[k]] + b[k + 1..];
    assert multiset(rest) == multiset(b) - multiset{a[0]};
  }

  lemma {:induction false} DispersionIgnoresOrder(xs: seq<real>, ys: seq<real>, center: real)
    requires center > 0.0 && xs != [] && ys != [] && multiset(xs) == multiset(ys)
    ensures Dispersion(xs, center) <= Dispersion(ys, center)
  {
    hide Dispersion, Relative;
    var i :| 0 <= i < |xs| && Relative(xs[i], center) == Dispersion(xs, center);
    assert xs[i] in multiset(ys);
    var j :| 0 <= j < |ys| && ys[j] == xs[i];
  }

  lemma {:induction false} SameLatest(a: seq<Observation>, b: seq<Observation>, source: string)
    requires SameElements(a, b) && Unambiguous(a) && source in Latest(a)
    requires forall i :: 0 <= i < |a| ==> a[i].symbol == a[0].symbol
    ensures source in Latest(b) && Latest(b)[source] == Latest(a)[source]
  {
    hide Before, Latest;
    var i := LatestIsStored(a, source);
    assert a[i] in b;
    var j :| 0 <= j < |b| && b[j] == a[i];
    LatestIsNewest(b, j);
    var k := LatestIsStored(b, source);
    assert b[k] in a;
    var m :| 0 <= m < |a| && a[m] == b[k];
    LatestIsNewest(a, m);
    BeforeIsTotal(a[i].timestamp, a[m].timestamp);
    assert SameSlot(a[i], a[m]);
  }

  lemma {:induction false} SameBook(a: seq<Observation>, b: seq<Observation>)
    requires SameElements(a, b) && Unambiguous(a) && Unambiguous(b)
    requires forall i :: 0 <= i < |a| ==> a[i].symbol == a[0].symbol
    requires forall i :: 0 <= i < |b| ==> b[i].symbol == b[0].symbol
    ensures Latest(a) == Latest(b)
    ensures multiset(Sources(a)) == multiset(Sources(b)) && |Sources(a)| == |Sources(b)|
  {
    hide Unambiguous, Latest, Sources;
    forall s | s in Latest(a) ensures s in Latest(b) && Latest(b)[s] == Latest(a)[s] {
      SameLatest(a, b, s);
    }
    forall s | s in Latest(b) ensures s in Latest(a) {
      SameLatest(b, a, s);
    }
    assert Latest(a) == Latest(b);
    SourcesAreDistinct(a);
    SourcesAreDistinct(b);
    SameElementsSameMultiset(Sources(a), Sources(b));
  }

  lemma {:induction false} UnambiguousOfSymbol(log: seq<Observation>, symbol: string)
    requires Unambiguous(log)
    ensures Unambiguous(OfSymbol(log, symbol))
    ensures var obs := OfSymbol(log, symbol); forall i :: 0 <= i < |obs| ==> obs[i].symbol == obs[0].symbol
  {
    var obs := OfSymbol(log, symbol);
    hide OfSymbol;
    forall i | 0 <= i < |obs| ensures obs[i] in log && obs[i].symbol == symbol {
      assert obs[i] in obs;
    }
    forall i, j | 0 <= i < |obs| && 0 <= j < |obs| && SameSlot(obs[i], obs[j]) ensures obs[i] == obs[j] {
      var m :| 0 <= m < |log| && log[m] == obs[i];
      var n :| 0 <= n < |log| && log[n] == obs[j];
    }
  }

  lemma {:induction false} SelectIgnoresOrder(latest: map<string, Observation>, a: seq<string>, b: seq<string>,
                                              center: real, e: real, close: bool)
    requires center > 0.0 && (forall s :: s in a ==> s in latest) && (forall s :: s in b ==> s in latest)
    requires Distinct(a) && Distinct(b) && SameElements(a, b)
    ensures multiset(Select(latest, a, center, e, close)) == multiset(Select(latest, b, center, e, close))
    ensures |Select(latest, a, center, e, close)| == |Select(latest, b, center, e, close)|
  {
    hide Select, Relative, Distinct;
    SelectIsDistinct(latest, a, center, e, close);
    SelectIsDistinct(latest, b, center, e, close);
    SameElementsSameMultiset(Select(latest, a, center, e, close), Select(latest, b, center, e, close));
  }

  lemma {:induction false} AnswerIgnoresOrder(symbol: string, digest: Digest, latest: map<string, Observation>,
                                              a: seq<string>, b: seq<string>, e: real, minSources: int)
    requires Booked(latest, a) && Booked(latest, b) && minSources >= 1
    requires Distinct(a) && Distinct(b) && SameElements(a, b)
    ensures Answer(symbol, digest, latest, a, e, minSources) == Answer(symbol, digest, latest, b, e, minSources)
  {
    hide Distinct, Median, Select, Dispersion, SortIds;
    SameElementsSameMultiset(a, b);
    SortingIgnoresOrder(a, b);
    if |a| >= minSources {
      BookedPrices(latest, a);
      BookedPrices(latest, b);
      var pricesA, pricesB := PricesOf(latest, a), PricesOf(latest, b);
      PricesPermute(latest, a, b);
      MedianIgnoresOrder(pricesA, pricesB);
      var center := Median(pricesA);
      DispersionIgnoresOrder(pricesA, pricesB, center);
      DispersionIgnoresOrder(pricesB, pricesA, center);
      SelectIgnoresOrder(latest, a, b, center, e, true);
      SelectIgnoresOrder(latest, a, b, center, e, false);
      SortingIgnoresOrder(Select(latest, a, center, e, true), Select(latest, b, center, e, true));
      SortingIgnoresOrder(Select(latest, a, center, e, false), Select(latest, b, center, e, false));
    }
  }

  /** The answer depends only on what was submitted: the same observations in any order, with any
      repetitions, give the same consensus, unless two observations of one source disagree about
      one time. */
  lemma {:induction false} SubmissionOrderIsIrrelevant(digest: Digest, a: seq<Observation>, b: seq<Observation>,
                                                       symbol: string, e: real, minSources: int)
    requires Positive(a) && Positive(b) && minSources >= 1
    requires SameElements(a, b) && Unambiguous(a) && Unambiguous(b)
    ensures ConsensusOf(digest, a, symbol, e, minSources) == ConsensusOf(digest, b, symbol, e, minSources)
  {
    hide Unambiguous, OfSymbol, Sources, Latest, Answer, Booked, Distinct;
    var obsA, obsB := OfSymbol(a, symbol), OfSymbol(b, symbol);
    UnambiguousOfSymbol(a, symbol);
    UnambiguousOfSymbol(b, symbol);
    SameBook(obsA, obsB);
    LogIsBooked(a, symbol);
    LogIsBooked(b, symbol);
    SourcesAreDistinct(obsA);
    SourcesAreDistinct(obsB);
    AnswerIgnoresOrder(symbol, digest, Latest(obsA), Sources(obsA), Sources(obsB), e, minSources);
    if obsA != [] {
      assert obsA[0] in obsB;
    }
    if obsB != [] {
      assert obsB[0] in obsA;
    }
  }

  lemma {:induction false} OfSymbolAppend(log: seq<Observation>, o: Observation, symbol: string)
    ensures OfSymbol(log + [o], symbol) == OfSymbol(log, symbol) + (if o.symbol == symbol then [o] else [])
  {
    assert (log + [o])[..|log|] == log;
  }

  /** An observation no newer than one of the same source and symbol changes no answer. */
  lemma {:induction false} StaleChangesNothing(digest: Digest, log: seq<Observation>, i: nat, o: Observation,
                                               symbol: string, e: real, minSources: int)
    requires Positive(log + [o]) && Positive(log) && minSources >= 1
    requires i < |log| && log[i].sourceId == o.sourceId && log[i].symbol == o.symbol
    requires !Before(log[i].timestamp, o.timestamp)
    ensures ConsensusOf(digest, log + [o], symbol, e, minSources) == ConsensusOf(digest, log, symbol, e, minSources)
  {
    hide Before, OfSymbol, Answer, Booked;
    OfSymbolAppend(log, o, symbol);
    LogIsBooked(log, symbol);
    LogIsBooked(log + [o], symbol);
    var obs := OfSymbol(log, symbol);
    if o.symbol == symbol {
      assert log[i] in obs;
      var k :| 0 <= k < |obs| && obs[k] == log[i];
      LatestIsNewest(obs, k);
      NotBefore(Latest(obs)[o.sourceId].timestamp, log[i].timestamp, o.timestamp);
      assert (obs + [o])[..|obs|] == obs;
      assert o.sourceId in Sources(obs);
      assert Latest(obs + [o]) == Latest(obs) && Sources(obs + [o]) == Sources(obs);
    } else {
      assert OfSymbol(log + [o], symbol) == obs;
    }
  }

  class MaatOracle {
    const digest: Digest
    const maxRelativeDispersion: real
    const minSources: int
    var observations: seq<Observation>

    ghost predicate Valid()
      reads this
    {
      maxRelativeDispersion > 0.0 && minSources >= 1 && Positive(observations)
    }

    constructor (digest: Digest, maxRelativeDispersion: real, minSources: int)
      requires maxRelativeDispersion > 0.0 && minSources >= 1
      ensures Valid() && observations == []
      ensures this.digest == digest
      ensures this.maxRelativeDispersion == maxRelativeDispersion && this.minSources == minSources
    {
      this.digest := digest;
      this.maxRelativeDispersion := maxRelativeDispersion;
      this.minSources := minSources;
      observations := [];
    }

    /** The constructor as its callers see it: null stands for the ValueError. */
    static method Build(digest: Digest, maxRelativeDispersion: real, minSources: int) returns (oracle: MaatOracle?)
      ensures oracle == null <==> maxRelativeDispersion <= 0.0 || minSources < 1
      ensures oracle != null ==> fresh(oracle) && oracle.Valid() && oracle.observations == []
      ensures oracle != null ==> oracle.digest == digest
      ensures oracle != null ==>
        oracle.maxRelativeDispersion == maxRelativeDispersion && oracle.minSources == minSources
    {
      if maxRelativeDispersion <= 0.0 || minSources < 1 {
        return null;
      }
      oracle := new MaatOracle(digest, maxRelativeDispersion, minSources);
    }

    /** `submit`; a refusal leaves the oracle as it was. */
    method Submit(observation: Observation) returns (ok: bool)
      requires Valid()
      modifies this`observations
      ensures Valid()
      ensures ok <==> observation.sourceId != "" && observation.symbol != "" && observation.price > 0.0
      ensures observations == if ok then old(observations) + [observation] else old(observations)
    {
      if observation.sourceId == "" || observation.symbol == "" {
        return false;
      }
      if observation.price <= 0.0 {
        return false;
      }
      observations := observations + [observation];
      ok := true;
    }

    /** `consensus`. */
    method GetConsensus(symbol: string) returns (r: ConsensusResult)
      requires Valid()
      ensures r == ConsensusOf(digest, observations, symbol, maxRelativeDispersion, minSources)
    {
      hide Before, OfSymbol, Select, Dispersion, Median, Positive, Relative, SortIds, Listing, PricesOf, Booked;
      LogIsBooked(observations, symbol);
      var obs := OfSymbol(observations, symbol);
      if obs == [] {
        return ConsensusResult(symbol, None, InsufficientData, 0, None, [], [], digest([]));
      }
      var latest: map<string, Observation>, sources: seq<string> := map[], [];
      for i := 0 to |obs|
        invariant latest == Latest(obs[..i]) && sources == Sources(obs[..i])
      {
        var item := obs[i];
        assert obs[..i + 1][..i] == obs[..i];
        if item.sourceId !in latest {
          sources := sources + [item.sourceId];
          latest := latest[item.sourceId := item];
        } else if Before(latest[item.sourceId].timestamp, item.timestamp) {
          latest := latest[item.sourceId := item];
        }
      }
      assert obs[..|obs|] == obs;
      var evidence := Fingerprint(latest, sources);
      if |sources| < minSources {
        return ConsensusResult(symbol, None, InsufficientSources, |sources|, None, [], SortIds(sources), evidence);
      }
      BookedPrices(latest, sources);
      var prices := PricesOf(latest, sources);
      var center := Median(prices);
      var accepted := SortIds(Select(latest, sources, center, maxRelativeDispersion, true));
      var rejected := SortIds(Select(latest, sources, center, maxRelativeDispersion, false));
      var dispersion := Some(Dispersion(prices, center));
      if |accepted| < minSources {
        return ConsensusResult(symbol, None, Disagreement, |sources|, dispersion, accepted, rejected, evidence);
      }
      var price := Some(Median(PricesOf(latest, accepted)));
      r := ConsensusResult(symbol, price, Consensus, |sources|, dispersion, accepted, rejected, evidence);
    }

    /** `_fingerprint`, over the newest observations. */
    method Fingerprint(latest: map<string, Observation>, sources: seq<string>) returns (hash: string)
      requires forall s :: s in sources ==> s in latest
      ensures hash == digest(Listing(latest, sources))
    {
      var sorted := SortIds(sources);
      var payload: seq<Observation> := [];
      for i := 0 to |sorted|
        invariant payload == Listing(latest, sources)[..i]
      {
        assert sorted[i] in sorted;
        payload := payload + [latest[sorted[i]]];
      }
      assert Listing(latest, sources)[..|sorted|] == Listing(latest, sources);
      hash := digest(payload);
    }
  }
}
