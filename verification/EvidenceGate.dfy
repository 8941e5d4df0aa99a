/** Evidence normalisation and the evidence verdict of `app.py`. */
module EvidenceGate {
  import opened Prelude
  import opened HashChain

  /** `expires_at`: absent or empty, a readable time, or text that does not parse. */
  datatype Expiry = NoExpiry | ExpiresAt(time: int) | Malformed

  /** One evidence row; `None` is an absent dictionary key. */
  datatype Item = Item(
    state: Option<string>,
    key: Option<string>, subject: Option<string>, name: Option<string>,
    value: Option<Json>,
    expiry: Expiry)

  datatype Contradiction = Contradiction(
    key: string,
    previousValue: Json, currentValue: Json,
    previousState: string, currentState: string)

  datatype Verdict = Pass | Block

  datatype Report = Report(verdict: Verdict, normalized: seq<Item>, contradictions: seq<Contradiction>)

  /** Last value and state recorded for a key, and the contradictions met so far. */
  datatype Scan = Scan(seen: map<string, (Json, string)>, contradictions: seq<Contradiction>)

  const ALLOWED_STATES: set<string> := {
    "FACT", "VERIFIED_FACT", "OBSERVATION", "DERIVED", "PREDICTION", "CLAIM", "UNKNOWN", "STALE", "CONTRADICTED"
  }

  const BLOCKING_STATES: set<string> := {"UNKNOWN", "STALE", "CONTRADICTED"}

  function DeclaredState(item: Item): string {
    var state := Upper(if item.state.Some? then item.state.value else "UNKNOWN");
    if state in ALLOWED_STATES then state else "UNKNOWN"
  }

  /** Declared state, overridden by expiry. */
  function EffectiveState(item: Item, now: int): string {
    match item.expiry
    case NoExpiry => DeclaredState(item)
    case ExpiresAt(time) => if time <= now then "STALE" else DeclaredState(item)
    case Malformed => "UNKNOWN"
  }

  function Normalized(item: Item, now: int): Item {
    item.(state := Some(EffectiveState(item, now)))
  }

  predicate Truthy(s: Option<string>) {
    s.Some? && s.value != ""
  }

  /** `row.get("key") or row.get("subject") or row.get("name")`. */
  function KeyOf(item: Item): Option<string> {
    if Truthy(item.key) then item.key
    else if Truthy(item.subject) then item.subject
    else item.name
  }

  /** The row takes part in contradiction detection. */
  predicate Keyed(item: Item) {
    KeyOf(item).Some? && item.value.Some?
  }

  /** Two rows state different values for the same key. */
  predicate Conflict(a: Item, b: Item) {
    Keyed(a) && Keyed(b) && KeyOf(a) == KeyOf(b) && a.value != b.value
  }

  function ScanItem(s: Scan, item: Item): Scan {
    if !Keyed(item) then s
    else
      var key, value, state := KeyOf(item).value, item.value.value, DeclaredState(item);
      if key in s.seen && s.seen[key].0 != value then
        s.(contradictions := s.contradictions + [Contradiction(key, s.seen[key].0, value, s.seen[key].1, state)])
      else
        s.(seen := s.seen[key := (value, state)])
  }

  function ScanAll(items: seq<Item>): Scan {
    if items == [] then Scan(map[], []) else ScanItem(ScanAll(Front(items)), Last(items))
  }

  function NormalizedAll(items: seq<Item>, now: int): seq<Item> {
    seq(|items|, i requires 0 <= i < |items| => Normalized(items[i], now))
  }

  /** `evidence_gate`: block on any contradiction and on any blocking row. */
  function Gate(items: seq<Item>, now: int): (report: Report)
    ensures report.verdict == Pass ==> report.contradictions == []
  {
    var normalized := NormalizedAll(items, now);
    var contradictions := ScanAll(items).contradictions;
    var blocking := exists i :: 0 <= i < |items| && normalized[i].state.value in BLOCKING_STATES;
    Report(if contradictions != [] || blocking then Block else Pass, normalized, contradictions)
  }

  lemma {:induction false} PrefixGrows(items: seq<Item>, i: nat, now: int)
    requires i < |items|
    ensures NormalizedAll(items[..i + 1], now) == NormalizedAll(items[..i], now) + [Normalized(items[i], now)]
    ensures ScanAll(items[..i + 1]) == ScanItem(ScanAll(items[..i]), items[i])
  {
    assert Front(items[..i + 1]) == items[..i];
  }

  /** `normalize_evidence`, the loop. */
  method NormalizeEvidence(evidence: seq<Item>, now: int)
    returns (normalized: seq<Item>, contradictions: seq<Contradiction>)
    ensures normalized == NormalizedAll(evidence, now)
    ensures contradictions == ScanAll(evidence).contradictions
  {
    normalized, contradictions := [], [];
    var seen: map<string, (Json, string)> := map[];
    for i := 0 to |evidence|
      invariant normalized == NormalizedAll(evidence[..i], now)
      invariant Scan(seen, contradictions) == ScanAll(evidence[..i])
    {
      var item := evidence[i];
      PrefixGrows(evidence, i, now);
      var row := item.(state := Some(DeclaredState(item)));
      var key := KeyOf(item);
      if key.Some? && item.value.Some? {
        var value := item.value.value;
        if key.value in seen && seen[key.value].0 != value {
          contradictions := contradictions + [
            Contradiction(key.value, seen[key.value].0, value, seen[key.value].1, row.state.value)
          ];
        } else {
          seen := seen[key.value := (value, row.state.value)];
        }
      }
      match item.expiry {
        case NoExpiry =>
        case ExpiresAt(time) =>
          if time <= now { row := row.(state := Some("STALE")); }
        case Malformed =>
          row := row.(state := Some("UNKNOWN"));
      }
      normalized := normalized + [row];
    }
    assert evidence[..|evidence|] == evidence;
  }

  method CheckEvidence(evidence: seq<Item>, now: int) returns (report: Report)
    ensures report == Gate(evidence, now)
  {
    hide ScanAll, EffectiveState;
    var normalized, contradictions := NormalizeEvidence(evidence, now);
    var blocking := [];
    for i := 0 to |normalized|
      invariant blocking != [] <==> exists k :: 0 <= k < i && normalized[k].state.value in BLOCKING_STATES
    {
      if normalized[i].state.value in BLOCKING_STATES {
        blocking := blocking + [normalized[i]];
      }
    }
    report := Report(if contradictions != [] || blocking != [] then Block else Pass, normalized, contradictions);
  }

  /** Row `i` states `value` for `key`. */
  predicate States(items: seq<Item>, i: nat, key: string, value: Json) {
    i < |items| && Keyed(items[i]) && KeyOf(items[i]) == Some(key) && items[i].value == Some(value)
  }

  /** Every value remembered during the scan comes from a row. */
  lemma {:induction false} SeenComesFromRow(items: seq<Item>, key: string)
    requires key in ScanAll(items).seen
    ensures exists i :: 0 <= i < |items| && States(items, i, key, ScanAll(items).seen[key].0)
  {
    var front, last := Front(items), |items| - 1;
    if key in ScanAll(front).seen && ScanAll(front).seen[key].0 == ScanAll(items).seen[key].0 {
      SeenComesFromRow(front, key);
      var i :| 0 <= i < last && States(front, i, key, ScanAll(front).seen[key].0);
      assert States(items, i, key, ScanAll(items).seen[key].0);
    } else {
      assert States(items, last, key, ScanAll(items).seen[key].0);
    }
  }

  /** While no contradiction was met, the remembered value is the value of every row of the key. */
  lemma {:induction false} QuietScanRemembersAll(items: seq<Item>, i: nat)
    requires i < |items| && Keyed(items[i])
    requires ScanAll(items).contradictions == []
    ensures KeyOf(items[i]).value in ScanAll(items).seen
    ensures Some(ScanAll(items).seen[KeyOf(items[i]).value].0) == items[i].value
    decreases |items|
  {
    if i < |items| - 1 {
      QuietScanRemembersAll(Front(items), i);
    }
  }

  ghost predicate HasConflict(items: seq<Item>) {
    exists i, j :: 0 <= i < |items| && 0 <= j < |items| && Conflict(items[i], items[j])
  }

  /** A contradiction is reported exactly when two rows conflict. */
  lemma {:induction false} ContradictionsMeanConflict(items: seq<Item>)
    ensures ScanAll(items).contradictions != [] <==> HasConflict(items)
  {
    if items != [] {
      var front, last := Front(items), |items| - 1;
      ContradictionsMeanConflict(front);
      if ScanAll(items).contradictions == [] {
        forall i, j | 0 <= i < |items| && 0 <= j < |items| ensures !Conflict(items[i], items[j]) {
          if Keyed(items[i]) && Keyed(items[j]) {
            QuietScanRemembersAll(items, i);
            QuietScanRemembersAll(items, j);
          }
        }
      } else if ScanAll(front).contradictions == [] {
        var key := KeyOf(items[last]).value;
        SeenComesFromRow(front, key);
        var i :| 0 <= i < |front| && States(front, i, key, ScanAll(front).seen[key].0);
        assert Conflict(items[i], items[last]);
      } else {
        var i, j :| 0 <= i < |front| && 0 <= j < |front| && Conflict(front[i], front[j]);
        assert Conflict(items[i], items[j]);
      }
    }
  }

  /** `k` is the row's key: the first of key, subject and name that is not empty, or an empty name. */
  predicate HasKey(item: Item, k: string) {
    if item.key.Some? && item.key.value != "" then item.key == Some(k)
    else if item.subject.Some? && item.subject.value != "" then item.subject == Some(k)
    else item.name == Some(k)
  }

  /** The row says something under the key. */
  predicate Says(item: Item, k: string) {
    HasKey(item, k) && item.value.Some?
  }

  /** The rows say different things under one key. */
  ghost predicate Clash(a: Item, b: Item) {
    exists k :: Says(a, k) && Says(b, k) && a.value != b.value
  }

  /** The row declares a state that can be relied on, and has not expired. */
  predicate Reliable(item: Item, now: int) {
    && item.state.Some?
    && Upper(item.state.value) in {"FACT", "VERIFIED_FACT", "OBSERVATION", "DERIVED", "PREDICTION", "CLAIM"}
    && (item.expiry == NoExpiry || (item.expiry.ExpiresAt? && now < item.expiry.time))
  }

  /** What evidence passes, in terms of its rows alone. */
  ghost predicate Acceptable(items: seq<Item>, now: int) {
    && (forall x :: x in items ==> Reliable(x, now))
    && (forall x, y :: x in items && y in items ==> !Clash(x, y))
  }

  /** The state that a row is given: unreadable expiry, then expiry, then what it declares. */
  function GivenState(item: Item, now: int): string {
    if item.expiry == Malformed then "UNKNOWN"
    else if item.expiry.ExpiresAt? && item.expiry.time <= now then "STALE"
    else if Reliable(item.(expiry := NoExpiry), now) then Upper(item.state.value)
    else if item.state.Some? && Upper(item.state.value) in {"STALE", "CONTRADICTED"} then Upper(item.state.value)
    else "UNKNOWN"
  }

  lemma {:induction false} EffectiveIsGiven(item: Item, now: int)
    ensures EffectiveState(item, now) == GivenState(item, now)
    ensures EffectiveState(item, now) !in BLOCKING_STATES <==> Reliable(item, now)
  {
    assert Upper("UNKNOWN") == "UNKNOWN";
  }

  lemma {:induction false} KeyIsKey(item: Item)
    ensures forall k :: KeyOf(item) == Some(k) <==> HasKey(item, k)
  {
  }

  lemma {:induction false} ConflictIsClash(a: Item, b: Item)
    ensures Conflict(a, b) <==> Clash(a, b)
  {
    KeyIsKey(a);
    KeyIsKey(b);
    hide KeyOf, HasKey;
    if Conflict(a, b) {
      assert Says(a, KeyOf(a).value) && Says(b, KeyOf(a).value);
    }
  }

  lemma {:induction false} ConflictByMembers(items: seq<Item>)
    ensures HasConflict(items) <==> exists x, y :: x in items && y in items && Conflict(x, y)
  {
    if i, j :| 0 <= i < |items| && 0 <= j < |items| && Conflict(items[i], items[j]) {
      assert items[i] in items && items[j] in items;
    }
  }

  /** Evidence passes exactly if every row is reliable and no two rows clash. */
  lemma {:induction false} PassMeansAcceptable(items: seq<Item>, now: int)
    ensures Gate(items, now).verdict == Pass <==> Acceptable(items, now)
  {
    ContradictionsMeanConflict(items);
    ConflictByMembers(items);
    forall x, y ensures Conflict(x, y) <==> Clash(x, y) { ConflictIsClash(x, y); }
    forall x ensures EffectiveState(x, now) !in BLOCKING_STATES <==> Reliable(x, now) { EffectiveIsGiven(x, now); }
    hide Conflict, Clash, EffectiveState, Reliable, ScanAll;
    var normalized := NormalizedAll(items, now);
    assert forall i :: 0 <= i < |items| ==> normalized[i].state.value == EffectiveState(items[i], now);
    if Gate(items, now).verdict == Pass {
      forall x | x in items ensures Reliable(x, now) {
        var i :| 0 <= i < |items| && items[i] == x;
        assert normalized[i].state.value !in BLOCKING_STATES;
      }
    } else if ScanAll(items).contradictions == [] {
      var i :| 0 <= i < |items| && normalized[i].state.value in BLOCKING_STATES;
      assert items[i] in items;
    }
  }

  /** Each row comes back as it was, with the state it is given. */
  lemma {:induction false} RowsAreGivenStates(items: seq<Item>, now: int, i: nat)
    requires i < |items|
    ensures |Gate(items, now).normalized| == |items|
    ensures Gate(items, now).normalized[i] == items[i].(state := Some(GivenState(items[i], now)))
  {
    EffectiveIsGiven(items[i], now);
    hide ScanAll, EffectiveState, GivenState;
  }

  /** Row `first` is the first that says something under `k`, and row `latest` the last that says the same. */
  ghost predicate Remembered(items: seq<Item>, k: string, first: nat, latest: nat) {
    && first <= latest < |items| && Says(items[first], k) && Says(items[latest], k)
    && items[latest].value == items[first].value
    && (forall i :: 0 <= i < first ==> !Says(items[i], k))
    && (forall i :: latest < i < |items| && Says(items[i], k) ==> items[i].value != items[first].value)
  }

  /** The state a row declares, whatever its expiry. */
  function Declares(item: Item): string {
    GivenState(item.(expiry := NoExpiry), 0)
  }

  lemma {:induction false} DeclaredIsGiven(item: Item)
    ensures DeclaredState(item) == Declares(item)
  {
    EffectiveIsGiven(item.(expiry := NoExpiry), 0);
  }

  /** A key under which no row says anything is not remembered. */
  lemma {:induction false} UnsaidIsUnseen(items: seq<Item>, k: string)
    requires forall i :: 0 <= i < |items| ==> !Says(items[i], k)
    ensures k !in ScanAll(items).seen
  {
    if items != [] {
      UnsaidIsUnseen(Front(items), k);
      KeyIsKey(Last(items));
      assert !Says(items[|items| - 1], k);
      hide KeyOf, HasKey, DeclaredState;
    }
  }

  /** Of the rows before `n`, one is the last that says what row `first` says. */
  lemma {:induction false} LatestBefore(items: seq<Item>, k: string, first: nat, n: nat) returns (latest: nat)
    requires first < n <= |items| && Says(items[first], k)
    ensures first <= latest < n && Says(items[latest], k) && items[latest].value == items[first].value
    ensures forall i :: latest < i < n && Says(items[i], k) ==> items[i].value != items[first].value
  {
    hide Says;
    if n - 1 == first || (Says(items[n - 1], k) && items[n - 1].value == items[first].value) {
      latest := n - 1;
    } else {
      latest := LatestBefore(items, k, first, n - 1);
    }
  }

  /** What the scan remembers of a key: the first value said under it, and the state of the last row
      that says the same. */
  lemma {:induction false} ScanRemembers(items: seq<Item>, k: string, first: nat, latest: nat)
    requires Remembered(items, k, first, latest)
    ensures k in ScanAll(items).seen
    ensures ScanAll(items).seen[k] == (items[first].value.value, Declares(items[latest]))
  {
    var front, n := Front(items), |items| - 1;
    var last := items[n];
    KeyIsKey(last);
    DeclaredIsGiven(last);
    if first == n {
      UnsaidIsUnseen(front, k);
    } else {
      var l := latest;
      if latest == n {
        l := LatestBefore(items, k, first, n);
      }
      assert Remembered(front, k, first, l);
      ScanRemembers(front, k, first, l);
    }
    hide KeyOf, HasKey, Declares, DeclaredState, Remembered, ScanAll;
    ScanGrows(items);
  }

  lemma {:induction false} ScanGrows(items: seq<Item>)
    requires items != []
    ensures ScanAll(items) == ScanItem(ScanAll(Front(items)), Last(items))
  {
  }

  /** What a row adds to the contradictions: one that names the first value said under its key, the
      state of the last row that agreed with that value, and the row's own value and state, if it says
      something else; otherwise none. */
  lemma {:induction false} ContradictionOfRow(items: seq<Item>, j: nat, k: string, first: nat, latest: nat)
    requires j < |items| && Says(items[j], k) && Remembered(items[..j], k, first, latest)
    ensures ScanAll(items[..j + 1]).contradictions == ScanAll(items[..j]).contradictions +
      if items[j].value == items[first].value then []
      else [Contradiction(k, items[first].value.value, items[j].value.value, Declares(items[latest]),
                          Declares(items[j]))]
  {
    PrefixGrows(items, j, 0);
    ScanRemembers(items[..j], k, first, latest);
    KeyIsKey(items[j]);
    DeclaredIsGiven(items[j]);
    hide KeyOf, HasKey, Declares, DeclaredState, ScanAll;
  }

  /** A row that says something under a new key, or nothing, adds none. */
  lemma {:induction false} NoContradictionOfRow(items: seq<Item>, j: nat)
    requires j < |items|
    requires forall k, i :: Says(items[j], k) && 0 <= i < j ==> !Says(items[i], k)
    ensures ScanAll(items[..j + 1]).contradictions == ScanAll(items[..j]).contradictions
  {
    PrefixGrows(items, j, 0);
    KeyIsKey(items[j]);
    if Keyed(items[j]) {
      assert Says(items[j], KeyOf(items[j]).value);
      UnsaidIsUnseen(items[..j], KeyOf(items[j]).value);
    }
  }

  /** The verdict and the presence of contradictions do not depend on the order of the rows. */
  lemma {:induction false} VerdictIgnoresOrder(a: seq<Item>, b: seq<Item>, now: int)
    requires multiset(a) == multiset(b)
    ensures Gate(a, now).verdict == Gate(b, now).verdict
    ensures (Gate(a, now).contradictions == []) == (Gate(b, now).contradictions == [])
  {
    assert forall x :: x in a <==> x in multiset(a);
    assert forall x :: x in b <==> x in multiset(b);
    PassMeansAcceptable(a, now);
    PassMeansAcceptable(b, now);
    ContradictionsMeanConflict(a);
    ContradictionsMeanConflict(b);
    ConflictByMembers(a);
    ConflictByMembers(b);
  }

  /** Neither more evidence nor the passing of time turns BLOCK into PASS. */
  lemma {:induction false} BlockIsPermanent(items: seq<Item>, more: seq<Item>, now: int, later: int)
    requires now <= later && forall x :: x in items ==> x in more
    requires Gate(items, now).verdict == Block
    ensures Gate(more, later).verdict == Block
  {
    PassMeansAcceptable(items, now);
    PassMeansAcceptable(more, later);
    hide Clash, Gate;
  }

  lemma {:induction false} NormalizingKeepsEffectiveState(item: Item, now: int, later: int)
    requires now <= later
    ensures EffectiveState(Normalized(item, now), later) == EffectiveState(item, later)
  {
    assert Upper("STALE") == "STALE";
    assert Upper("UNKNOWN") == "UNKNOWN";
    UpperIdempotent(if item.state.Some? then item.state.value else "UNKNOWN");
  }

  lemma {:induction false} NormalizingKeepsConflict(a: Item, b: Item, now: int)
    ensures Conflict(Normalized(a, now), Normalized(b, now)) == Conflict(a, b)
  {
    hide EffectiveState;
  }

  lemma {:induction false} NormalizingKeepsConflicts(items: seq<Item>, now: int)
    ensures (ScanAll(NormalizedAll(items, now)).contradictions == []) == (ScanAll(items).contradictions == [])
  {
    hide ScanAll, Conflict, Normalized, EffectiveState;
    ContradictionsMeanConflict(items);
    ContradictionsMeanConflict(NormalizedAll(items, now));
    forall i, j | 0 <= i < |items| && 0 <= j < |items|
      ensures Conflict(NormalizedAll(items, now)[i], NormalizedAll(items, now)[j]) == Conflict(items[i], items[j])
    {
      NormalizingKeepsConflict(items[i], items[j], now);
    }
  }

  lemma {:induction false} NormalizingTwiceKeepsRows(items: seq<Item>, now: int, later: int)
    requires now <= later
    ensures NormalizedAll(NormalizedAll(items, now), later) == NormalizedAll(items, later)
  {
    forall i | 0 <= i < |items|
      ensures Normalized(Normalized(items[i], now), later) == Normalized(items[i], later)
    {
      NormalizingKeepsEffectiveState(items[i], now, later);
    }
  }

  /** Evidence that was normalised earlier gets the verdict and the rows that the raw
      evidence would get: normalising twice changes nothing. */
  lemma {:induction false} NormalizingKeepsVerdict(items: seq<Item>, now: int, later: int)
    requires now <= later
    ensures Gate(NormalizedAll(items, now), later).verdict == Gate(items, later).verdict
    ensures Gate(NormalizedAll(items, now), later).normalized == Gate(items, later).normalized
    ensures (Gate(NormalizedAll(items, now), later).contradictions == []) == (Gate(items, later).contradictions == [])
  {
    NormalizingTwiceKeepsRows(items, now, later);
    NormalizingKeepsConflicts(items, now);
    var once := Gate(items, later);
    var twice := Gate(NormalizedAll(items, now), later);
    assert once.normalized == twice.normalized;
    assert (once.verdict == Block) == (once.contradictions != [] ||
      exists i :: 0 <= i < |items| && once.normalized[i].state.value in BLOCKING_STATES);
    assert (twice.verdict == Block) == (twice.contradictions != [] ||
      exists i :: 0 <= i < |items| && twice.normalized[i].state.value in BLOCKING_STATES);
  }
}
