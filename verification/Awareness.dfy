/** The awareness hierarchy of `awareness_layer.py` and `awareness_registry.py`: when a set of
    contracts is a forest under ROOT, and walking it downwards and upwards. */
module Awareness {
  import opened Prelude

  const ROOT: string := "ROOT"
  const HUMAN: string := "HUMAN_APPROVAL"

  datatype ActionMode = Observe | Propose | Execute | Escalate

  datatype Permission = Permission(action: string, mode: ActionMode)

  datatype Contract = Contract(componentId: string, parentId: string, permissions: seq<Permission>)

  function Ids(items: seq<Contract>): set<string> {
    set i | 0 <= i < |items| :: items[i].componentId
  }

  predicate DistinctIds(items: seq<Contract>) {
    forall i, j :: 0 <= i < j < |items| ==> items[i].componentId != items[j].componentId
  }

  lemma {:induction false} IdsOfConcat(a: seq<Contract>, b: seq<Contract>)
    ensures Ids(a + b) == Ids(a) + Ids(b)
  {
    forall id ensures id in Ids(a + b) <==> id in Ids(a) + Ids(b) {
      if id in Ids(a) {
        var i :| 0 <= i < |a| && a[i].componentId == id;
        assert (a + b)[i].componentId == id;
      } else if id in Ids(b) {
        var i :| 0 <= i < |b| && b[i].componentId == id;
        assert (a + b)[|a| + i].componentId == id;
      }
    }
  }

  lemma {:induction false} DistinctWithOneMore(items: seq<Contract>, c: Contract)
    ensures DistinctIds(items + [c]) <==> DistinctIds(items) && c.componentId !in Ids(items)
  {
    var more := items + [c];
    assert forall i :: 0 <= i < |items| ==> more[i] == items[i];
    assert more[|items|] == c;
    if DistinctIds(items) && c.componentId !in Ids(items) {
      forall i, j | 0 <= i < j < |more| ensures more[i].componentId != more[j].componentId {
        assert more[i].componentId in Ids(items);
      }
    }
    if c.componentId in Ids(items) {
      var i :| 0 <= i < |items| && items[i].componentId == c.componentId;
      assert more[i].componentId == more[|items|].componentId;
    }
  }

  /** `len(ids) != len(items)` detects exactly the repeated ids. */
  lemma {:induction false} SizeMeansDistinct(items: seq<Contract>)
    ensures |Ids(items)| <= |items|
    ensures |Ids(items)| == |items| <==> DistinctIds(items)
  {
    if items != [] {
      var front, last := items[..|items| - 1], items[|items| - 1];
      SizeMeansDistinct(front);
      DistinctWithOneMore(front, last);
      IdsOfConcat(front, [last]);
      assert items == front + [last];
      assert Ids([last]) == {[last][0].componentId};
    }
  }

  /** No component is its own parent, and every parent is ROOT or a component. */
  predicate ParentsKnown(items: seq<Contract>) {
    forall i :: 0 <= i < |items| ==>
      && items[i].componentId != items[i].parentId
      && (items[i].parentId == ROOT || items[i].parentId in Ids(items))
  }

  /** The dictionary from component to parent. */
  function Parents(items: seq<Contract>): map<string, string> {
    map i | 0 <= i < |items| && (forall j :: i < j < |items| ==> items[j].componentId != items[i].componentId)
      :: items[i].componentId := items[i].parentId
  }

  lemma {:induction false} ParentsOf(items: seq<Contract>)
    requires DistinctIds(items)
    ensures Parents(items).Keys == Ids(items)
    ensures forall i :: 0 <= i < |items| ==>
      items[i].componentId in Parents(items) && Parents(items)[items[i].componentId] == items[i].parentId
  {
    forall i | 0 <= i < |items|
      ensures items[i].componentId in Parents(items) && Parents(items)[items[i].componentId] == items[i].parentId
    {
      assert forall j :: i < j < |items| ==> items[j].componentId != items[i].componentId;
    }
  }

  lemma {:induction false} ContractOf(items: seq<Contract>, id: string) returns (c: Contract)
    requires id in Ids(items)
    ensures c in items && c.componentId == id
  {
    var i :| 0 <= i < |items| && items[i].componentId == id;
    c := items[i];
  }

  lemma {:induction false} ParentOf(items: seq<Contract>, c: Contract)
    requires DistinctIds(items) && c in items
    ensures Parents(items).Keys == Ids(items)
    ensures c.componentId in Parents(items) && Parents(items)[c.componentId] == c.parentId
  {
    ParentsOf(items);
    hide Parents, Ids;
    var i :| 0 <= i < |items| && items[i] == c;
    assert items[i].componentId in Parents(items);
  }

  // ---- validity ----

  /** Every step up from a component other than one called ROOT goes to ROOT or strictly closer to it. */
  ghost predicate RanksTo(parents: map<string, string>, rank: map<string, nat>) {
    forall id :: id in parents && id != ROOT ==>
      && id in rank
      && (parents[id] == ROOT || (parents[id] in parents && parents[id] in rank && rank[parents[id]] < rank[id]))
  }

  /** What the hierarchy check means: distinct ids, known parents and a depth ranking to ROOT. */
  ghost predicate WellFounded(items: seq<Contract>) {
    && DistinctIds(items)
    && ParentsKnown(items)
    && HasRanking(Parents(items))
  }

  /** Where `steps` steps up from `id` lead, if they do not pass ROOT. */
  function Walk(parents: map<string, string>, id: string, steps: nat): Option<string> {
    if steps == 0 then Some(id)
    else
      var below := Walk(parents, id, steps - 1);
      if below.Some? && below.value != ROOT && below.value in parents then Some(parents[below.value]) else None
  }

  lemma {:induction false} WalkFromParent(parents: map<string, string>, id: string, steps: nat)
    requires id in parents && id != ROOT
    ensures Walk(parents, id, steps + 1) == Walk(parents, parents[id], steps)
  {
    if steps == 0 {
      assert Walk(parents, id, 0) == Some(id);
    } else {
      WalkFromParent(parents, id, steps - 1);
    }
  }

  /** With a ranking, every further step of a walk that stays below ROOT has a smaller rank. */
  lemma {:induction false} WalkDescends(parents: map<string, string>, rank: map<string, nat>, id: string, i: nat,
                                        j: nat)
    requires RanksTo(parents, rank) && i < j
    requires Walk(parents, id, i).Some? && Walk(parents, id, j).Some?
    requires Walk(parents, id, j).value != ROOT && Walk(parents, id, j).value in parents
    ensures Walk(parents, id, i).value in rank && Walk(parents, id, j).value in rank
    ensures rank[Walk(parents, id, j).value] < rank[Walk(parents, id, i).value]
    decreases j
  {
    if i < j - 1 {
      WalkDescends(parents, rank, id, i, j - 1);
    }
  }

  /** Parents of components are components or ROOT. */
  predicate Closed(parents: map<string, string>) {
    forall id :: id in parents ==> parents[id] == ROOT || parents[id] in parents
  }

  ghost predicate Grounded(parents: map<string, string>, id: string) {
    exists n: nat :: ReachesRoot(parents, id, n)
  }

  ghost predicate HasRanking(parents: map<string, string>) {
    exists rank :: RanksTo(parents, rank)
  }

  ghost predicate ReachesRoot(parents: map<string, string>, id: string, steps: nat) {
    Walk(parents, id, steps) == Some(ROOT)
  }

  /** If every component walks to ROOT, the number of steps is a ranking. */
  lemma {:induction false} ReachingGivesRanking(parents: map<string, string>)
    requires Closed(parents) && forall id :: id in parents ==> Grounded(parents, id)
    ensures HasRanking(parents)
  {
    hide Walk;
    var rank := map id | id in parents :: Depth(parents, id);
    forall id | id in parents && id != ROOT
      ensures parents[id] == ROOT || rank[parents[id]] < rank[id]
    {
      if parents[id] != ROOT {
        DepthOfParent(parents, id);
      }
    }
    assert RanksTo(parents, rank);
  }

  lemma {:induction false} DepthOfParent(parents: map<string, string>, id: string)
    requires id in parents && id != ROOT && Grounded(parents, id) && Grounded(parents, parents[id])
    ensures Depth(parents, id) == Depth(parents, parents[id]) + 1
  {
    var n := Depth(parents, id);
    assert Walk(parents, id, 0) == Some(id);
    WalkFromParent(parents, id, n - 1);
    DepthIsUnique(parents, parents[id], Depth(parents, parents[id]), n - 1);
  }

  ghost function Depth(parents: map<string, string>, id: string): (n: nat)
    requires Grounded(parents, id)
    ensures ReachesRoot(parents, id, n)
  {
    var n: nat :| ReachesRoot(parents, id, n); n
  }

  lemma {:induction false} NoWalkPastRoot(parents: map<string, string>, id: string, n: nat, m: nat)
    requires ReachesRoot(parents, id, n) && n < m
    ensures Walk(parents, id, m) == None
    decreases m
  {
    if n < m - 1 {
      NoWalkPastRoot(parents, id, n, m - 1);
    }
  }

  lemma {:induction false} DepthIsUnique(parents: map<string, string>, id: string, n: nat, m: nat)
    requires ReachesRoot(parents, id, n) && ReachesRoot(parents, id, m)
    ensures n == m
  {
    if n < m {
      NoWalkPastRoot(parents, id, n, m);
    } else if m < n {
      NoWalkPastRoot(parents, id, m, n);
    }
  }

  /** A walk that meets a component twice rules out any ranking. */
  lemma {:induction false} CycleRefutesRanking(parents: map<string, string>, id: string, i: nat, j: nat)
    requires i < j && Walk(parents, id, i) == Walk(parents, id, j) && Walk(parents, id, j).Some?
    requires Walk(parents, id, j).value != ROOT && Walk(parents, id, j).value in parents
    ensures !HasRanking(parents)
  {
    forall rank ensures !RanksTo(parents, rank) {
      if RanksTo(parents, rank) {
        WalkDescends(parents, rank, id, i, j);
      }
    }
  }

  /** The inner loop of `hierarchy_valid`: follow parents from `start` until ROOT. */
  method ClimbsToRoot(parents: map<string, string>, start: string) returns (ok: bool)
    requires start in parents && Closed(parents)
    ensures ok ==> Grounded(parents, start)
    ensures !ok ==> !HasRanking(parents)
  {
    var seen: set<string> := {};
    var current := start;
    ghost var steps: nat := 0;
    while current != ROOT
      invariant Walk(parents, start, steps) == Some(current) && (current == ROOT || current in parents)
      invariant seen <= parents.Keys
      invariant forall s :: s in seen ==> exists k: nat :: k < steps && Walk(parents, start, k) == Some(s)
      decreases parents.Keys - seen
    {
      if current in seen {
        ghost var k: nat :| k < steps && Walk(parents, start, k) == Some(current);
        CycleRefutesRanking(parents, start, k, steps);
        return false;
      }
      seen := seen + {current};
      current := parents[current];
      steps := steps + 1;
    }
    ok := true;
    assert ReachesRoot(parents, start, steps);
  }

  /** The outer loop of `hierarchy_valid`, over the components in any order. */
  method AllClimbToRoot(parents: map<string, string>) returns (ok: bool)
    requires Closed(parents)
    ensures ok <==> HasRanking(parents)
  {
    hide ReachesRoot, RanksTo, HasRanking, Grounded;
    var ids := parents.Keys;
    while ids != {}
      invariant ids <= parents.Keys
      invariant forall id :: id in parents.Keys - ids ==> Grounded(parents, id)
      decreases |ids|
    {
      var start :| start in ids;
      var climbs := ClimbsToRoot(parents, start);
      if !climbs {
        return false;
      }
      ids := ids - {start};
    }
    ReachingGivesRanking(parents);
    ok := true;
  }

  /** `hierarchy_valid`: true exactly for a forest under ROOT. */
  method HierarchyValid(items: seq<Contract>) returns (ok: bool)
    ensures ok <==> WellFounded(items)
  {
    hide HasRanking;
    SizeMeansDistinct(items);
    if |Ids(items)| != |items| {
      return false;
    }
    if !ParentsKnown(items) {
      return false;
    }
    ParentsOf(items);
    ok := AllClimbToRoot(Parents(items));
  }

  // ---- the registry ----

  /** `{c.component_id: c for c in contracts}`: a repeated id keeps its place and takes the
      later contract. */
  function Put(items: seq<Contract>, c: Contract): seq<Contract> {
    if items == [] then [c]
    else if items[0].componentId == c.componentId then [c] + items[1..]
    else [items[0]] + Put(items[1..], c)
  }

  function PutAll(contracts: seq<Contract>): seq<Contract> {
    if contracts == [] then []
    else Put(PutAll(contracts[..|contracts| - 1]), contracts[|contracts| - 1])
  }

  /** `c` is the last contract given for its id. */
  ghost predicate IsLatest(contracts: seq<Contract>, c: Contract) {
    exists k :: 0 <= k < |contracts| && contracts[k] == c
      && forall j :: k < j < |contracts| ==> contracts[j].componentId != c.componentId
  }

  /** A known id keeps its place and gets the contract; a new one comes last. */
  lemma {:induction false} PutPlaces(items: seq<Contract>, c: Contract) returns (i: nat)
    ensures i <= |items| && forall j :: 0 <= j < i ==> items[j].componentId != c.componentId
    ensures i < |items| ==> items[i].componentId == c.componentId && Put(items, c) == items[i := c]
    ensures i == |items| ==> Put(items, c) == items + [c]
  {
    if items == [] || items[0].componentId == c.componentId {
      i := 0;
    } else {
      var rest := items[1..];
      var k := PutPlaces(rest, c);
      assert items == [items[0]] + rest;
      assert forall j :: 0 < j < |items| ==> items[j] == rest[j - 1];
      i := k + 1;
    }
  }

  lemma {:induction false} PutReplaces(items: seq<Contract>, c: Contract)
    requires DistinctIds(items)
    ensures DistinctIds(Put(items, c))
    ensures forall x :: x in Put(items, c) <==> x == c || (x in items && x.componentId != c.componentId)
    ensures ComponentIds(items) <= ComponentIds(Put(items, c))
  {
    var i := PutPlaces(items, c);
    var put := Put(items, c);
    hide Put;
    assert i < |put| && put[i] == c;
    forall x ensures x in put <==> x == c || (x in items && x.componentId != c.componentId) {
      if x in items && x.componentId != c.componentId {
        var j :| 0 <= j < |items| && items[j] == x;
        assert put[j] == x;
      }
    }
  }

  /** The registry holds, once for each id, the last contract given for it; an id keeps the place at
      which it was first given. */
  lemma {:induction false} LatestAreKept(contracts: seq<Contract>)
    ensures DistinctIds(PutAll(contracts))
    ensures forall c :: c in PutAll(contracts) <==> IsLatest(contracts, c)
    ensures forall n :: 0 <= n <= |contracts| ==>
      ComponentIds(PutAll(contracts[..n])) <= ComponentIds(PutAll(contracts))
  {
    if contracts == [] {
      assert forall n :: 0 <= n <= |contracts| ==> contracts[..n] == [];
    } else {
      var front, last := contracts[..|contracts| - 1], contracts[|contracts| - 1];
      LatestAreKept(front);
      PutReplaces(PutAll(front), last);
      hide Put, ComponentIds, DistinctIds, Ids;
      assert contracts == front + [last];
      forall c
        ensures IsLatest(contracts, c) <==> c == last || (IsLatest(front, c) && c.componentId != last.componentId)
      {
        LatestGrows(front, last, c);
      }
      forall n | 0 <= n <= |contracts|
        ensures ComponentIds(PutAll(contracts[..n])) <= ComponentIds(PutAll(contracts))
      {
        if n < |contracts| {
          assert contracts[..n] == front[..n];
        } else {
          assert contracts[..n] == contracts;
        }
      }
    }
  }

  lemma {:induction false} LatestGrows(front: seq<Contract>, last: Contract, c: Contract)
    ensures IsLatest(front + [last], c) <==> c == last || (IsLatest(front, c) && c.componentId != last.componentId)
  {
    var all, n := front + [last], |front|;
    if IsLatest(all, c) && c != last {
      var k :| 0 <= k < |all| && all[k] == c && forall j :: k < j < |all| ==> all[j].componentId != c.componentId;
      assert k < n && all[n] == last;
      assert forall j :: k < j < n ==> front[j] == all[j];
    }
    if IsLatest(front, c) && c.componentId != last.componentId {
      var k :| 0 <= k < n && front[k] == c && forall j :: k < j < n ==> front[j].componentId != c.componentId;
      assert all[k] == c;
    }
    assert all[n] == last;
  }

  function Children(items: seq<Contract>, parent: string): seq<Contract> {
    if items == [] then []
    else (if items[0].parentId == parent then [items[0]] else []) + Children(items[1..], parent)
  }

  function ComponentIds(items: seq<Contract>): (ids: seq<string>)
    ensures |ids| == |items|
  {
    seq(|items|, i requires 0 <= i < |items| => items[i].componentId)
  }

  /** A chain of contracts downwards from `start`. */
  ghost predicate IsPath(items: seq<Contract>, start: string, path: seq<Contract>) {
    && path != []
    && path[0].parentId == start
    && (forall k :: 0 <= k < |path| ==> path[k] in items)
    && (forall k :: 0 < k < |path| ==> path[k].parentId == path[k - 1].componentId)
  }

  ghost predicate IsDescendant(items: seq<Contract>, start: string, c: Contract) {
    exists path :: IsPath(items, start, path) && path[|path| - 1] == c
  }

  lemma {:induction false} ChildrenHold(items: seq<Contract>, parent: string)
    ensures forall c :: c in Children(items, parent) <==> c in items && c.parentId == parent
    ensures DistinctIds(items) ==> DistinctIds(Children(items, parent))
    ensures forall i :: 0 <= i < |Children(items, parent)| ==> Children(items, parent)[i] in items
  {
    if items != [] {
      var rest := Children(items[1..], parent);
      ChildrenHold(items[1..], parent);
      assert items == [items[0]] + items[1..];
      if DistinctIds(items) && items[0].parentId == parent {
        forall j | 0 <= j < |rest| ensures rest[j].componentId != items[0].componentId {
          assert rest[j] in items[1..];
          var m :| 0 <= m < |items[1..]| && items[1..][m] == rest[j];
          assert items[m + 1] == rest[j];
        }
      }
    }
  }

  lemma {:induction false} DescendantStep(items: seq<Contract>, start: string, parent: Contract, c: Contract)
    requires IsDescendant(items, start, parent) && c in items && c.parentId == parent.componentId
    ensures IsDescendant(items, start, c)
  {
    var path :| IsPath(items, start, path) && path[|path| - 1] == parent;
    assert IsPath(items, start, path + [c]);
  }

  lemma {:induction false} ChildIsDescendant(items: seq<Contract>, start: string, c: Contract)
    requires c in items && c.parentId == start
    ensures IsDescendant(items, start, c)
  {
    assert IsPath(items, start, [c]);
  }

  /** No descendant is itself called ROOT. */
  ghost predicate RootFree(items: seq<Contract>, start: string) {
    forall c :: IsDescendant(items, start, c) ==> c.componentId != ROOT
  }

  /** Ranks grow along every path down that meets no component called ROOT. */
  lemma {:induction false} PathDescends(items: seq<Contract>, rank: map<string, nat>, start: string,
                                        path: seq<Contract>, k: nat)
    requires DistinctIds(items) && RanksTo(Parents(items), rank)
    requires IsPath(items, start, path) && k < |path|
    requires forall i :: 0 <= i < |path| ==> path[i].componentId != ROOT
    ensures path[k].componentId in rank && path[k].componentId in Ids(items)
    ensures start in Ids(items) && start != ROOT ==> start in rank && rank[start] < rank[path[k].componentId]
  {
    ParentOf(items, path[k]);
    hide Parents, Ids, DistinctIds;
    assert k > 0 ==> path[k].parentId == path[k - 1].componentId;
    if k > 0 {
      PathDescends(items, rank, start, path, k - 1);
    }
  }

  lemma {:induction false} PathMeetsDescendants(items: seq<Contract>, start: string, path: seq<Contract>, k: nat)
    requires IsPath(items, start, path) && k < |path|
    ensures IsDescendant(items, start, path[k])
  {
    assert IsPath(items, start, path[..k + 1]);
  }

  /** No component is its own proper descendant. */
  lemma {:induction false} NotOwnDescendant(items: seq<Contract>, start: string, c: Contract)
    requires WellFounded(items) && RootFree(items, start) && IsDescendant(items, start, c)
    ensures c.componentId != start
  {
    var rank :| RanksTo(Parents(items), rank);
    var path: seq<Contract> :| IsPath(items, start, path) && path[|path| - 1] == c;
    NoRootOnPath(items, start, path);
    hide Parents, Ids, RanksTo, IsPath, DistinctIds, ParentsKnown, IsDescendant, RootFree;
    PathDescends(items, rank, start, path, |path| - 1);
  }

  lemma {:induction false} NoRootOnPath(items: seq<Contract>, start: string, path: seq<Contract>)
    requires RootFree(items, start) && IsPath(items, start, path)
    ensures forall i :: 0 <= i < |path| ==> path[i].componentId != ROOT
  {
    hide IsPath, IsDescendant;
    forall i | 0 <= i < |path| ensures path[i].componentId != ROOT {
      PathMeetsDescendants(items, start, path, i);
    }
  }

  /** Found so far: exactly the children of what was popped. */
  ghost predicate FoundChildren(items: seq<Contract>, result: seq<Contract>, popped: set<string>) {
    forall c :: c in result <==> c in items && c.parentId in popped
  }

  ghost predicate AllDescend(items: seq<Contract>, start: string, result: seq<Contract>) {
    forall i :: 0 <= i < |result| ==> IsDescendant(items, start, result[i])
  }

  /** What waits on the stack waits once and was never popped. */
  predicate Waiting(stack: seq<string>, popped: set<string>) {
    && (forall i, j :: 0 <= i < j < |stack| ==> stack[i] != stack[j])
    && (forall i :: 0 <= i < |stack| ==> stack[i] !in popped)
  }

  /** What was popped or waits is the start or was found. */
  ghost predicate Known(start: string, result: seq<Contract>, stack: seq<string>, popped: set<string>) {
    forall id :: id in stack || id in popped <==> id == start || id in Ids(result)
  }

  /** State of the walk in `descendants`. */
  ghost predicate Exploring(items: seq<Contract>, start: string, result: seq<Contract>, stack: seq<string>,
                            popped: set<string>) {
    && FoundChildren(items, result, popped)
    && DistinctIds(result)
    && AllDescend(items, start, result)
    && Waiting(stack, popped)
    && Known(start, result, stack, popped)
  }

  lemma {:induction false} IdInIds(items: seq<Contract>, c: Contract)
    requires c in items
    ensures c.componentId in Ids(items)
  {
    var i :| 0 <= i < |items| && items[i] == c;
  }

  lemma {:induction false} SameIdSameContract(items: seq<Contract>, a: Contract, b: Contract)
    requires DistinctIds(items) && a in items && b in items && a.componentId == b.componentId
    ensures a == b
  {
    var i :| 0 <= i < |items| && items[i] == a;
    var j :| 0 <= j < |items| && items[j] == b;
    assert i == j;
  }

  /** The children of a component that is popped for the first time are all new. */
  lemma {:induction false} NewKids(items: seq<Contract>, start: string, result: seq<Contract>, stack: seq<string>,
                                   popped: set<string>)
    requires WellFounded(items) && RootFree(items, start) && stack != []
    requires Exploring(items, start, result, stack, popped)
    ensures var current := stack[|stack| - 1]; var kids := Children(items, current);
      && DistinctIds(kids)
      && forall i :: 0 <= i < |kids| ==>
           && IsDescendant(items, start, kids[i])
           && kids[i].componentId !in Ids(result) && kids[i].componentId != start
  {
    var current := stack[|stack| - 1];
    var kids := Children(items, current);
    ChildrenHold(items, current);
    forall i | 0 <= i < |kids|
      ensures IsDescendant(items, start, kids[i])
      ensures kids[i].componentId !in Ids(result) && kids[i].componentId != start
    {
      var kid := kids[i];
      assert kid in kids && current in stack;
      if current == start {
        ChildIsDescendant(items, start, kid);
      } else {
        var p :| 0 <= p < |result| && result[p].componentId == current;
        DescendantStep(items, start, result[p], kid);
      }
      NotOwnDescendant(items, start, kid);
      NotFoundYet(items, result, popped, kid);
    }
  }

  lemma {:induction false} NotFoundYet(items: seq<Contract>, result: seq<Contract>, popped: set<string>, kid: Contract)
    requires DistinctIds(items) && FoundChildren(items, result, popped)
    requires kid in items && kid.parentId !in popped
    ensures kid.componentId !in Ids(result)
  {
    hide DistinctIds, Ids;
    if kid.componentId in Ids(result) {
      var c := ContractOf(result, kid.componentId);
      SameIdSameContract(items, kid, c);
    }
  }

  predicate Apart(a: seq<Contract>, b: seq<Contract>) {
    forall i, j :: 0 <= i < |a| && 0 <= j < |b| ==> a[i].componentId != b[j].componentId
  }

  lemma {:induction false} DistinctConcat(a: seq<Contract>, b: seq<Contract>)
    requires DistinctIds(a) && DistinctIds(b) && Apart(a, b)
    ensures DistinctIds(a + b)
  {
  }

  lemma {:induction false} FoundMore(items: seq<Contract>, result: seq<Contract>, popped: set<string>, current: string)
    requires FoundChildren(items, result, popped)
    ensures FoundChildren(items, result + Children(items, current), popped + {current})
  {
    ChildrenHold(items, current);
  }

  lemma {:induction false} IdsListed(kids: seq<Contract>)
    ensures forall id :: id in ComponentIds(kids) <==> id in Ids(kids)
  {
    forall id ensures id in ComponentIds(kids) <==> id in Ids(kids) {
      if id in Ids(kids) {
        var i :| 0 <= i < |kids| && kids[i].componentId == id;
        assert ComponentIds(kids)[i] == id;
      }
    }
  }

  lemma {:induction false} KnownStep(start: string, result: seq<Contract>, kids: seq<Contract>, stack: seq<string>,
                                     popped: set<string>)
    requires stack != [] && Known(start, result, stack, popped)
    ensures Known(start, result + kids, stack[..|stack| - 1] + ComponentIds(kids), popped + {stack[|stack| - 1]})
  {
    var n := |stack| - 1;
    IdsOfConcat(result, kids);
    IdsListed(kids);
    hide Ids, ComponentIds;
    var next := stack[..n] + ComponentIds(kids);
    assert stack == stack[..n] + [stack[n]];
    forall id ensures id in next || id in popped + {stack[n]} <==> id == start || id in Ids(result + kids) {
      assert id in stack <==> id in stack[..n] || id == stack[n];
      assert id in stack || id in popped <==> id == start || id in Ids(result);
    }
  }

  /** The new ids are none of those that ever waited. */
  lemma {:induction false} WaitingStep(start: string, result: seq<Contract>, kids: seq<Contract>,
                                       stack: seq<string>, popped: set<string>)
    requires stack != [] && Known(start, result, stack, popped) && Waiting(stack, popped) && DistinctIds(kids)
    requires forall i :: 0 <= i < |kids| ==> kids[i].componentId !in Ids(result) && kids[i].componentId != start
    ensures Waiting(stack[..|stack| - 1] + ComponentIds(kids), popped + {stack[|stack| - 1]})
  {
    hide Ids;
    var n := |stack| - 1;
    var next := stack[..n] + ComponentIds(kids);
    forall i | 0 <= i < |kids| ensures kids[i].componentId !in stack && kids[i].componentId !in popped {
      var id := kids[i].componentId;
      assert id in stack || id in popped <==> id == start || id in Ids(result);
    }
    forall i, j | 0 <= i < j < |next| ensures next[i] != next[j] {
      assert i < n ==> next[i] == stack[i] && next[i] in stack;
      assert j < n ==> next[j] == stack[j];
      assert i >= n ==> next[i] == kids[i - n].componentId;
      assert j >= n ==> next[j] == kids[j - n].componentId;
    }
    forall i | 0 <= i < |next| ensures next[i] !in popped + {stack[n]} {
      assert i < n ==> next[i] == stack[i];
      assert i >= n ==> next[i] == kids[i - n].componentId;
      assert stack[n] in stack;
    }
  }

  lemma {:induction false} ExploringStep(items: seq<Contract>, start: string, result: seq<Contract>,
                                         stack: seq<string>, popped: set<string>)
    requires WellFounded(items) && RootFree(items, start) && stack != []
    requires Exploring(items, start, result, stack, popped)
    ensures var current := stack[|stack| - 1]; var kids := Children(items, current);
      Exploring(items, start, result + kids, stack[..|stack| - 1] + ComponentIds(kids), popped + {current})
  {
    hide WellFounded, Waiting, Known, FoundChildren, Children, IsDescendant, ComponentIds;
    var current := stack[|stack| - 1];
    var kids := Children(items, current);
    NewKids(items, start, result, stack, popped);
    FoundMore(items, result, popped, current);
    WaitingStep(start, result, kids, stack, popped);
    KnownStep(start, result, kids, stack, popped);
    assert Apart(result, kids) by {
      forall i | 0 <= i < |result| ensures result[i].componentId in Ids(result) {
        IdInIds(result, result[i]);
      }
    }
    hide Ids;
    DistinctConcat(result, kids);
  }

  lemma {:induction false} FoundAtMostAll(items: seq<Contract>, result: seq<Contract>)
    requires DistinctIds(result) && forall c :: c in result ==> c in items
    ensures |result| <= |items|
  {
    SizeMeansDistinct(result);
    SizeMeansDistinct(items);
    forall id | id in Ids(result) ensures id in Ids(items) {
      var i :| 0 <= i < |result| && result[i].componentId == id;
      assert result[i] in result;
      IdInIds(items, result[i]);
    }
    SubsetSize(Ids(result), Ids(items));
  }

  lemma {:induction false} SubsetSize(a: set<string>, b: set<string>)
    requires a <= b
    ensures |a| <= |b|
  {
    assert b == a + (b - a);
  }

  lemma {:induction false} AtMostAll(items: seq<Contract>, start: string, result: seq<Contract>,
                                     stack: seq<string>, popped: set<string>)
    requires Exploring(items, start, result, stack, popped)
    ensures |result| <= |items|
  {
    hide DistinctIds, AllDescend, Waiting, Known;
    FoundAtMostAll(items, result);
  }

  /** When nothing waits any more, every descendant has been found. */
  lemma {:induction false} FoundAll(items: seq<Contract>, start: string, result: seq<Contract>,
                                    popped: set<string>, path: seq<Contract>, k: nat)
    requires Exploring(items, start, result, [], popped)
    requires IsPath(items, start, path) && k < |path|
    ensures path[k] in result
  {
    hide Ids, Waiting, AllDescend;
    if k > 0 {
      FoundAll(items, start, result, popped, path, k - 1);
      IdInIds(result, path[k - 1]);
      assert path[k].parentId in popped;
    } else {
      assert path[0].parentId == start && start in popped;
    }
    assert path[k] in items;
  }

  lemma {:induction false} FoundExactly(items: seq<Contract>, start: string, result: seq<Contract>, popped: set<string>)
    requires Exploring(items, start, result, [], popped)
    ensures forall c :: c in result <==> IsDescendant(items, start, c)
    ensures DistinctIds(result)
  {
    hide FoundChildren, DistinctIds, Waiting, Known;
    forall c ensures c in result <==> IsDescendant(items, start, c) {
      if c in result {
        var i :| 0 <= i < |result| && result[i] == c;
      }
      if path :| IsPath(items, start, path) && path[|path| - 1] == c {
        FoundAll(items, start, result, popped, path, |path| - 1);
      }
    }
  }

  // ---- the walk when a component is called ROOT ----

  /** One iteration of the loop in `descendants`, on any contracts. */
  function WalkStep(items: seq<Contract>, state: (seq<Contract>, seq<string>)): (seq<Contract>, seq<string>) {
    if state.1 == [] then state
    else
      var kids := Children(items, state.1[|state.1| - 1]);
      (state.0 + kids, state.1[..|state.1| - 1] + ComponentIds(kids))
  }

  function WalkSteps(items: seq<Contract>, start: string, n: nat): (seq<Contract>, seq<string>) {
    if n == 0 then ([], [start]) else WalkStep(items, WalkSteps(items, start, n - 1))
  }

  /** A walk of at least one step starts at a component. */
  lemma {:induction false} WalkFromUnknown(parents: map<string, string>, id: string, n: nat)
    requires n > 0 && Walk(parents, id, n).Some?
    ensures id in parents
  {
    assert Walk(parents, id, 0) == Some(id);
    if n > 1 {
      WalkFromUnknown(parents, id, n - 1);
    }
  }

  lemma {:induction false} WalkUp(parents: map<string, string>, id: string, n: nat)
    requires id in parents && id != ROOT && ReachesRoot(parents, id, n)
    ensures n > 0
    ensures parents[id] != ROOT ==> parents[id] in parents && ReachesRoot(parents, parents[id], n - 1)
  {
    assert Walk(parents, id, 0) == Some(id);
    WalkFromParent(parents, id, n - 1);
    if parents[id] != ROOT {
      assert Walk(parents, parents[id], 0) == Some(parents[id]);
      WalkFromUnknown(parents, parents[id], n - 1);
    }
  }

  /** One step up: the contract of a component, and its parent one step nearer to ROOT. */
  lemma {:induction false} StepUp(items: seq<Contract>, id: string, n: nat) returns (c: Contract)
    requires DistinctIds(items) && id in Ids(items) && id != ROOT
    requires ReachesRoot(Parents(items), id, n)
    ensures c in items && c.componentId == id && n > 0
    ensures c.parentId != ROOT ==> c.parentId in Ids(items) && ReachesRoot(Parents(items), c.parentId, n - 1)
  {
    c := ContractOf(items, id);
    ParentOf(items, c);
    hide Ids, DistinctIds, Parents, ReachesRoot;
    WalkUp(Parents(items), id, n);
  }

  /** From every grounded component there is a path up to a child of ROOT, read downwards. */
  lemma {:induction false} PathFromRoot(items: seq<Contract>, id: string, n: nat) returns (path: seq<Contract>)
    requires DistinctIds(items) && id in Ids(items) && id != ROOT
    requires ReachesRoot(Parents(items), id, n)
    ensures IsPath(items, ROOT, path) && path[|path| - 1].componentId == id
    decreases n
  {
    hide DistinctIds, Ids, ReachesRoot, Parents;
    var c := StepUp(items, id, n);
    if c.parentId == ROOT {
      path := [c];
    } else {
      var above := PathFromRoot(items, c.parentId, n - 1);
      PathGrows(items, ROOT, above, c);
      path := above + [c];
    }
  }

  lemma {:induction false} PathGrows(items: seq<Contract>, start: string, path: seq<Contract>, c: Contract)
    requires IsPath(items, start, path) && c in items && c.parentId == path[|path| - 1].componentId
    ensures IsPath(items, start, path + [c])
  {
    var more := path + [c];
    forall k | 0 <= k < |more| ensures more[k] in items && (k > 0 ==> more[k].parentId == more[k - 1].componentId) {
      assert k < |path| ==> more[k] == path[k];
      assert 0 < k <= |path| ==> more[k - 1] == path[k - 1];
    }
  }

  /** Every id of the set has a child in the set. */
  ghost predicate OnCycle(items: seq<Contract>, cycle: set<string>) {
    forall id {:trigger HasChildIn(items, id, cycle)} :: id in cycle ==> HasChildIn(items, id, cycle)
  }

  predicate HasChildIn(items: seq<Contract>, id: string, cycle: set<string>) {
    exists c :: c in items && c.parentId == id && c.componentId in cycle
  }

  predicate Meets(stack: seq<string>, cycle: set<string>) {
    exists i :: 0 <= i < |stack| && stack[i] in cycle
  }

  lemma {:induction false} NextOnCycle(items: seq<Contract>, cycle: set<string>, id: string) returns (c: Contract)
    requires OnCycle(items, cycle) && id in cycle
    ensures c in items && c.parentId == id && c.componentId in cycle
  {
    assert HasChildIn(items, id, cycle);
    c :| c in items && c.parentId == id && c.componentId in cycle;
  }

  lemma {:induction false} StepMeetsCycle(items: seq<Contract>, cycle: set<string>, state: (seq<Contract>, seq<string>))
    requires OnCycle(items, cycle) && Meets(state.1, cycle)
    ensures Meets(WalkStep(items, state).1, cycle)
  {
    hide OnCycle, Children;
    var stack := state.1;
    var n := |stack| - 1;
    var kids := Children(items, stack[n]);
    var next := stack[..n] + ComponentIds(kids);
    var i :| 0 <= i < |stack| && stack[i] in cycle;
    if i < n {
      assert next[i] == stack[i];
    } else {
      var c := NextOnCycle(items, cycle, stack[n]);
      ChildrenHold(items, stack[n]);
      assert c in kids;
      var k :| 0 <= k < |kids| && kids[k] == c;
      assert next[n + k] == c.componentId;
    }
  }

  lemma {:induction false} CycleKeepsStack(items: seq<Contract>, cycle: set<string>, start: string, n: nat)
    requires OnCycle(items, cycle) && start in cycle
    ensures Meets(WalkSteps(items, start, n).1, cycle)
  {
    hide OnCycle, WalkStep;
    if n > 0 {
      CycleKeepsStack(items, cycle, start, n - 1);
      StepMeetsCycle(items, cycle, WalkSteps(items, start, n - 1));
    } else {
      assert [start][0] in cycle;
    }
  }

  /** The components of a closed path. */
  lemma {:induction false} PathIsCycle(items: seq<Contract>, path: seq<Contract>) returns (cycle: set<string>)
    requires path != [] && IsPath(items, path[|path| - 1].componentId, path)
    ensures OnCycle(items, cycle) && path[|path| - 1].componentId in cycle
  {
    cycle := set k | 0 <= k < |path| :: path[k].componentId;
    forall id | id in cycle ensures HasChildIn(items, id, cycle) {
      var k :| 0 <= k < |path| && path[k].componentId == id;
      var next := if k == |path| - 1 then 0 else k + 1;
      assert path[next] in items && path[next].parentId == id && path[next].componentId in cycle;
    }
  }

  /** In a valid hierarchy a component called ROOT lies below ROOT, and so on a cycle of child links. */
  lemma {:induction false} RootIsBelowItself(items: seq<Contract>) returns (path: seq<Contract>)
    requires WellFounded(items) && ROOT in Ids(items)
    ensures IsPath(items, ROOT, path) && path[|path| - 1].componentId == ROOT
  {
    var c := ContractOf(items, ROOT);
    var parents := Parents(items);
    ParentOf(items, c);
    var rank :| RanksTo(parents, rank);
    ParentIsKnown(items, c);
    hide Ids, Parents, RanksTo, DistinctIds;
    var m := RankedReachesRoot(parents, rank, c.parentId);
    var above := PathFromRoot(items, c.parentId, m);
    PathGrows(items, ROOT, above, c);
    path := above + [c];
  }

  lemma {:induction false} ParentIsKnown(items: seq<Contract>, c: Contract)
    requires ParentsKnown(items) && c in items
    ensures c.parentId != c.componentId && (c.parentId == ROOT || c.parentId in Ids(items))
  {
    var i :| 0 <= i < |items| && items[i] == c;
  }

  /** A path down into a cycle of child links never lets the walk end either. */
  lemma {:induction false} PathJoinsCycle(items: seq<Contract>, start: string, path: seq<Contract>, cycle: set<string>)
    returns (more: set<string>)
    requires OnCycle(items, cycle) && IsPath(items, start, path) && path[|path| - 1].componentId in cycle
    ensures OnCycle(items, more) && start in more
  {
    more := cycle + {start} + (set k | 0 <= k < |path| :: path[k].componentId);
    forall id | id in more ensures HasChildIn(items, id, more) {
      if id in cycle {
        var c := NextOnCycle(items, cycle, id);
      } else if id == start {
        assert path[0] in items && path[0].componentId in more;
      } else {
        var k :| 0 <= k < |path| && path[k].componentId == id;
        assert path[k + 1] in items && path[k + 1].parentId == id && path[k + 1].componentId in more;
      }
    }
  }

  /** In a valid hierarchy `descendants` runs for ever from every start above a component called ROOT. */
  lemma {:induction false} RootNamedComponentLoops(items: seq<Contract>, start: string, n: nat)
    requires WellFounded(items) && !RootFree(items, start)
    ensures WalkSteps(items, start, n).1 != []
  {
    var c :| IsDescendant(items, start, c) && c.componentId == ROOT;
    var path :| IsPath(items, start, path) && path[|path| - 1] == c;
    IdInIds(items, path[|path| - 1]);
    hide IsPath, WellFounded, Ids;
    var circle := RootIsBelowItself(items);
    var cycle := PathIsCycle(items, circle);
    var more := PathJoinsCycle(items, start, path, cycle);
    CycleKeepsStack(items, more, start, n);
  }

  /** The loop of `descendants` from `start` leaves an empty stack at some time, with `result`. */
  ghost predicate EndsWith(items: seq<Contract>, start: string, result: seq<Contract>, n: nat) {
    WalkSteps(items, start, n) == (result, [])
  }

  ghost predicate Ends(items: seq<Contract>, start: string) {
    exists result, n: nat :: EndsWith(items, start, result, n)
  }

  lemma {:induction false} ExploringStarts(items: seq<Contract>, start: string)
    ensures Exploring(items, start, [], [start], {})
  {
  }

  /** Each round either finds something new or shortens the stack. */
  lemma {:induction false} WalkEnds(items: seq<Contract>, start: string, n: nat, popped: set<string>)
    requires WellFounded(items) && RootFree(items, start)
    requires Exploring(items, start, WalkSteps(items, start, n).0, WalkSteps(items, start, n).1, popped)
    ensures Ends(items, start)
    decreases |items| - |WalkSteps(items, start, n).0|, |WalkSteps(items, start, n).1|
  {
    hide WellFounded, Exploring, Children, ComponentIds, Ids;
    var (result, stack) := WalkSteps(items, start, n);
    if stack == [] {
      assert EndsWith(items, start, result, n);
    } else {
      ExploringStep(items, start, result, stack, popped);
      var current := stack[|stack| - 1];
      var kids := Children(items, current);
      AtMostAll(items, start, result + kids, stack[..|stack| - 1] + ComponentIds(kids), popped + {current});
      assert WalkSteps(items, start, n + 1) == (result + kids, stack[..|stack| - 1] + ComponentIds(kids));
      WalkEnds(items, start, n + 1, popped + {current});
    }
  }

  /** For a valid hierarchy, `descendants` terminates exactly from the starts with no descendant
      that is itself called ROOT. */
  lemma {:induction false} DescendantsEndIff(items: seq<Contract>, start: string)
    requires WellFounded(items)
    ensures Ends(items, start) <==> RootFree(items, start)
  {
    hide WellFounded, Exploring, RootFree;
    if RootFree(items, start) {
      ExploringStarts(items, start);
      assert WalkSteps(items, start, 0) == ([], [start]);
      WalkEnds(items, start, 0, {});
    } else {
      forall result, n: nat ensures !EndsWith(items, start, result, n) {
        RootNamedComponentLoops(items, start, n);
      }
    }
  }

  /** It terminates from every start exactly when no component is called ROOT. */
  lemma {:induction false} DescendantsTerminateIff(items: seq<Contract>)
    requires WellFounded(items)
    ensures (forall start :: Ends(items, start)) <==> ROOT !in Ids(items)
  {
    hide WellFounded, Ids, Ends;
    if ROOT !in Ids(items) {
      forall start ensures Ends(items, start) {
        NoRootBelow(items, start);
        DescendantsEndIff(items, start);
      }
    } else {
      var path := RootIsBelowItself(items);
      assert IsDescendant(items, ROOT, path[|path| - 1]);
      DescendantsEndIff(items, ROOT);
    }
  }

  lemma {:induction false} NoRootBelow(items: seq<Contract>, start: string)
    requires ROOT !in Ids(items)
    ensures RootFree(items, start)
  {
    forall c | IsDescendant(items, start, c) ensures c.componentId != ROOT {
      var path :| IsPath(items, start, path) && path[|path| - 1] == c;
      IdInIds(items, path[|path| - 1]);
    }
  }

  const ABOVE: Contract := Contract("A", ROOT, [])
  const NAMED_ROOT: Contract := Contract(ROOT, "A", [])

  lemma {:induction false} ExampleIsValid(items: seq<Contract>)
    requires items == [ABOVE, NAMED_ROOT]
    ensures WellFounded(items)
  {
    assert items[0].componentId == "A" && items[1].componentId == ROOT && "A" != ROOT;
    assert items[0].componentId in Ids(items);
    ParentOf(items, ABOVE);
    ParentOf(items, NAMED_ROOT);
    hide Parents, ParentsKnown;
    forall id | id in Parents(items) && id != ROOT ensures Parents(items)[id] == ROOT {
      var i :| 0 <= i < |items| && items[i].componentId == id;
    }
    assert RanksTo(Parents(items), map["A" := 0]);
  }

  /** A component called ROOT under a child of ROOT: a valid hierarchy, and an endless walk from both. */
  lemma {:induction false} RootNamedExample() returns (items: seq<Contract>)
    ensures WellFounded(items) && !Ends(items, ROOT) && !Ends(items, "A")
  {
    items := [ABOVE, NAMED_ROOT];
    ExampleIsValid(items);
    hide WellFounded, Ends;
    ChildIsDescendant(items, "A", NAMED_ROOT);
    ChildIsDescendant(items, ROOT, ABOVE);
    DescendantStep(items, ROOT, ABOVE, NAMED_ROOT);
    DescendantsEndIff(items, "A");
    DescendantsEndIff(items, ROOT);
  }

  lemma {:induction false} RankedReachesRoot(parents: map<string, string>, rank: map<string, nat>, id: string)
    returns (n: nat)
    requires RanksTo(parents, rank) && id in parents && id != ROOT
    ensures ReachesRoot(parents, id, n)
    decreases rank[id]
  {
    assert Walk(parents, id, 0) == Some(id);
    if parents[id] == ROOT {
      n := 1;
    } else {
      var m := RankedReachesRoot(parents, rank, parents[id]);
      WalkFromParent(parents, id, m);
      n := m + 1;
    }
  }

  // ---- routing a need upwards ----

  datatype Reason = Authorized | LacksAuthority(child: string) | NoRoute

  datatype SupervisorDecision = SupervisorDecision(
    componentId: string, action: string, reason: Reason, mode: ActionMode)

  function PermissionFor(c: Contract, need: string): Option<ActionMode> {
    FirstPermission(c.permissions, need)
  }

  function FirstPermission(permissions: seq<Permission>, need: string): Option<ActionMode> {
    if permissions == [] then None
    else if permissions[0].action == need then Some(permissions[0].mode)
    else FirstPermission(permissions[1..], need)
  }

  function Route(c: Contract, need: string): SupervisorDecision {
    if PermissionFor(c, need).Some? then
      SupervisorDecision(c.componentId, need, Authorized, PermissionFor(c, need).value)
    else if c.parentId != ROOT then SupervisorDecision(c.parentId, need, LacksAuthority(c.componentId), Escalate)
    else SupervisorDecision(HUMAN, need, NoRoute, Escalate)
  }

  /** The first permission for the need has this mode. */
  predicate Permits(c: Contract, need: string, mode: ActionMode) {
    exists k :: 0 <= k < |c.permissions| && IsFirst(c.permissions, k, need) && c.permissions[k].mode == mode
  }

  predicate IsFirst(permissions: seq<Permission>, k: nat, need: string)
    requires k < |permissions|
  {
    permissions[k].action == need && forall j :: 0 <= j < k ==> permissions[j].action != need
  }

  /** No permission is for the need. */
  predicate Lacks(c: Contract, need: string) {
    forall p :: p in c.permissions ==> p.action != need
  }

  /** How a component decides a need: by its first permission for it, else by asking its parent, else,
      under ROOT, by asking a human. */
  predicate Routed(c: Contract, need: string, decision: SupervisorDecision) {
    && decision.action == need
    && match decision.reason
       case Authorized => decision.componentId == c.componentId && Permits(c, need, decision.mode)
       case LacksAuthority(child) =>
         && Lacks(c, need) && c.parentId != "ROOT"
         && child == c.componentId && decision.componentId == c.parentId && decision.mode == Escalate
       case NoRoute =>
         && Lacks(c, need) && c.parentId == "ROOT"
         && decision.componentId == "HUMAN_APPROVAL" && decision.mode == Escalate
  }

  lemma {:induction false} FirstIsFound(permissions: seq<Permission>, need: string)
    ensures FirstPermission(permissions, need) == None <==> forall p :: p in permissions ==> p.action != need
    ensures forall k :: 0 <= k < |permissions| && IsFirst(permissions, k, need) ==>
      FirstPermission(permissions, need) == Some(permissions[k].mode)
    ensures FirstPermission(permissions, need).Some? ==>
      exists k :: 0 <= k < |permissions| && IsFirst(permissions, k, need)
  {
    if permissions != [] {
      var rest := permissions[1..];
      FirstIsFound(rest, need);
      assert permissions == [permissions[0]] + rest;
      if permissions[0].action == need {
        assert IsFirst(permissions, 0, need);
      } else {
        forall k | 0 < k < |permissions| && IsFirst(permissions, k, need) ensures IsFirst(rest, k - 1, need) {
          assert forall j :: 0 <= j < k - 1 ==> rest[j] == permissions[j + 1];
        }
        if FirstPermission(rest, need).Some? {
          var k :| 0 <= k < |rest| && IsFirst(rest, k, need);
          assert IsFirst(permissions, k + 1, need);
        }
      }
    }
  }

  /** The decision is the only one there is. */
  lemma {:induction false} RouteIff(c: Contract, need: string, decision: SupervisorDecision)
    ensures Routed(c, need, decision) <==> decision == Route(c, need)
    ensures PermissionFor(c, need) == None <==> Lacks(c, need)
  {
    FirstIsFound(c.permissions, need);
    hide FirstPermission, IsFirst;
    if k :| 0 <= k < |c.permissions| && IsFirst(c.permissions, k, need) {
      assert Permits(c, need, c.permissions[k].mode);
    }
  }

  /** Following `route_need` from component to component: `hops` are the contracts asked. It
      stops at the nearest one that is permitted, or at a human when none up to ROOT is. */
  ghost predicate Escalates(items: seq<Contract>, id: string, need: string, hops: seq<Contract>) {
    && hops != [] && hops[0].componentId == id
    && (forall k :: 0 <= k < |hops| ==> hops[k] in items)
    && (forall k :: 0 <= k < |hops| - 1 ==>
         Routed(hops[k], need,
                SupervisorDecision(hops[k + 1].componentId, need, LacksAuthority(hops[k].componentId), Escalate)))
    && exists decision :: Routed(hops[|hops| - 1], need, decision) && !decision.reason.LacksAuthority?
  }

  lemma {:induction false} EscalatesThrough(items: seq<Contract>, c: Contract, need: string, above: seq<Contract>)
    requires c in items && PermissionFor(c, need) == None && c.parentId != ROOT
    requires Escalates(items, c.parentId, need, above)
    ensures Escalates(items, c.componentId, need, [c] + above)
  {
    RouteIff(c, need, Route(c, need));
    hide PermissionFor, Lacks;
    var hops := [c] + above;
    assert hops[|hops| - 1] == above[|above| - 1];
    forall k | 0 <= k < |hops| - 1
      ensures Routed(hops[k], need, SupervisorDecision(hops[k + 1].componentId, need,
                                                       LacksAuthority(hops[k].componentId), Escalate))
    {
      assert hops[k + 1] == above[k];
      assert k > 0 ==> hops[k] == above[k - 1] && hops[k + 1] == above[(k - 1) + 1];
    }
  }

  lemma {:induction false} EscalatesAtOnce(items: seq<Contract>, c: Contract, need: string)
    requires c in items && (PermissionFor(c, need).Some? || c.parentId == ROOT)
    ensures Escalates(items, c.componentId, need, [c])
  {
    RouteIff(c, need, Route(c, need));
    hide Routed;
    assert [c][|[c]| - 1] == c && !Route(c, need).reason.LacksAuthority?;
  }

  /** Repeated escalation ends, after at most as many components as the depth of the first. */
  lemma {:induction false} EscalationEnds(items: seq<Contract>, id: string, need: string, n: nat)
    returns (hops: seq<Contract>)
    requires DistinctIds(items) && id in Ids(items) && id != ROOT
    requires ReachesRoot(Parents(items), id, n)
    ensures Escalates(items, id, need, hops)
    ensures |hops| <= n
    decreases n
  {
    hide DistinctIds, Ids, ReachesRoot, Parents, Escalates, PermissionFor;
    var c := StepUp(items, id, n);
    if PermissionFor(c, need).Some? || c.parentId == ROOT {
      hops := [c];
      EscalatesAtOnce(items, c, need);
    } else {
      var above := EscalationEnds(items, c.parentId, need, n - 1);
      EscalatesThrough(items, c, need, above);
      hops := [c] + above;
    }
  }

  /** In every valid hierarchy, from every component, asking upwards ends at a permitted
      component or at a human, within as many hops as the component is deep. */
  lemma {:induction false} EveryNeedIsRouted(items: seq<Contract>, id: string, need: string)
    returns (depth: nat, hops: seq<Contract>)
    requires WellFounded(items) && id in Ids(items) && id != ROOT
    ensures ReachesRoot(Parents(items), id, depth)
    ensures Escalates(items, id, need, hops) && |hops| <= depth
  {
    ParentsOf(items);
    hide Parents, DistinctIds, Escalates, ReachesRoot;
    var rank :| RanksTo(Parents(items), rank);
    depth := RankedReachesRoot(Parents(items), rank, id);
    hops := EscalationEnds(items, id, need, depth);
  }

  class AwarenessRegistry {
    const contracts: seq<Contract>

    constructor (contracts: seq<Contract>)
      requires WellFounded(contracts)
      ensures this.contracts == contracts
    {
      this.contracts := contracts;
    }

    /** The registry's constructor as its callers see it: null stands for the ValueError. */
    static method Build(contracts: seq<Contract>) returns (r: AwarenessRegistry?)
      ensures r == null <==> !WellFounded(PutAll(contracts))
      ensures r != null ==> r.contracts == PutAll(contracts)
    {
      var kept: seq<Contract> := [];
      for i := 0 to |contracts|
        invariant kept == PutAll(contracts[..i])
      {
        assert contracts[..i + 1][..i] == contracts[..i];
        kept := Put(kept, contracts[i]);
      }
      assert contracts[..|contracts|] == contracts;
      var valid := HierarchyValid(kept);
      if !valid {
        return null;
      }
      r := new AwarenessRegistry(kept);
    }

    /** `descendants`: every proper descendant of `parent`, each exactly once. */
    method Descendants(parent: string) returns (result: seq<Contract>)
      requires WellFounded(contracts) && RootFree(contracts, parent)
      ensures forall c :: c in result <==> IsDescendant(contracts, parent, c)
      ensures DistinctIds(result)
      ensures exists n: nat :: EndsWith(contracts, parent, result, n)
    {
      hide WellFounded, Exploring, Children, Ids, ComponentIds;
      result := [];
      var stack := [parent];
      ghost var popped: set<string> := {};
      ExploringStarts(contracts, parent);
      ghost var n: nat := 0;
      while stack != []
        invariant Exploring(contracts, parent, result, stack, popped)
        invariant WalkSteps(contracts, parent, n) == (result, stack)
        decreases |contracts| - |result|, |stack|
      {
        var current := stack[|stack| - 1];
        var kids := Children(contracts, current);
        ExploringStep(contracts, parent, result, stack, popped);
        AtMostAll(contracts, parent, result + kids, stack[..|stack| - 1] + ComponentIds(kids), popped + {current});
        popped := popped + {current};
        result := result + kids;
        stack := stack[..|stack| - 1] + ComponentIds(kids);
        n := n + 1;
      }
      assert EndsWith(contracts, parent, result, n);
      FoundExactly(contracts, parent, result, popped);
    }

    /** `route_need`; `None` is the KeyError for an unknown component. */
    method RouteNeed(id: string, need: string) returns (decision: Option<SupervisorDecision>)
      requires DistinctIds(contracts)
      ensures decision == None <==> id !in Ids(contracts)
      ensures forall c :: c in contracts && c.componentId == id ==> decision.Some? && Routed(c, need, decision.value)
    {
      var i := 0;
      while i < |contracts| && contracts[i].componentId != id
        invariant 0 <= i <= |contracts|
        invariant forall j :: 0 <= j < i ==> contracts[j].componentId != id
      {
        i := i + 1;
      }
      if i == |contracts| {
        return None;
      }
      var component := contracts[i];
      RouteIff(component, need, Route(component, need));
      hide Routed;
      var permissions := component.permissions;
      while permissions != []
        invariant FirstPermission(permissions, need) == PermissionFor(component, need)
        decreases |permissions|
      {
        if permissions[0].action == need {
          return Some(SupervisorDecision(id, need, Authorized, permissions[0].mode));
        }
        permissions := permissions[1..];
      }
      if component.parentId != ROOT {
        return Some(SupervisorDecision(component.parentId, need, LacksAuthority(id), Escalate));
      }
      decision := Some(SupervisorDecision(HUMAN, need, NoRoute, Escalate));
    }
  }
}
