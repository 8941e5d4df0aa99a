/** The append-only ledger of `evidence_ledger.py`, on a heap: payloads are mutable trees of
    objects that callers hold references to, and the ledger keeps and hands out deep copies. */
module EvidenceLedger {
  import opened Prelude
  import opened HashChain

  /** The value of a payload. */
  datatype Tree = Tree(leaf: Json, kids: seq<Tree>)

  /** What an event's hash covers besides the previous hash. */
  datatype Body = Body(eventId: string, eventType: string, traceId: string, payload: Tree)

  type Hash = (Body, string) -> string

  datatype LedgerError = EventIdEmpty | DuplicateEventId | NotSerializable

  /** A mutable JSON container; parts may be shared, cycles are excluded. */
  class Node {
    var leaf: Json
    var kids: seq<Node>
    ghost var Repr: set<Node>

    ghost predicate Valid()
      reads this, Repr
      decreases Repr
    {
      && this in Repr
      && forall k :: k in kids ==> k in Repr && k.Repr < Repr && this !in k.Repr && k.Valid()
    }

    ghost function Value(): Tree
      requires Valid()
      reads this, Repr
      decreases Repr
    {
      Tree(leaf, seq(|kids|, i requires 0 <= i < |kids| && Valid() reads this, Repr =>
        assert kids[i] in kids; kids[i].Value()))
    }

    constructor (leaf: Json, kids: seq<Node>)
      requires forall k :: k in kids ==> k.Valid()
      ensures Valid() && this.leaf == leaf && this.kids == kids
      ensures Value().leaf == leaf && |Value().kids| == |kids|
      ensures forall i :: 0 <= i < |kids| ==> Value().kids[i] == old(kids[i].Value())
      ensures Repr == {this} + (set k, n | k in kids && n in k.Repr :: n)
    {
      this.leaf := leaf;
      this.kids := kids;
      this.Repr := {this} + (set k, n | k in kids && n in k.Repr :: n);
    }

    /** Every object that a holder of this one can get at. */
    method Reachable() returns (all: set<Node>)
      requires Valid()
      ensures this in all && Closed(all) && all <= Repr
      decreases Repr
    {
      all := {this};
      for i := 0 to |kids|
        invariant this in all && all <= Repr && forall j :: 0 <= j < i ==> kids[j] in all
        invariant forall n, k :: n in all && n != this && k in n.kids ==> k in all
      {
        var kid := kids[i];
        assert kid in kids;
        var below := kid.Reachable();
        all := all + below;
      }
    }

    /** The value as `json.dumps` reads it. */
    method Read() returns (value: Tree)
      requires Valid()
      ensures value == Value()
      decreases Repr
    {
      var values: seq<Tree> := [];
      for i := 0 to |kids|
        invariant |values| == i && forall j :: 0 <= j < i ==> values[j] == Value().kids[j]
      {
        var kid := kids[i];
        assert kid in kids;
        var read := kid.Read();
        values := values + [read];
      }
      value := Tree(leaf, values);
      assert values == Value().kids;
    }

    /** The parts of the value. */
    lemma ValueParts()
      requires Valid()
      ensures Value().leaf == leaf && |Value().kids| == |kids|
      ensures forall i :: 0 <= i < |kids| ==> kids[i].Valid() && Value().kids[i] == kids[i].Value()
    {
    }

    /** `copy.deepcopy`. */
    method Copy() returns (c: Node)
      requires Valid()
      ensures c.Valid() && fresh(c.Repr) && c.Value() == Value()
      decreases Repr
    {
      hide Value;
      ValueParts();
      ghost var value := Value();
      var copies: seq<Node> := [];
      for i := 0 to |kids|
        invariant |copies| == i
        invariant forall j :: 0 <= j < i ==> copies[j].Valid() && fresh(copies[j].Repr)
        invariant forall j :: 0 <= j < i ==> copies[j].Value() == value.kids[j]
      {
        var kid := kids[i];
        assert kid in kids;
        var copied := kid.Copy();
        copies := copies + [copied];
      }
      c := new Node(leaf, copies);
      assert c.Value().kids == value.kids;
    }
  }

  /** Whoever holds these objects can reach no others. */
  ghost predicate Closed(nodes: set<Node>)
    reads nodes
  {
    forall n, k :: n in nodes && k in n.kids ==> k in nodes
  }

  /** An event as the ledger stores it, and as it hands it out. */
  datatype Event = Event(
    eventId: string, eventType: string, traceId: string, payload: Node, previousHash: string, eventHash: string)

  /** The event, payload object included, has the value `link`. */
  ghost predicate Describes(event: Event, link: Link<Body>)
    requires event.payload.Valid()
    reads event.payload, event.payload.Repr
  {
    link == Link(Body(event.eventId, event.eventType, event.traceId, event.payload.Value()),
                 event.previousHash, event.eventHash)
  }

  /** Distinct ids that are the registered ones, serialisable payloads, and an unbroken chain. */
  ghost predicate Intact(hash: Hash, serializable: Tree -> bool, view: seq<Link<Body>>, ids: set<string>) {
    && Chained(hash, view)
    && (forall i, j :: 0 <= i < j < |view| ==> view[i].body.eventId != view[j].body.eventId)
    && (forall i :: 0 <= i < |view| ==> serializable(view[i].body.payload))
    && ids == IdsOf(view)
  }

  ghost function IdsOf(view: seq<Link<Body>>): set<string> {
    set i | 0 <= i < |view| :: view[i].body.eventId
  }

  /** What an append does to the value of the ledger. */
  ghost function Appended(hash: Hash, serializable: Tree -> bool, view: seq<Link<Body>>, body: Body): seq<Link<Body>> {
    if body.eventId == "" || body.eventId in IdsOf(view) || !serializable(body.payload) then view
    else Extend(hash, view, body)
  }

  /** An append either leaves an intact ledger alone or extends it to an intact one. */
  lemma {:induction false} AppendedIsIntact(hash: Hash, serializable: Tree -> bool, view: seq<Link<Body>>,
                                            ids: set<string>, body: Body)
    requires Intact(hash, serializable, view, ids)
    ensures
      if body.eventId == "" || body.eventId in ids || !serializable(body.payload) then
        Appended(hash, serializable, view, body) == view
      else
        && Appended(hash, serializable, view, body) == Extend(hash, view, body)
        && Intact(hash, serializable, Extend(hash, view, body), ids + {body.eventId})
  {
    var next := Extend(hash, view, body);
    if body.eventId != "" && body.eventId !in ids && serializable(body.payload) {
      assert next[..|view|] == view && next[..|view| + 1] == next;
      IntactGrows(hash, serializable, next, ids, |view|);
    }
  }

  class Ledger {
    const hash: Hash
    const serializable: Tree -> bool

    var events: seq<Event>
    var eventIds: set<string>

    /** The value of the ledger, tied to the stored payload objects by `Valid`. */
    ghost var Contents: seq<Link<Body>>
    ghost var Repr: set<object>

    /** The stored event, payload object included, has the value `link`. */
    ghost predicate Holds(event: Event, link: Link<Body>)
      reads this, Repr
    {
      && event.payload in Repr && event.payload.Repr <= Repr && event.payload.Valid()
      && Describes(event, link)
    }

    ghost predicate Valid()
      reads this, Repr
    {
      && this in Repr
      && |events| == |Contents|
      && forall i :: 0 <= i < |events| ==> Holds(events[i], Contents[i])
    }

    constructor (hash: Hash, serializable: Tree -> bool)
      ensures this.hash == hash && this.serializable == serializable
      ensures Valid() && fresh(Repr) && Contents == [] && eventIds == {}
    {
      this.hash, this.serializable := hash, serializable;
      events, eventIds := [], {};
      Contents, Repr := [], {this};
    }

    /** A copy of an event with a payload object of its own. */
    method CopyEvent(event: Event) returns (copied: Event)
      requires event.payload.Valid()
      ensures copied == event.(payload := copied.payload)
      ensures copied.payload.Valid() && fresh(copied.payload.Repr) && copied.payload.Value() == event.payload.Value()
    {
      var payload := event.payload.Copy();
      copied := Event(event.eventId, event.eventType, event.traceId, payload, event.previousHash, event.eventHash);
    }

    /** Stores an event with a payload object that no one else holds. */
    method Store(event: Event, ghost link: Link<Body>)
      requires Valid() && event.payload.Valid() && event.payload in event.payload.Repr
      requires Describes(event, link)
      modifies this
      ensures Valid() && Repr == old(Repr) + event.payload.Repr
      ensures Contents == old(Contents) + [link] && eventIds == old(eventIds) + {event.eventId}
    {
      events := events + [event];
      eventIds := eventIds + {event.eventId};
      Contents := Contents + [link];
      Repr := Repr + event.payload.Repr;
    }

    /** `append`: refused for an empty or known id and for a payload that does not serialise,
        and then nothing changes; otherwise the ledger gains one link over the payload's
        present value. Stored and returned payloads are new objects. */
    method Append(eventId: string, eventType: string, traceId: string, payload: Node)
      returns (r: Result<Event, LedgerError>)
      requires Valid() && payload.Valid() && Intact(hash, serializable, Contents, eventIds)
      modifies this
      ensures Valid() && fresh(Repr - old(Repr))
      ensures Contents ==
        Appended(hash, serializable, old(Contents), Body(eventId, eventType, traceId, old(payload.Value())))
      ensures Intact(hash, serializable, Contents, eventIds)
      ensures r.Ok? <==> eventId != "" && eventId !in old(eventIds) && serializable(old(payload.Value()))
      ensures r.Err? ==> Repr == old(Repr)
      ensures r.Ok? ==> r.value.payload.Valid() && fresh(r.value.payload.Repr) && r.value.payload.Repr !! Repr
      ensures r.Ok? ==> Contents != [] && Describes(r.value, Last(Contents))
    {
      hide Intact, Appended, Node.Value;
      ghost var body := Body(eventId, eventType, traceId, payload.Value());
      AppendedIsIntact(hash, serializable, Contents, eventIds, body);
      if eventId == "" {
        return Err(EventIdEmpty);
      }
      if eventId in eventIds {
        return Err(DuplicateEventId);
      }
      var snapshot := payload.Copy();
      var content := snapshot.Read();
      if !serializable(content) {
        return Err(NotSerializable);
      }
      var previousHash := if events == [] then GENESIS else events[|events| - 1].eventHash;
      assert previousHash == Head(Contents);
      var eventHash := hash(Body(eventId, eventType, traceId, content), previousHash);
      var event := Event(eventId, eventType, traceId, snapshot, previousHash, eventHash);
      Store(event, Link(body, previousHash, eventHash));
      var copied := CopyEvent(event);
      r := Ok(copied);
    }

    /** `events()`: copies, so no returned payload shares an object with the ledger. */
    method Events() returns (copies: seq<Event>)
      requires Valid()
      ensures |copies| == |Contents|
      ensures forall i :: 0 <= i < |copies| ==>
        && copies[i].payload.Valid() && fresh(copies[i].payload.Repr) && copies[i].payload.Repr !! Repr
        && Describes(copies[i], Contents[i])
    {
      copies := [];
      for i := 0 to |events|
        invariant |copies| == i
        invariant forall j :: 0 <= j < i ==>
          && copies[j].payload.Valid() && fresh(copies[j].payload.Repr) && copies[j].payload.Repr !! Repr
          && Describes(copies[j], Contents[j])
      {
        assert Holds(events[i], Contents[i]);
        var copied := CopyEvent(events[i]);
        copies := copies + [copied];
      }
    }

    /** `verify_chain`: true exactly for an intact ledger. */
    method VerifyChain() returns (ok: bool)
      requires Valid()
      ensures ok <==> Intact(hash, serializable, Contents, eventIds)
    {
      var previous := GENESIS;
      var seen: set<string> := {};
      assert Contents[..0] == [];
      for i := 0 to |events|
        invariant Intact(hash, serializable, Contents[..i], seen) && previous == Head(Contents[..i])
      {
        var event := events[i];
        assert Holds(event, Contents[i]);
        PrefixOfIntact(hash, serializable, Contents, eventIds, i);
        if event.eventId in seen {
          return false;
        }
        var content := event.payload.Read();
        if !serializable(content) {
          return false;
        }
        var expected := hash(Body(event.eventId, event.eventType, event.traceId, content), previous);
        if event.previousHash != previous || event.eventHash != expected {
          return false;
        }
        IntactGrows(hash, serializable, Contents, seen, i);
        seen := seen + {event.eventId};
        previous := event.eventHash;
      }
      assert Contents[..|events|] == Contents;
      ok := seen == eventIds;
    }
  }

  /** What an intact ledger says about its link at `i`. */
  lemma {:induction false} PrefixOfIntact(hash: Hash, serializable: Tree -> bool, view: seq<Link<Body>>,
                                          ids: set<string>, i: nat)
    requires i < |view|
    ensures Intact(hash, serializable, view, ids) ==>
      && serializable(view[i].body.payload)
      && view[i].body.eventId !in IdsOf(view[..i])
      && view[i].previousHash == Head(view[..i])
      && view[i].eventHash == hash(view[i].body, view[i].previousHash)
  {
    if Intact(hash, serializable, view, ids) {
      ChainedAt(hash, view, i);
    }
  }

  /** Intact means, link by link: the first names GENESIS and every other the hash of the one before it,
      each hash is the hash of body and named hash, and ids are distinct and the registered ones. */
  lemma {:induction false} IntactIff(hash: Hash, serializable: Tree -> bool, view: seq<Link<Body>>, ids: set<string>)
    ensures Intact(hash, serializable, view, ids) <==>
      && (forall i :: 0 <= i < |view| ==>
           Linked(hash, view, i) && serializable(view[i].body.payload) && view[i].body.eventId in ids)
      && (forall i, j :: 0 <= i < j < |view| ==> view[i].body.eventId != view[j].body.eventId)
      && (forall id :: id in ids ==> exists i :: 0 <= i < |view| && view[i].body.eventId == id)
  {
    ChainedIff(hash, view);
    hide Chained, Linked;
    forall id ensures id in IdsOf(view) <==> exists i :: 0 <= i < |view| && view[i].body.eventId == id {
    }
  }

  lemma {:induction false} IntactGrows(hash: Hash, serializable: Tree -> bool, view: seq<Link<Body>>,
                                       seen: set<string>, i: nat)
    requires i < |view| && Intact(hash, serializable, view[..i], seen)
    requires serializable(view[i].body.payload) && view[i].body.eventId !in seen
    requires view[i].previousHash == Head(view[..i])
    requires view[i].eventHash == hash(view[i].body, view[i].previousHash)
    ensures Intact(hash, serializable, view[..i + 1], seen + {view[i].body.eventId})
    ensures Head(view[..i + 1]) == view[i].eventHash
    ensures IdsOf(view[..i + 1]) == IdsOf(view[..i]) + {view[i].body.eventId}
  {
    assert Front(view[..i + 1]) == view[..i];
    assert view[..i + 1] == view[..i] + [view[i]];
    assert forall j :: 0 <= j < i ==> view[..i][j].body.eventId in IdsOf(view[..i]);
    assert IdsOf(view[..i + 1]) == IdsOf(view[..i]) + {view[i].body.eventId} by {
      assert forall j :: 0 <= j < i ==> view[..i + 1][j] == view[..i][j];
      assert view[..i + 1][i].body.eventId in IdsOf(view[..i + 1]);
    }
  }

  // ---- callers that keep references ----

  /** What a caller may do: append a new payload object, append the one it passed last once more,
      read the events, empty every object it can reach, or change them all in any way. */
  datatype CallerStep =
    | Appending(eventId: string, eventType: string, traceId: string, payload: Tree)
    | AppendingAgain(eventId: string, eventType: string, traceId: string)
    | Reading
    | Meddling(leaf: Json)
    | Disturbing

  /** The value of the ledger, and the present value of the payload object passed last, if it
      still is one: a disturbed object may contain itself. */
  datatype Standing = Standing(view: seq<Link<Body>>, passed: Option<Tree>)

  /** Appends alone count, each with the value its payload has at that moment. */
  ghost function Next(hash: Hash, serializable: Tree -> bool, now: Standing, step: CallerStep): Standing {
    match step
    case Appending(eventId, eventType, traceId, payload) =>
      Standing(Appended(hash, serializable, now.view, Body(eventId, eventType, traceId, payload)), Some(payload))
    case AppendingAgain(eventId, eventType, traceId) =>
      if now.passed == None then now
      else now.(view := Appended(hash, serializable, now.view, Body(eventId, eventType, traceId, now.passed.value)))
    case Reading => now
    case Meddling(leaf) => if now.passed == None then now else now.(passed := Some(Tree(leaf, [])))
    case Disturbing => now.(passed := None)
  }

  ghost function StandingAfter(hash: Hash, serializable: Tree -> bool, steps: seq<CallerStep>): Standing {
    if steps == [] then Standing([], None)
    else Next(hash, serializable, StandingAfter(hash, serializable, Front(steps)), Last(steps))
  }

  /** A payload object with the given value. */
  method Build(tree: Tree) returns (node: Node)
    ensures node.Valid() && fresh(node.Repr) && node.Value() == tree
    decreases tree
  {
    var kids: seq<Node> := [];
    for i := 0 to |tree.kids|
      invariant |kids| == i
      invariant forall j :: 0 <= j < i ==> kids[j].Valid() && fresh(kids[j].Repr) && kids[j].Value() == tree.kids[j]
    {
      var kid := Build(tree.kids[i]);
      kids := kids + [kid];
    }
    node := new Node(tree.leaf, kids);
    assert node.Value().kids == tree.kids;
  }

  /** Overwrites and empties every object it is given. */
  method Meddle(nodes: set<Node>, leaf: Json)
    modifies nodes
    ensures forall n :: n in nodes ==> n.Valid() && n.Repr == {n} && n.Value() == Tree(leaf, [])
  {
    forall n | n in nodes { n.leaf := leaf; }
    forall n | n in nodes { n.kids := []; }
    forall n | n in nodes { n.Repr := {n}; }
    assert forall n :: n in nodes ==> n.Valid() && n.Value().kids == [];
  }

  function Among(kids: seq<Node>, nodes: set<Node>): (r: seq<Node>)
    ensures forall k :: k in r ==> k in nodes
  {
    if kids == [] then []
    else Among(Front(kids), nodes) + (if Last(kids) in nodes then [Last(kids)] else [])
  }

  /** Changes every object it is given in any way that links it to no others. */
  method Disturb(nodes: set<Node>)
    modifies nodes
    ensures Closed(nodes)
  {
    modify nodes;
    forall n | n in nodes { n.kids := Among(n.kids, nodes); }
  }

  /** Any change to any objects outside `Repr` leaves the ledger valid, its contents and every
      stored event as they were, and the answer of `verify_chain` the same. */
  method VerifyAround(ledger: Ledger, others: set<object>) returns (before: bool, after: bool)
    requires ledger.Valid() && others !! ledger.Repr
    modifies others
    ensures ledger.Valid() && ledger.Contents == old(ledger.Contents) && ledger.events == old(ledger.events)
    ensures before == after == Intact(ledger.hash, ledger.serializable, ledger.Contents, ledger.eventIds)
  {
    before := ledger.VerifyChain();
    modify others;
    after := ledger.VerifyChain();
  }

  /** Appends and keeps every object of the payload passed and of the payload returned. */
  method AppendKeeping(ledger: Ledger, eventId: string, eventType: string, traceId: string, payload: Node)
    returns (returned: Option<Node>, held: set<Node>)
    requires ledger.Valid() && Intact(ledger.hash, ledger.serializable, ledger.Contents, ledger.eventIds)
    requires payload.Valid() && payload.Repr !! ledger.Repr
    modifies ledger
    ensures ledger.Valid() && fresh(ledger.Repr - old(ledger.Repr))
    ensures Intact(ledger.hash, ledger.serializable, ledger.Contents, ledger.eventIds)
    ensures ledger.Contents == Appended(ledger.hash, ledger.serializable, old(ledger.Contents),
                                        Body(eventId, eventType, traceId, old(payload.Value())))
    ensures returned.Some? <==> ledger.Contents != old(ledger.Contents)
    ensures payload in held && (returned.Some? ==> returned.value in held) && Closed(held)
    ensures fresh(held - payload.Repr) && held !! ledger.Repr
  {
    hide Intact, Appended, IdsOf, Extend;
    ghost var before, body := ledger.Contents, Body(eventId, eventType, traceId, payload.Value());
    RefusedOrLonger(ledger.hash, ledger.serializable, before, ledger.eventIds, body);
    held := payload.Reachable();
    var appended := ledger.Append(eventId, eventType, traceId, payload);
    returned := None;
    if appended.Ok? {
      var more := appended.value.payload.Reachable();
      returned, held := Some(appended.value.payload), held + more;
    }
  }

  lemma {:induction false} RefusedOrLonger(hash: Hash, serializable: Tree -> bool, view: seq<Link<Body>>,
                                           ids: set<string>, body: Body)
    requires Intact(hash, serializable, view, ids)
    ensures Appended(hash, serializable, view, body) != view <==>
      body.eventId != "" && body.eventId !in ids && serializable(body.payload)
  {
    assert |Extend(hash, view, body)| == |view| + 1;
  }

  /** Reads all events and keeps every payload object of the copies. */
  method ReadKeeping(ledger: Ledger) returns (copies: seq<Event>, held: set<Node>)
    requires ledger.Valid()
    ensures |copies| == |ledger.Contents|
    ensures forall i :: 0 <= i < |copies| ==>
      copies[i].payload in held && copies[i].payload.Valid() && Describes(copies[i], ledger.Contents[i])
    ensures Closed(held) && fresh(held) && held !! ledger.Repr
  {
    copies := ledger.Events();
    held := {};
    for c := 0 to |copies|
      invariant Closed(held) && fresh(held) && held !! ledger.Repr
      invariant forall j :: 0 <= j < c ==> copies[j].payload in held
      invariant forall j :: 0 <= j < |copies| ==>
        && copies[j].payload.Valid() && fresh(copies[j].payload.Repr) && copies[j].payload.Repr !! ledger.Repr
        && Describes(copies[j], ledger.Contents[j])
    {
      var returned := copies[c].payload.Reachable();
      held := held + returned;
    }
  }

  /** The ledger, the payload objects outside it, and the value of the one passed last. */
  ghost predicate Stands(ledger: Ledger, outside: set<Node>, passed: Option<Node>, standing: Standing)
    reads ledger, ledger.Repr, outside, if passed.Some? then {passed.value} + passed.value.Repr else {}
  {
    && ledger.Valid() && Intact(ledger.hash, ledger.serializable, ledger.Contents, ledger.eventIds)
    && ledger.Contents == standing.view && Closed(outside) && outside !! ledger.Repr
    && if passed.None? then standing.passed == None
       else
         && passed.value in outside && passed.value.Valid() && passed.value.Repr !! ledger.Repr
         && standing.passed == Some(passed.value.Value())
  }

  /** One step of a caller who keeps every payload object it passes and gets. */
  method Take(ledger: Ledger, outside: set<Node>, passed: Option<Node>, step: CallerStep, ghost standing: Standing)
    returns (outside': set<Node>, passed': Option<Node>)
    requires Stands(ledger, outside, passed, standing)
    modifies ledger, outside
    ensures Stands(ledger, outside', passed', Next(ledger.hash, ledger.serializable, standing, step))
    ensures fresh(ledger.Repr - old(ledger.Repr))
    ensures fresh(outside' - outside - (if passed.Some? then old(passed.value.Repr) else {}))
    ensures passed'.Some? ==>
      fresh(passed'.value.Repr - outside - (if passed.Some? then old(passed.value.Repr) else {}))
  {
    hide Appended, Intact;
    outside', passed' := outside, passed;
    match step {
      case Appending(eventId, eventType, traceId, payload) =>
        var node := Build(payload);
        var _, held := AppendKeeping(ledger, eventId, eventType, traceId, node);
        passed', outside' := Some(node), outside + held;
      case AppendingAgain(eventId, eventType, traceId) =>
        if passed.Some? {
          var _, held := AppendKeeping(ledger, eventId, eventType, traceId, passed.value);
          outside' := outside + held;
        }
      case Reading =>
        var _, held := ReadKeeping(ledger);
        outside' := outside + held;
      case Meddling(leaf) =>
        Meddle(outside, leaf);
      case Disturbing =>
        Disturb(outside);
        passed' := None;
    }
  }

  /** Any mix of appends, reads and arbitrary changes to every payload object that ever was outside
      the ledger: the stored events are those of the accepted appends, and the chain verifies. */
  method Exercise(hash: Hash, serializable: Tree -> bool, steps: seq<CallerStep>) returns (ledger: Ledger, ok: bool)
    ensures ledger.Valid() && ledger.Contents == StandingAfter(hash, serializable, steps).view
    ensures ok
  {
    ledger := new Ledger(hash, serializable);
    var outside: set<Node> := {};
    var passed: Option<Node> := None;
    assert steps[..0] == [];
    for i := 0 to |steps|
      invariant ledger.hash == hash && ledger.serializable == serializable && fresh(ledger) && fresh(outside)
      invariant passed.Some? ==> fresh(passed.value.Repr)
      invariant Stands(ledger, outside, passed, StandingAfter(hash, serializable, steps[..i]))
    {
      hide Stands, Next;
      assert Front(steps[..i + 1]) == steps[..i] && Last(steps[..i + 1]) == steps[i];
      outside, passed := Take(ledger, outside, passed, steps[i], StandingAfter(hash, serializable, steps[..i]));
    }
    assert steps[..|steps|] == steps;
    ok := ledger.VerifyChain();
  }

  // ---- the head hash commits to history ----

  /** If one ledger's head hash occurs at position `i` of another, the first ledger is the
      other's history up to there, event by event and field by field. */
  lemma {:induction false} HeadCommitsToHistory(hash: Hash, serializable: Tree -> bool,
                                                a: seq<Link<Body>>, aIds: set<string>,
                                                b: seq<Link<Body>>, bIds: set<string>, i: nat)
    requires Ideal(hash)
    requires Intact(hash, serializable, a, aIds) && Intact(hash, serializable, b, bIds)
    requires a != [] && i < |b| && Last(a).eventHash == b[i].eventHash
    ensures a == b[..i + 1]
  {
    HeadPinsPrefix(hash, a, b, i);
  }
}
