/** Hash chains: each link stores the hash of its predecessor and the hash of its own
    body together with that stored hash. Both the audit log of the Action Gate and the
    evidence ledger are chains of this kind. */
module HashChain {

  const GENESIS: string := "GENESIS"

  datatype Link<+B> = Link(body: B, previousHash: string, eventHash: string)

  /** SHA-256 over canonical JSON, idealised: no two inputs share a digest and no digest
      is the word that starts a chain. */
  ghost predicate Ideal<B(!new)>(hash: (B, string) -> string) {
    && (forall a: B, b: B, p: string, q: string :: hash(a, p) == hash(b, q) ==> a == b && p == q)
    && (forall a: B, p: string :: hash(a, p) != GENESIS)
  }

  function Front<T>(s: seq<T>): seq<T>
    requires s != []
  {
    s[..|s| - 1]
  }

  function Last<T>(s: seq<T>): T
    requires s != []
  {
    s[|s| - 1]
  }

  /** Hash that the next link has to name. */
  function Head<B>(links: seq<Link<B>>): string {
    if links == [] then GENESIS else Last(links).eventHash
  }

  /** A chain: every link names the hash of the link before it (GENESIS for the first),
      and every stored hash is the hash of what it covers. */
  ghost predicate Chained<B>(hash: (B, string) -> string, links: seq<Link<B>>) {
    links == [] ||
    (&& Chained(hash, Front(links))
     && Last(links).previousHash == Head(Front(links))
     && Last(links).eventHash == hash(Last(links).body, Last(links).previousHash))
  }

  function Extend<B>(hash: (B, string) -> string, links: seq<Link<B>>, body: B): seq<Link<B>> {
    links + [Link(body, Head(links), hash(body, Head(links)))]
  }

  lemma {:induction false} ExtendIsChained<B>(hash: (B, string) -> string, links: seq<Link<B>>, body: B)
    requires Chained(hash, links)
    ensures Chained(hash, Extend(hash, links, body))
  {
    assert Front(Extend(hash, links, body)) == links;
  }

  lemma {:induction false} ChainedPrefix<B>(hash: (B, string) -> string, links: seq<Link<B>>, k: nat)
    requires k <= |links| && Chained(hash, links)
    ensures Chained(hash, links[..k])
    decreases |links|
  {
    if k < |links| {
      ChainedPrefix(hash, Front(links), k);
      assert Front(links)[..k] == links[..k];
    } else {
      assert links[..k] == links;
    }
  }

  /** What being a chain says about one link. */
  lemma {:induction false} ChainedAt<B>(hash: (B, string) -> string, links: seq<Link<B>>, i: nat)
    requires i < |links| && Chained(hash, links)
    ensures Chained(hash, links[..i]) && Chained(hash, links[..i + 1])
    ensures links[i].previousHash == Head(links[..i])
    ensures links[i].eventHash == hash(links[i].body, links[i].previousHash) == Head(links[..i + 1])
  {
    ChainedPrefix(hash, links, i + 1);
    assert Front(links[..i + 1]) == links[..i];
    assert Last(links[..i + 1]) == links[i];
  }

  /** The first link names GENESIS and every other the hash of the link before it, and the link's own
      hash is that of its body and the named one. */
  predicate Linked<B(==)>(hash: (B, string) -> string, links: seq<Link<B>>, i: nat)
    requires i < |links|
  {
    && links[i].previousHash == (if i == 0 then "GENESIS" else links[i - 1].eventHash)
    && links[i].eventHash == hash(links[i].body, links[i].previousHash)
  }

  /** A chain, link by link. */
  lemma {:induction false} ChainedIff<B>(hash: (B, string) -> string, links: seq<Link<B>>)
    ensures Chained(hash, links) <==> forall i :: 0 <= i < |links| ==> Linked(hash, links, i)
  {
    if links != [] {
      var front, n := Front(links), |links| - 1;
      ChainedIff(hash, front);
      assert forall i :: 0 <= i < n ==> Linked(hash, front, i) == Linked(hash, links, i);
      assert Linked(hash, links, n) <==>
        && Last(links).previousHash == Head(front)
        && Last(links).eventHash == hash(Last(links).body, Last(links).previousHash);
    }
  }

  /** Two chains whose heads carry the same hash are the same chain: the head commits to
      every body, every stored hash and the length. */
  lemma {:induction false} HeadCommits<B(!new)>(hash: (B, string) -> string, a: seq<Link<B>>, b: seq<Link<B>>)
    requires Ideal(hash)
    requires Chained(hash, a) && Chained(hash, b)
    requires Head(a) == Head(b)
    ensures a == b
    decreases |a|
  {
    if a != [] && b != [] {
      HeadCommits(hash, Front(a), Front(b));
      assert a == Front(a) + [Last(a)] && b == Front(b) + [Last(b)];
    }
  }

  /** The head hash at any inner position of another chain pins the whole prefix. */
  lemma {:induction false} HeadPinsPrefix<B(!new)>(hash: (B, string) -> string, a: seq<Link<B>>, b: seq<Link<B>>,
                                            i: nat)
    requires Ideal(hash)
    requires Chained(hash, a) && Chained(hash, b)
    requires a != [] && i < |b| && Head(a) == b[i].eventHash
    ensures a == b[..i + 1]
  {
    ChainedAt(hash, b, i);
    HeadCommits(hash, a, b[..i + 1]);
  }

  /** No hash repeats along a chain, by descent to the first link. */
  lemma {:induction false} NoHashRepeats<B(!new)>(hash: (B, string) -> string, links: seq<Link<B>>, i: nat, j: nat)
    requires Ideal(hash) && Chained(hash, links)
    requires i < j < |links|
    ensures links[i].eventHash != links[j].eventHash
    ensures links[i].previousHash != links[j].previousHash
  {
    ChainedAt(hash, links, i);
    ChainedAt(hash, links, j);
    if links[i].eventHash == links[j].eventHash {
      HeadCommits(hash, links[..i + 1], links[..j + 1]);
    }
    if links[i].previousHash == links[j].previousHash {
      HeadCommits(hash, links[..i], links[..j]);
    }
  }
}
