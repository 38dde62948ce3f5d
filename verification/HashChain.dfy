/** Hash chains in general: what an anchor (a count and a head) determines.

    `seal` is the hash of an entry's content and `link` the predecessor hash the
    entry carries.  Nothing is assumed about `seal`: where two chains differ, the
    lemmas hand back the colliding pair. */
module HashChain {

  /** A digest is the number written by its 64 lowercase hexadecimal digits. */
  type Digest = x: nat | x < DIGESTS

  /** 16^64 */
  const DIGESTS: nat := 0x10000000000000000000000000000000000000000000000000000000000000000

  /** The genesis hash is sixty-four zeros. */
  const GENESIS: Digest := 0

  function Head<E>(seal: E -> Digest, entries: seq<E>): Digest
  {
    if |entries| == 0 then GENESIS else seal(entries[|entries| - 1])
  }

  /** Every entry carries the hash of the one before it, the first the genesis hash. */
  ghost predicate Linked<E>(seal: E -> Digest, link: E -> Digest, entries: seq<E>)
  {
    forall i :: 0 <= i < |entries| ==> link(entries[i]) == Head(seal, entries[..i])
  }

  /** Two different contents with one hash. */
  ghost predicate Collides<E>(seal: E -> Digest, x: E, y: E)
  {
    x != y && seal(x) == seal(y)
  }

  /** Two linked chains with the same length and head are equal entry for entry, or
      some index exhibits a collision of the hash: mutating, deleting, inserting or
      reordering entries cannot keep the anchor. */
  lemma {:induction false} SameAnchorSameEntries<E>(seal: E -> Digest, link: E -> Digest, a: seq<E>, b: seq<E>)
    requires Linked(seal, link, a) && Linked(seal, link, b)
    requires |a| == |b| && Head(seal, a) == Head(seal, b)
    ensures a == b || exists i :: 0 <= i < |a| && Collides(seal, a[i], b[i])
    decreases |a|
  {
    if |a| > 0 {
      var n := |a| - 1;
      if a[n] == b[n] {
        LinkedPrefix(seal, link, a, n);
        LinkedPrefix(seal, link, b, n);
        SameAnchorSameEntries(seal, link, a[..n], b[..n]);
        if a[..n] == b[..n] {
          assert a == a[..n] + [a[n]] && b == b[..n] + [b[n]];
        } else {
          var i :| 0 <= i < n && Collides(seal, a[..n][i], b[..n][i]);
          assert Collides(seal, a[i], b[i]);
        }
      } else {
        assert Collides(seal, a[n], b[n]);
      }
    }
  }

  lemma LinkedPrefix<E>(seal: E -> Digest, link: E -> Digest, entries: seq<E>, n: nat)
    requires n <= |entries| && Linked(seal, link, entries)
    ensures Linked(seal, link, entries[..n])
    ensures n > 0 ==> link(entries[n - 1]) == Head(seal, entries[..n - 1])
  {
    forall i | 0 <= i < n
      ensures link(entries[..n][i]) == Head(seal, entries[..n][..i])
    {
      assert entries[..n][..i] == entries[..i];
    }
  }

  lemma LinkedAppend<E>(seal: E -> Digest, link: E -> Digest, entries: seq<E>, e: E)
    requires Linked(seal, link, entries) && link(e) == Head(seal, entries)
    ensures Linked(seal, link, entries + [e])
    ensures Head(seal, entries + [e]) == seal(e)
  {
    forall i | 0 <= i <= |entries|
      ensures link((entries + [e])[i]) == Head(seal, (entries + [e])[..i])
    {
      assert (entries + [e])[..i] == entries[..i];
      assert entries[..|entries|] == entries;
    }
  }
}
