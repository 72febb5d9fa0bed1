/**
 * Lookups and removals by key on the app's lists of records: Swift's
 * `firstIndex(where: { $0.id == id })` and `removeAll { $0.id == id }`. Each record type gives its
 * key as a projection (its id, its name), and every list in the app shares these definitions.
 */
module Lists {
  import opened Wrappers

  /** The first position whose element has key `x`, or None when no element has it. */
  function IndexOfKey<T, K(==)>(s: seq<T>, key: T -> K, x: K): (r: Option<nat>)
    ensures r.Some? ==> r.value < |s| && key(s[r.value]) == x
    ensures r.Some? ==> forall k :: 0 <= k < r.value ==> key(s[k]) != x
    ensures r.None? ==> forall k :: 0 <= k < |s| ==> key(s[k]) != x
  {
    if s == [] then None
    else if key(s[0]) == x then Some(0)
    else match IndexOfKey(s[1..], key, x)
      case None => None
      case Some(k) => Some(k + 1)
  }

  /** Lists with the same keys at the same places find a key at the same place. */
  lemma IndexOfSameKeys<T, K>(a: seq<T>, b: seq<T>, key: T -> K, x: K)
    requires |a| == |b| && forall k :: 0 <= k < |a| ==> key(a[k]) == key(b[k])
    ensures IndexOfKey(a, key, x) == IndexOfKey(b, key, x)
  {
    var ra, rb := IndexOfKey(a, key, x), IndexOfKey(b, key, x);
    if ra.Some? {
      assert key(b[ra.value]) == x;
    }
    if rb.Some? {
      assert key(a[rb.value]) == x;
    }
  }

  /** The elements whose key is not `x`, in their order. */
  function WithoutKey<T, K(==)>(s: seq<T>, key: T -> K, x: K): (r: seq<T>)
    ensures |r| <= |s|
    ensures forall k :: 0 <= k < |r| ==> key(r[k]) != x
  {
    if s == [] then [] else (if key(s[0]) != x then [s[0]] else []) + WithoutKey(s[1..], key, x)
  }

  /** Removal keeps every element with another key, and only those. */
  lemma {:induction false} WithoutKeyMembers<T, K>(s: seq<T>, key: T -> K, x: K)
    ensures forall y :: y in WithoutKey(s, key, x) <==> y in s && key(y) != x
  {
    if s != [] {
      WithoutKeyMembers(s[1..], key, x);
      assert s == [s[0]] + s[1..];
    }
  }

  /** Removal from a joined list is removal from each part, in order. */
  lemma {:induction false} WithoutKeyAppend<T, K>(a: seq<T>, b: seq<T>, key: T -> K, x: K)
    ensures WithoutKey(a + b, key, x) == WithoutKey(a, key, x) + WithoutKey(b, key, x)
  {
    if a == [] {
      assert a + b == b;
    } else {
      assert (a + b)[1..] == a[1..] + b;
      WithoutKeyAppend(a[1..], b, key, x);
    }
  }

  /** Removing a key no element has changes nothing. */
  lemma {:induction false} WithoutAbsentKey<T, K>(s: seq<T>, key: T -> K, x: K)
    requires forall k :: 0 <= k < |s| ==> key(s[k]) != x
    ensures WithoutKey(s, key, x) == s
  {
    if s != [] {
      assert forall k :: 0 <= k < |s| - 1 ==> key(s[1..][k]) != x by {
        forall k | 0 <= k < |s| - 1 ensures key(s[1..][k]) != x {
          assert s[1..][k] == s[k + 1];
        }
      }
      WithoutAbsentKey(s[1..], key, x);
    }
  }
}
