// The list of public keys and the lookup by the first bytes of one (tokens/tokens.go:253-331).
module Keys {
  import opened Common
  import opened Lex

  type PublicKey = seq<byte>

  const KEY_LEN := 32

  predicate HasPrefix(key: PublicKey, prefix: seq<byte>) {
    |prefix| <= |key| && key[..|prefix|] == prefix
  }

  ghost predicate Sorted(keys: seq<PublicKey>) {
    forall i, j :: 0 <= i < j < |keys| ==> AtMost(keys[i], keys[j])
  }

  ghost predicate AllLong(keys: seq<PublicKey>) {
    forall i :: 0 <= i < |keys| ==> |keys[i]| >= KEY_LEN
  }

  // A name as decodeKey leaves it: None if it is not base64. The one banned name is flagged.
  datatype Name = Name(banned: bool, decoded: Option<seq<byte>>)

  predicate Usable(name: Name) {
    !name.banned && name.decoded.Some? && 1 <= |name.decoded.value| < 32
  }

  // The smallest of the keys that start with `prefix`.
  ghost predicate IsFirst(keys: seq<PublicKey>, prefix: seq<byte>, key: PublicKey) {
    && key in keys && HasPrefix(key, prefix)
    && forall other :: other in keys && HasPrefix(other, prefix) ==> AtMost(key, other)
  }

  ghost predicate Known(keys: seq<PublicKey>, prefix: seq<byte>) {
    exists key :: key in keys && HasPrefix(key, prefix)
  }

  // Cut to the prefix's length, the keys of a sorted list are still in order.
  lemma TruncatedSorted(keys: seq<PublicKey>, i: nat, j: nat, n: nat)
    requires Sorted(keys) && AllLong(keys) && i <= j < |keys| && n <= KEY_LEN
    ensures AtMost(keys[i][..n], keys[j][..n])
  {
    if i == j {
      Irreflexive(keys[i][..n]);
    } else {
      TruncationMonotone(keys[i], keys[j], n);
    }
  }

  /** sort.Search for the first key that, cut to length, is not below the prefix. */
  method Search(keys: seq<PublicKey>, prefix: seq<byte>) returns (found: nat)
    requires Sorted(keys) && AllLong(keys) && |prefix| < KEY_LEN
    ensures found <= |keys|
    ensures forall i :: 0 <= i < found ==> Less(keys[i][..|prefix|], prefix)
    ensures forall i :: found <= i < |keys| ==> AtMost(prefix, keys[i][..|prefix|])
  {
    var n := |prefix|;
    var i, j := 0, |keys|;
    while i < j
      invariant 0 <= i <= j <= |keys|
      invariant forall k :: 0 <= k < i ==> Less(keys[k][..n], prefix)
      invariant forall k :: j <= k < |keys| ==> AtMost(prefix, keys[k][..n])
    {
      var h := (i + j) / 2;
      if AtMost(prefix, keys[h][..n]) {
        forall k | h <= k < j ensures AtMost(prefix, keys[k][..n]) {
          TruncatedSorted(keys, h, k, n);
          Transitive(prefix, keys[h][..n], keys[k][..n]);
        }
        j := h;
      } else {
        forall k | i <= k <= h ensures Less(keys[k][..n], prefix) {
          TruncatedSorted(keys, k, h, n);
          Below(keys[k][..n], keys[h][..n], prefix);
        }
        i := h + 1;
      }
    }
    found := i;
  }

  lemma Below(x: seq<byte>, y: seq<byte>, z: seq<byte>)
    requires AtMost(x, y) && Less(y, z)
    ensures Less(x, z)
  {
    Total(x, y);
    Transitive(x, y, z);
  }

  // A key and a shorter string: the key has it as prefix if it is equal to it when cut.
  lemma FirstAtSearch(keys: seq<PublicKey>, prefix: seq<byte>, found: nat, other: nat)
    requires Sorted(keys) && AllLong(keys) && |prefix| < KEY_LEN && found <= |keys|
    requires forall i :: 0 <= i < found ==> Less(keys[i][..|prefix|], prefix)
    requires forall i :: found <= i < |keys| ==> AtMost(prefix, keys[i][..|prefix|])
    requires other < |keys| && HasPrefix(keys[other], prefix)
    ensures found <= other && HasPrefix(keys[found], prefix) && AtMost(keys[found], keys[other])
  {
    Irreflexive(prefix);
    TruncatedSorted(keys, found, other, |prefix|);
    Total(keys[found][..|prefix|], prefix);
    if found == other {
      Irreflexive(keys[found]);
    }
  }

  lemma FirstIsUnique(keys: seq<PublicKey>, prefix: seq<byte>, x: PublicKey, y: PublicKey)
    requires IsFirst(keys, prefix, x) && IsFirst(keys, prefix, y)
    ensures x == y
  {
    Total(x, y);
  }

  class KeyList {
    var keys: seq<PublicKey>

    ghost predicate Valid()
      reads this
    {
      Sorted(keys) && AllLong(keys)
    }

    constructor ()
      ensures Valid() && keys == []
    {
      keys := [];
    }

    /**
     * FindPublicKey: the smallest key that starts with the decoded name, if and only if the
     * name is usable and there is one; otherwise the empty string.
     */
    method FindPublicKey(name: Name) returns (key: PublicKey)
      requires Valid()
      ensures Usable(name) && Known(keys, name.decoded.value) ==> IsFirst(keys, name.decoded.value, key)
      ensures !(Usable(name) && Known(keys, name.decoded.value)) ==> key == []
      ensures key != [] <==> Usable(name) && Known(keys, name.decoded.value)
      ensures key != [] ==>
                !name.banned && name.decoded.Some? && 1 <= |name.decoded.value| < 32 &&
                key[..|name.decoded.value|] == name.decoded.value
    {
      if name.banned || name.decoded.None? || |name.decoded.value| < 1 || |name.decoded.value| >= KEY_LEN {
        return [];
      }
      var prefix := name.decoded.value;
      var found := Search(keys, prefix);
      forall other | 0 <= other < |keys| && HasPrefix(keys[other], prefix)
        ensures found <= other && HasPrefix(keys[found], prefix) && AtMost(keys[found], keys[other])
      {
        FirstAtSearch(keys, prefix, found, other);
      }
      if found >= |keys| {
        return [];
      }
      if HasPrefix(keys[found], prefix) {
        assert keys[found] in keys;
        return keys[found];
      }
      return [];
    }

    /**
     * SavePublicKey: a key is taken if and only if it is long enough, starts with its usable name
     * and is not what that name finds already. A taken key is in the list, which is still sorted
     * and otherwise the same; and from then on its name finds a key.
     */
    method SavePublicKey(name: Name, key: PublicKey) returns (saved: bool)
      requires Valid()
      modifies this
      ensures Valid()
      ensures multiset(keys) == old(multiset(keys)) + if saved then multiset{key} else multiset{}
      ensures !saved ==> keys == old(keys)
      ensures saved <==>
              && !name.banned && name.decoded.Some? && 1 <= |name.decoded.value| < 32
              && |key| >= 32 && key[..|name.decoded.value|] == name.decoded.value
              && !IsFirst(old(keys), name.decoded.value, key)
      ensures saved ==> Known(keys, name.decoded.value)
    {
      saved := false;
      if name.banned {
        return;
      }
      var known := FindPublicKey(name);
      if known == key {
        return;
      }
      if Usable(name) && IsFirst(keys, name.decoded.value, key) {
        assert Known(keys, name.decoded.value);
        FirstIsUnique(keys, name.decoded.value, known, key);
      }
      if name.decoded.None? || |name.decoded.value| < 1 || |name.decoded.value| >= KEY_LEN {
        return;
      }
      if !HasPrefix(key, name.decoded.value) {
        return;
      }
      if |key| < KEY_LEN {
        return;
      }
      InsertSorted(keys, key);
      InsertContents(keys, key);
      StillLong(keys, key);
      keys := Insert(keys, key);
      saved := true;
      assert key in multiset(keys);
      assert key in keys;
    }
  }

  /** Append and sort, on a list that is sorted already: the key lands in its place. */
  function Insert(keys: seq<PublicKey>, key: PublicKey): seq<PublicKey>
  {
    if keys == [] || AtMost(key, keys[0]) then [key] + keys else [keys[0]] + Insert(keys[1..], key)
  }

  lemma StillLong(keys: seq<PublicKey>, key: PublicKey)
    requires AllLong(keys) && |key| >= KEY_LEN
    ensures AllLong(Insert(keys, key))
  {
    InsertContents(keys, key);
    var after := Insert(keys, key);
    forall i | 0 <= i < |after| ensures |after[i]| >= KEY_LEN {
      assert after[i] in multiset(after);
      assert after[i] == key || after[i] in keys;
    }
  }

  lemma Flip(x: PublicKey, y: PublicKey)
    requires !AtMost(x, y)
    ensures AtMost(y, x)
  {
    Total(x, y);
  }

  lemma Same(x: PublicKey)
    ensures AtMost(x, x)
  {
    Irreflexive(x);
  }

  lemma {:induction false} InsertContents(keys: seq<PublicKey>, key: PublicKey)
    ensures multiset(Insert(keys, key)) == multiset(keys) + multiset{key}
  {
    hide AtMost;
    if keys != [] {
      InsertContents(keys[1..], key);
      assert keys == [keys[0]] + keys[1..];
    }
  }

  // A first element not above any of the rest keeps a sorted list sorted.
  lemma SortedCons(first: PublicKey, rest: seq<PublicKey>)
    requires Sorted(rest) && forall k :: k in rest ==> AtMost(first, k)
    ensures Sorted([first] + rest)
  {
    hide AtMost;
    var all := [first] + rest;
    forall i, j | 0 <= i < j < |all| ensures AtMost(all[i], all[j]) {
      assert all[j] == rest[j - 1] && rest[j - 1] in rest;
    }
  }

  lemma {:induction false} InsertSorted(keys: seq<PublicKey>, key: PublicKey)
    requires Sorted(keys)
    ensures Sorted(Insert(keys, key))
  {
    hide AtMost;
    if keys != [] {
      var tail := keys[1..];
      forall k | k in keys ensures AtMost(keys[0], k) {
        Same(keys[0]);
      }
      if AtMost(key, keys[0]) {
        forall k | k in keys ensures AtMost(key, k) {
          Transitive(key, keys[0], k);
        }
        SortedCons(key, keys);
      } else {
        InsertSorted(tail, key);
        InsertContents(tail, key);
        Flip(key, keys[0]);
        forall k | k in Insert(tail, key) ensures AtMost(keys[0], k) {
          assert k in multiset(tail) + multiset{key};
          assert k == key || k in tail;
        }
        SortedCons(keys[0], Insert(tail, key));
      }
    } else {
      assert Insert(keys, key) == [key];
    }
  }
}
