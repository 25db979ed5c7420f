// How contacts get the keys by which topics know them (iot/contacts.go:183-202, 244-254).
module Contacts {
  import opened Hashes

  /** The key of the contact registered after `n` others: a 64-bit sum that wraps around. */
  function KeyOf(base: Word, n: nat): Word {
    (base + 1 + n) % TWO_TO_THE_64
  }

  /** Two contacts registered with one node share a key only if 2^64 registrations lie between. */
  lemma KeysDistinct(base: Word, m: nat, n: nat)
    requires m <= n
    ensures KeyOf(base, m) == KeyOf(base, n) <==> (n - m) % TWO_TO_THE_64 == 0
  {
    var x, y := base + 1 + m, base + 1 + n;
    var q, r := x / TWO_TO_THE_64, y / TWO_TO_THE_64;
    assert x == q * TWO_TO_THE_64 + x % TWO_TO_THE_64 && y == r * TWO_TO_THE_64 + y % TWO_TO_THE_64;
    if x % TWO_TO_THE_64 == y % TWO_TO_THE_64 {
      assert n - m == (r - q) * TWO_TO_THE_64;
    }
  }

  lemma Wrap(x: nat)
    ensures (x % TWO_TO_THE_64 + 1) % TWO_TO_THE_64 == (x + 1) % TWO_TO_THE_64
  {
  }

  lemma WrapSum(base: Word, x: nat)
    ensures (x % TWO_TO_THE_64 + base) % TWO_TO_THE_64 == (x + base) % TWO_TO_THE_64
  {
  }

  // What one node keeps about its contacts. `issued` counts the keys given out.
  class ContactStructConfig {
    const key: Word
    var sequence: Word
    var list: seq<Word>
    ghost var issued: nat

    ghost predicate Valid()
      reads this
    {
      sequence == (1 + issued) % TWO_TO_THE_64
    }

    constructor (key: Word)
      ensures Valid() && issued == 0 && list == [] && this.key == key
    {
      this.key := key;
      sequence, list, issued := 1, [], 0;
    }

    /** AddContactStruct: a contact without a key gets the next one, any other keeps its own. */
    method AddContactStruct(preset: Word) returns (k: Word)
      requires Valid()
      modifies this
      ensures Valid() && list == old(list) + [k]
      ensures preset != 0 ==> k == preset && issued == old(issued)
      ensures preset == 0 ==> k == KeyOf(key, old(issued)) && issued == old(issued) + 1
      ensures preset == 0 ==> k == (key + old(sequence)) % 0x1_0000_0000_0000_0000
      ensures sequence == if preset == 0 then (old(sequence) + 1) % 0x1_0000_0000_0000_0000 else old(sequence)
    {
      k := preset;
      if k == 0 {
        var seqno := sequence;
        Wrap(1 + issued);
        WrapSum(key, 1 + issued);
        sequence := (sequence + 1) % TWO_TO_THE_64;
        k := (seqno + key) % TWO_TO_THE_64;
        issued := issued + 1;
      }
      list := list + [k];
    }
  }
}
