// PadKeymap: the fixed keyboard layout that triggers pads 1..16, four rows
// of four letter keys, built once and only looked up afterwards.
module PadKeymap {

  /** A keyboard key: a letter key by its letter, any other key by its code. */
  datatype Key = Letter(c: char) | OtherKey(code: int)

  /** The layout read row by row: Q W E R, A S D F, Z X C V, T G B N. */
  const LAYOUT: string := "QWERASDFZXCVTGBN"

  /** CreateDefaultOptionB_OneBased: the one-based pad number of each layout key. */
  function DefaultOptionB(): map<Key, int>
  {
    map[
      Letter('Q') := 1, Letter('W') := 2, Letter('E') := 3, Letter('R') := 4,
      Letter('A') := 5, Letter('S') := 6, Letter('D') := 7, Letter('F') := 8,
      Letter('Z') := 9, Letter('X') := 10, Letter('C') := 11, Letter('V') := 12,
      Letter('T') := 13, Letter('G') := 14, Letter('B') := 15, Letter('N') := 16]
  }

  /** The key that triggers pad `n`: the n-th key of the layout. */
  function KeyFor(n: int): Key
    requires 1 <= n <= 16
  {
    Letter(LAYOUT[n - 1])
  }

  /** The sixteen layout letters are distinct. */
  lemma LayoutDistinct()
    ensures |LAYOUT| == 16
    ensures forall i, j :: 0 <= i < j < 16 ==> LAYOUT[i] != LAYOUT[j]
  {
  }

  /** Every pad number's layout key is in the table and maps back to that number. */
  lemma {:induction false} EveryPadHasItsKey()
    ensures forall n :: 1 <= n <= 16 ==> KeyFor(n) in DefaultOptionB() && DefaultOptionB()[KeyFor(n)] == n
  {
    var m := DefaultOptionB();
    forall n | 1 <= n <= 16
      ensures KeyFor(n) in m && m[KeyFor(n)] == n
    {
      if n <= 8 {
        if n <= 4 { assert n == 1 || n == 2 || n == 3 || n == 4; }
        else { assert n == 5 || n == 6 || n == 7 || n == 8; }
      } else {
        if n <= 12 { assert n == 9 || n == 10 || n == 11 || n == 12; }
        else { assert n == 13 || n == 14 || n == 15 || n == 16; }
      }
    }
  }

  /** Every key in the table is the layout key of its pad number, which lies in 1..16. */
  lemma EveryKeyIsLayoutKey()
    ensures forall k :: k in DefaultOptionB() ==> 1 <= DefaultOptionB()[k] <= 16 && k == KeyFor(DefaultOptionB()[k])
  {
  }

  /** The layout keys in pad order. */
  function LayoutKeys(): (ks: seq<Key>)
    ensures |ks| == 16 && forall i :: 0 <= i < 16 ==> ks[i] == KeyFor(i + 1)
  {
    seq(16, i requires 0 <= i < 16 => KeyFor(i + 1))
  }

  predicate Distinct(ks: seq<Key>)
  {
    forall i, j :: 0 <= i < j < |ks| ==> ks[i] != ks[j]
  }

  /** A sequence without repeats has as many distinct elements as entries. */
  lemma {:induction false} DistinctCount(ks: seq<Key>)
    requires Distinct(ks)
    ensures |set k | k in ks| == |ks|
  {
    if |ks| > 0 {
      var rest := ks[1..];
      assert Distinct(rest) by {
        forall i, j | 0 <= i < j < |rest|
          ensures rest[i] != rest[j]
        {
          assert rest[i] == ks[i + 1] && rest[j] == ks[j + 1];
        }
      }
      DistinctCount(rest);
      assert (set k | k in ks) == (set k | k in rest) + {ks[0]};
      assert ks[0] !in (set k | k in rest) by {
        forall i | 0 <= i < |rest|
          ensures rest[i] != ks[0]
        {
          assert rest[i] == ks[i + 1];
        }
      }
    }
  }

  /**
   * The table is the layout, one to one: every pad number 1..16 has its
   * layout key, every mapped key is the layout key of its number, the
   * mapped numbers are exactly 1..16, no two keys share a number, and
   * exactly sixteen keys are mapped.
   */
  lemma TableIsLayout()
    ensures forall n :: 1 <= n <= 16 ==> KeyFor(n) in DefaultOptionB() && DefaultOptionB()[KeyFor(n)] == n
    ensures forall k :: k in DefaultOptionB() ==> k == KeyFor(DefaultOptionB()[k])
    ensures forall v :: v in DefaultOptionB().Values <==> 1 <= v <= 16
    ensures forall k1, k2 :: k1 in DefaultOptionB() && k2 in DefaultOptionB() && DefaultOptionB()[k1] == DefaultOptionB()[k2] ==> k1 == k2
    ensures |DefaultOptionB()| == 16
  {
    var m := DefaultOptionB();
    var ks := LayoutKeys();
    EveryPadHasItsKey();
    EveryKeyIsLayoutKey();
    LayoutDistinct();
    forall v | 1 <= v <= 16
      ensures v in m.Values
    {
      assert m[KeyFor(v)] == v;
    }
    assert Distinct(ks) by {
      forall i, j | 0 <= i < j < 16
        ensures ks[i] != ks[j]
      {
        assert ks[i] == Letter(LAYOUT[i]) && ks[j] == Letter(LAYOUT[j]);
      }
    }
    DistinctCount(ks);
    assert m.Keys == set k | k in ks by {
      forall k | k in m.Keys
        ensures k in ks
      {
        assert ks[m[k] - 1] == k;
      }
      forall k | k in ks
        ensures k in m.Keys
      {
        var i :| 0 <= i < 16 && ks[i] == k;
        assert KeyFor(i + 1) in m;
      }
    }
  }

  /** The keymap object: the table is a constant, so it never changes after construction. */
  class Keymap {
    const table: map<Key, int>

    constructor ()
      ensures table == DefaultOptionB()
    {
      table := DefaultOptionB();
    }

    /** TryGetPadNumber: found exactly for a mapped key, with its pad number; `out` gets 0 otherwise. */
    method TryGetPadNumber(key: Key) returns (found: bool, padNumber: int)
      ensures found <==> key in table
      ensures found ==> padNumber == table[key]
      ensures !found ==> padNumber == 0
    {
      if key in table {
        return true, table[key];
      }
      return false, 0;
    }
  }

  /** On the default table a lookup succeeds exactly for the layout keys, giving the key's pad number. */
  lemma LookupFacts(key: Key)
    ensures key in DefaultOptionB() <==> exists n :: 1 <= n <= 16 && key == KeyFor(n)
    ensures key.OtherKey? ==> key !in DefaultOptionB()
  {
    EveryPadHasItsKey();
    if key in DefaultOptionB() {
      EveryKeyIsLayoutKey();
      var n := DefaultOptionB()[key];
      assert 1 <= n <= 16 && key == KeyFor(n);
    }
  }

  /** The four rows of the layout, top to bottom. */
  const ROWS: seq<string> := ["QWER", "ASDF", "ZXCV", "TGBN"]

  /** The key in row r, column c (both from 0) triggers pad 4r + c + 1. */
  lemma RowsAndColumns(r: int, c: int)
    requires 0 <= r < 4 && 0 <= c < 4
    ensures |ROWS[r]| == 4
    ensures DefaultOptionB()[Letter(ROWS[r][c])] == 4 * r + c + 1
  {
    EveryPadHasItsKey();
    assert ROWS[r][c] == LAYOUT[4 * r + c];
    assert KeyFor(4 * r + c + 1) == Letter(ROWS[r][c]);
  }
}
