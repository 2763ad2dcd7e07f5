/**
 * `CTCSS_Tones`: the radio's tone numbers for the 42 standard CTCSS tone
 * frequencies, keyed by the frequency written exactly as the user types it.
 */
module ToneTable {

  /** The dictionary's 42 entries in the order they are written, seven to a
      row. */
  const ToneEntries: seq<(string, string)> :=
    [("67.0", "00"), ("69.3", "01"), ("71.9", "02"), ("74.4", "03"), ("77.0", "04"), ("79.7", "05"), ("82.5", "06")] +
    [("85.4", "07"), ("88.5", "08"), ("91.5", "09"), ("94.8", "10"), ("97.4", "11"), ("100.0", "12"), ("103.5", "13")] +
    [("107.2", "14"), ("110.9", "15"), ("114.8", "16"), ("118.8", "17"), ("123.0", "18"), ("127.3", "19"), ("131.8", "20")] +
    [("136.5", "21"), ("141.3", "22"), ("146.2", "23"), ("151.4", "24"), ("156.7", "25"), ("162.2", "26"), ("167.9", "27")] +
    [("173.8", "28"), ("179.9", "29"), ("186.2", "30"), ("192.8", "31"), ("203.5", "32"), ("206.5", "33"), ("210.7", "34")] +
    [("218.1", "35"), ("225.7", "36"), ("229.1", "37"), ("233.6", "38"), ("241.8", "39"), ("250.3", "40"), ("254.1", "41")]

  /** A dictionary display: each entry in turn, a later entry overriding an
      earlier one with the same key. */
  function MapOf(entries: seq<(string, string)>): map<string, string> {
    if entries == [] then map[]
    else MapOf(entries[..|entries| - 1])[entries[|entries| - 1].0 := entries[|entries| - 1].1]
  }

  /** `CTCSS_Tones`. */
  const CtcssTones: map<string, string> := MapOf(ToneEntries)

  /** The two-digit decimal rendering of `n`, as the radio numbers its tones. */
  function TwoDigits(n: nat): (s: string)
    requires n < 100
    ensures |s| == 2 && '0' <= s[0] <= '9' && '0' <= s[1] <= '9'
  {
    ['0' + (n / 10) as char, '0' + (n % 10) as char]
  }

  lemma TwoDigitsInjective(m: nat, n: nat)
    requires m < 100 && n < 100 && TwoDigits(m) == TwoDigits(n)
    ensures m == n
  {
    assert TwoDigits(m)[0] == TwoDigits(n)[0] && TwoDigits(m)[1] == TwoDigits(n)[1];
  }

  /** `a` is below `b` comparing character by character from position `i`. */
  predicate LexBelow(a: string, b: string, i: nat)
    decreases |a| - i
  {
    i < |a| && i < |b| && (a[i] < b[i] || (a[i] == b[i] && LexBelow(a, b, i + 1)))
  }

  /** Order of tone frequencies written with one decimal: a shorter string is
      a lower frequency, and equal lengths compare digit by digit. */
  predicate Precedes(a: string, b: string) {
    |a| < |b| || (|a| == |b| && LexBelow(a, b, 0))
  }

  lemma {:induction false} LexBelowIrreflexive(a: string, i: nat)
    ensures !LexBelow(a, a, i)
    decreases |a| - i
  {
    if i < |a| {
      LexBelowIrreflexive(a, i + 1);
    }
  }

  lemma {:induction false} LexBelowTransitive(a: string, b: string, c: string, i: nat)
    requires LexBelow(a, b, i) && LexBelow(b, c, i)
    ensures LexBelow(a, c, i)
    decreases |a| - i
  {
    if a[i] == b[i] && b[i] == c[i] {
      LexBelowTransitive(a, b, c, i + 1);
    }
  }

  lemma PrecedesTransitive(a: string, b: string, c: string)
    requires Precedes(a, b) && Precedes(b, c)
    ensures Precedes(a, c)
  {
    if |a| == |b| == |c| {
      LexBelowTransitive(a, b, c, 0);
    }
  }

  /** Entry `i` holds tone number `i`, and its key precedes the next entry's. */
  predicate EntryInOrder(entries: seq<(string, string)>, i: nat)
    requires i < |entries|
  {
    i < 100 && entries[i].1 == TwoDigits(i) &&
    (i + 1 < |entries| ==> Precedes(entries[i].0, entries[i + 1].0))
  }

  /** Entries whose keys strictly ascend and whose values count up from "00". */
  predicate Numbered(entries: seq<(string, string)>) {
    forall i :: 0 <= i < |entries| ==> EntryInOrder(entries, i)
  }

  lemma EntriesInOrder0()
    ensures |ToneEntries| == 42
    ensures EntryInOrder(ToneEntries, 0) && EntryInOrder(ToneEntries, 1) && EntryInOrder(ToneEntries, 2)
    ensures EntryInOrder(ToneEntries, 3) && EntryInOrder(ToneEntries, 4) && EntryInOrder(ToneEntries, 5)
    ensures EntryInOrder(ToneEntries, 6)
  {
  }

  lemma EntriesInOrder1()
    ensures |ToneEntries| == 42
    ensures EntryInOrder(ToneEntries, 7) && EntryInOrder(ToneEntries, 8) && EntryInOrder(ToneEntries, 9)
    ensures EntryInOrder(ToneEntries, 10) && EntryInOrder(ToneEntries, 11) && EntryInOrder(ToneEntries, 12)
    ensures EntryInOrder(ToneEntries, 13)
  {
  }

  lemma EntriesInOrder2()
    ensures |ToneEntries| == 42
    ensures EntryInOrder(ToneEntries, 14) && EntryInOrder(ToneEntries, 15) && EntryInOrder(ToneEntries, 16)
    ensures EntryInOrder(ToneEntries, 17) && EntryInOrder(ToneEntries, 18) && EntryInOrder(ToneEntries, 19)
    ensures EntryInOrder(ToneEntries, 20)
  {
  }

  lemma EntriesInOrder3()
    ensures |ToneEntries| == 42
    ensures EntryInOrder(ToneEntries, 21) && EntryInOrder(ToneEntries, 22) && EntryInOrder(ToneEntries, 23)
    ensures EntryInOrder(ToneEntries, 24) && EntryInOrder(ToneEntries, 25) && EntryInOrder(ToneEntries, 26)
    ensures EntryInOrder(ToneEntries, 27)
  {
  }

  lemma EntriesInOrder4()
    ensures |ToneEntries| == 42
    ensures EntryInOrder(ToneEntries, 28) && EntryInOrder(ToneEntries, 29) && EntryInOrder(ToneEntries, 30)
    ensures EntryInOrder(ToneEntries, 31) && EntryInOrder(ToneEntries, 32) && EntryInOrder(ToneEntries, 33)
    ensures EntryInOrder(ToneEntries, 34)
  {
  }

  lemma EntriesInOrder5()
    ensures |ToneEntries| == 42
    ensures EntryInOrder(ToneEntries, 35) && EntryInOrder(ToneEntries, 36) && EntryInOrder(ToneEntries, 37)
    ensures EntryInOrder(ToneEntries, 38) && EntryInOrder(ToneEntries, 39) && EntryInOrder(ToneEntries, 40)
    ensures EntryInOrder(ToneEntries, 41)
  {
  }

  /** The table as written is numbered: keys ascend, values count "00".."41". */
  lemma ToneEntriesNumbered()
    ensures |ToneEntries| == 42 && Numbered(ToneEntries)
  {
    EntriesInOrder0();
    forall i | 0 <= i < 42 ensures EntryInOrder(ToneEntries, i) {
      if i < 7 {
        EntriesInOrder0();
        assert i == 0 || i == 1 || i == 2 || i == 3 || i == 4 || i == 5 || i == 6;
      } else if i < 14 {
        EntriesInOrder1();
        assert i == 7 || i == 8 || i == 9 || i == 10 || i == 11 || i == 12 || i == 13;
      } else if i < 21 {
        EntriesInOrder2();
        assert i == 14 || i == 15 || i == 16 || i == 17 || i == 18 || i == 19 || i == 20;
      } else if i < 28 {
        EntriesInOrder3();
        assert i == 21 || i == 22 || i == 23 || i == 24 || i == 25 || i == 26 || i == 27;
      } else if i < 35 {
        EntriesInOrder4();
        assert i == 28 || i == 29 || i == 30 || i == 31 || i == 32 || i == 33 || i == 34;
      } else {
        EntriesInOrder5();
        assert i == 35 || i == 36 || i == 37 || i == 38 || i == 39 || i == 40 || i == 41;
      }
    }
  }

  /** In numbered entries every earlier key precedes every later one. */
  lemma {:induction false} NumberedAscending(entries: seq<(string, string)>, i: nat, j: nat)
    requires Numbered(entries) && i < j < |entries|
    ensures Precedes(entries[i].0, entries[j].0)
    decreases j - i
  {
    assert EntryInOrder(entries, i);
    if i + 1 < j {
      NumberedAscending(entries, i + 1, j);
      PrecedesTransitive(entries[i].0, entries[i + 1].0, entries[j].0);
    }
  }

  /** Keys that are pairwise distinct. */
  predicate DistinctKeys(entries: seq<(string, string)>) {
    forall i, j :: 0 <= i < j < |entries| ==> entries[i].0 != entries[j].0
  }

  lemma NumberedDistinct(entries: seq<(string, string)>)
    requires Numbered(entries)
    ensures DistinctKeys(entries)
  {
    forall i, j | 0 <= i < j < |entries| ensures entries[i].0 != entries[j].0 {
      NumberedAscending(entries, i, j);
      if entries[i].0 == entries[j].0 {
        LexBelowIrreflexive(entries[i].0, 0);
      }
    }
  }

  /** A key is in the dictionary exactly when some entry has it. */
  lemma {:induction false} MapOfKeys(entries: seq<(string, string)>, k: string)
    ensures k in MapOf(entries) <==> exists i :: 0 <= i < |entries| && entries[i].0 == k
    decreases |entries|
  {
    if entries != [] {
      var front := entries[..|entries| - 1];
      MapOfKeys(front, k);
      if k in MapOf(front) {
        var i :| 0 <= i < |front| && front[i].0 == k;
        assert entries[i].0 == k;
      }
      if exists i :: 0 <= i < |entries| && entries[i].0 == k {
        var i :| 0 <= i < |entries| && entries[i].0 == k;
        if i < |front| {
          assert front[i].0 == k;
        }
      }
    }
  }

  /** With distinct keys, every entry survives in the dictionary. */
  lemma {:induction false} MapOfLookup(entries: seq<(string, string)>, i: nat)
    requires DistinctKeys(entries) && i < |entries|
    ensures entries[i].0 in MapOf(entries) && MapOf(entries)[entries[i].0] == entries[i].1
    decreases |entries|
  {
    var front := entries[..|entries| - 1];
    if i < |entries| - 1 {
      MapOfLookup(front, i);
    }
  }

  /** With distinct keys, the dictionary has one key per entry. */
  lemma {:induction false} MapOfSize(entries: seq<(string, string)>)
    requires DistinctKeys(entries)
    ensures |MapOf(entries)| == |entries|
    decreases |entries|
  {
    if entries != [] {
      var front := entries[..|entries| - 1];
      var last := entries[|entries| - 1].0;
      MapOfSize(front);
      MapOfKeys(front, last);
      assert last !in MapOf(front);
    }
  }

  /** Every key of the table maps to the number of its position. */
  lemma ToneLookup(k: string)
    requires k in CtcssTones
    ensures exists i :: 0 <= i < 42 && ToneEntries[i].0 == k && CtcssTones[k] == TwoDigits(i)
  {
    ToneEntriesNumbered();
    NumberedDistinct(ToneEntries);
    MapOfKeys(ToneEntries, k);
    var i :| 0 <= i < |ToneEntries| && ToneEntries[i].0 == k;
    MapOfLookup(ToneEntries, i);
    assert EntryInOrder(ToneEntries, i);
  }

  /** Conversely, every listed tone is a key and maps to its position. */
  lemma ToneAt(i: nat)
    requires i < 42
    ensures ToneEntries[i].0 in CtcssTones && CtcssTones[ToneEntries[i].0] == TwoDigits(i)
  {
    ToneEntriesNumbered();
    NumberedDistinct(ToneEntries);
    MapOfLookup(ToneEntries, i);
    assert EntryInOrder(ToneEntries, i);
  }

  /** The table has 42 tones; its values are exactly "00" to "41"; and no two
      tones share a number. */
  lemma ToneTableShape()
    ensures |CtcssTones| == 42
    ensures CtcssTones.Values == set n | 0 <= n < 42 :: TwoDigits(n)
    ensures forall a, b :: a in CtcssTones && b in CtcssTones && CtcssTones[a] == CtcssTones[b] ==> a == b
  {
    ToneEntriesNumbered();
    NumberedDistinct(ToneEntries);
    MapOfSize(ToneEntries);
    forall v | v in CtcssTones.Values ensures v in set n | 0 <= n < 42 :: TwoDigits(n) {
      var k :| k in CtcssTones && CtcssTones[k] == v;
      ToneLookup(k);
    }
    forall n | 0 <= n < 42 ensures TwoDigits(n) in CtcssTones.Values {
      MapOfLookup(ToneEntries, n);
      assert EntryInOrder(ToneEntries, n);
      assert CtcssTones[ToneEntries[n].0] == TwoDigits(n);
    }
    forall a, b | a in CtcssTones && b in CtcssTones && CtcssTones[a] == CtcssTones[b] ensures a == b {
      ToneLookup(a);
      ToneLookup(b);
      var i :| 0 <= i < 42 && ToneEntries[i].0 == a && CtcssTones[a] == TwoDigits(i);
      var j :| 0 <= j < 42 && ToneEntries[j].0 == b && CtcssTones[b] == TwoDigits(j);
      TwoDigitsInjective(i, j);
    }
  }
}
