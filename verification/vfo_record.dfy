/**
 * The VFO record `VF fffffffff,s,h,r,t,c,d,ee,dd,ccc,oooooooo,n,b` that the
 * radio reports in answer to `VF` and accepts back as a command, and the two
 * fixed-offset splices the controller applies to it.
 */
module VfoRecord {
  import opened PyStr

  /** The record's fields, in order. */
  datatype Field =
    | Freq | Step | Shift | Reverse | Tone | Ctcss | Dcs | Enc | Dec | DcsCode | Offset | Narrow | BeatShift

  /** The character positions `[lo, hi)` each field occupies. */
  function Span(f: Field): (span: (nat, nat))
    ensures span.0 < span.1 <= RecordLength
  {
    match f
    case Freq => (3, 13)
    case Step => (14, 15)
    case Shift => (16, 17)
    case Reverse => (18, 19)
    case Tone => (20, 21)
    case Ctcss => (22, 23)
    case Dcs => (24, 25)
    case Enc => (26, 28)
    case Dec => (29, 31)
    case DcsCode => (32, 35)
    case Offset => (36, 44)
    case Narrow => (45, 46)
    case BeatShift => (47, 48)
  }

  /** Length of a complete record, command mnemonic included. */
  const RecordLength: nat := 48

  /** Positions of the commas between the fields. */
  predicate IsSeparator(i: nat) {
    i == 13 || i == 15 || i == 17 || i == 19 || i == 21 || i == 23 || i == 25 ||
    i == 28 || i == 31 || i == 35 || i == 44 || i == 46
  }

  /** A record laid out as documented: mnemonic, then thirteen fields at their
      fixed positions separated by commas. */
  predicate WellFormed(rec: string) {
    |rec| == RecordLength && rec[..3] == "VF " &&
    forall i :: 0 <= i < |rec| && IsSeparator(i) ==> rec[i] == ','
  }

  /** The text of field `f`. */
  function Get(rec: string, f: Field): string
    requires |rec| >= RecordLength
  {
    rec[Span(f).0 .. Span(f).1]
  }

  /** The decimal text of a 0/1 flag. */
  type Bit = b: int | 0 <= b <= 1

  function Str(b: Bit): (s: string)
    ensures |s| == 1 && s[0] as int - '0' as int == b
  {
    if b == 0 then "0" else "1"
  }

  /** A line read from the radio without its trailing carriage return, if it has one. */
  function StripCR(current: string): string {
    if current != [] && current[|current| - 1] == '\r' then current[..|current| - 1] else current
  }

  /** Stripping removes exactly the line terminator: a line with its carriage
      return comes back as the line, a line without one comes back unchanged,
      and stripping never lengthens a line. */
  lemma StripCRUndoesTerminator(line: string)
    ensures StripCR(line + "\r") == line
    ensures (line == [] || line[|line| - 1] != '\r') ==> StripCR(line) == line
    ensures |StripCR(line)| <= |line| && StripCR(line) == line[..|StripCR(line)|]
  {
    assert (line + "\r")[..|line|] == line;
  }

  /** The record `vfoSelect` writes back: the new frequency, step
      0, the new shift, and tone, CTCSS and DCS switched off. */
  function FrequencyRecord(current: string, freq: string, shift: char): string {
    Slice(current, 0, 3) + freq + ",0," + [shift] + Slice(current, 17, 20) + "0,0,0" + From(current, 25)
  }

  /** The record `vfoTone` writes back: the tone and CTCSS flags,
      DCS off, and the same tone number for encode and decode. */
  function ToneRecord(current: string, tx: Bit, rx: Bit, number: string): string {
    Slice(current, 0, 20) + Str(tx) + "," + Str(rx) + ",0," + number + "," + number + From(current, 31)
  }

  /** On any record of at least 25 characters the frequency splice keeps the
      length and rewrites only positions 3-16 and 20-24. */
  lemma FrequencyRecordLayout(current: string, freq: string, shift: char)
    requires |current| >= 25 && |freq| == 10
    ensures var r := FrequencyRecord(current, freq, shift);
            |r| == |current| &&
            r[0..3] == current[0..3] && r[3..13] == freq && r[13..16] == ",0," && r[16..17] == [shift] &&
            r[17..20] == current[17..20] && r[20..25] == "0,0,0" && r[25..|r|] == current[25..|current|]
  {
    var r := FrequencyRecord(current, freq, shift);
    assert r == current[0..3] + freq + ",0," + [shift] + current[17..20] + "0,0,0" + current[25..|current|];
  }

  /** On any record of at least 31 characters the tone splice keeps the length
      and rewrites only positions 20-30. */
  lemma ToneRecordLayout(current: string, tx: Bit, rx: Bit, number: string)
    requires |current| >= 31 && |number| == 2
    ensures var r := ToneRecord(current, tx, rx, number);
            |r| == |current| &&
            r[0..20] == current[0..20] && r[20..21] == Str(tx) && r[21..22] == "," && r[22..23] == Str(rx) &&
            r[23..26] == ",0," && r[26..28] == number && r[28..29] == "," && r[29..31] == number &&
            r[31..|r|] == current[31..|current|]
  {
    var r := ToneRecord(current, tx, rx, number);
    assert r == current[0..20] + Str(tx) + "," + Str(rx) + ",0," + number + "," + number + current[31..|current|];
  }

  /** A slice of a slice. */
  lemma Window(s: string, a: nat, b: nat, lo: nat, hi: nat)
    requires a <= lo <= hi <= b <= |s|
    ensures s[a..b][lo - a .. hi - a] == s[lo..hi]
  {
    assert forall i :: 0 <= i < hi - lo ==> s[a..b][lo - a .. hi - a][i] == s[lo..hi][i];
  }

  /** A field lying in a stretch two records share is the same in both. */
  lemma KeptField(r: string, current: string, a: nat, b: nat, f: Field)
    requires RecordLength <= |r| && RecordLength <= |current|
    requires a <= Span(f).0 && Span(f).1 <= b && b <= |r| && b <= |current|
    requires r[a..b] == current[a..b]
    ensures Get(r, f) == Get(current, f)
  {
    Window(r, a, b, Span(f).0, Span(f).1);
    Window(current, a, b, Span(f).0, Span(f).1);
  }

  /** A field lying in a stretch written with `text` reads back that part of `text`. */
  lemma WrittenField(r: string, a: nat, text: string, f: Field)
    requires RecordLength <= |r| && a <= Span(f).0 && Span(f).1 <= a + |text| <= |r|
    requires r[a..a + |text|] == text
    ensures Get(r, f) == text[Span(f).0 - a .. Span(f).1 - a]
  {
    Window(r, a, a + |text|, Span(f).0, Span(f).1);
  }

  /** A character inside a stretch is that stretch's character. */
  lemma CharAt(r: string, a: nat, b: nat, i: nat)
    requires a <= i < b <= |r|
    ensures r[i] == r[a..b][i - a]
  {
  }

  /** The frequency splice keeps every comma of a well-formed record. */
  lemma FrequencyRecordWellFormed(current: string, freq: string, shift: char)
    requires WellFormed(current) && |freq| == 10
    ensures WellFormed(FrequencyRecord(current, freq, shift))
  {
    var r := FrequencyRecord(current, freq, shift);
    FrequencyRecordLayout(current, freq, shift);
    forall i | 0 <= i < |r| && IsSeparator(i) ensures r[i] == ',' {
      if i >= 25 {
        CharAt(r, 25, |r|, i);
        CharAt(current, 25, |current|, i);
      } else if 17 <= i < 20 {
        CharAt(r, 17, 20, i);
        CharAt(current, 17, 20, i);
      } else if i < 16 {
        CharAt(r, 13, 16, i);
      } else {
        CharAt(r, 20, 25, i);
      }
    }
    assert r[..3] == r[0..3] && current[..3] == current[0..3];
  }

  /** Field by field, the frequency splice of a well-formed record is again a
      well-formed record in which exactly the frequency, step, shift, tone,
      CTCSS and DCS fields changed. */
  lemma FrequencyRecordFields(current: string, freq: string, shift: char)
    requires WellFormed(current) && |freq| == 10
    ensures var r := FrequencyRecord(current, freq, shift);
            WellFormed(r) &&
            Get(r, Freq) == freq && Get(r, Step) == "0" && Get(r, Shift) == [shift] &&
            Get(r, Tone) == "0" && Get(r, Ctcss) == "0" && Get(r, Dcs) == "0" &&
            Get(r, Reverse) == Get(current, Reverse) && Get(r, Enc) == Get(current, Enc) &&
            Get(r, Dec) == Get(current, Dec) && Get(r, DcsCode) == Get(current, DcsCode) &&
            Get(r, Offset) == Get(current, Offset) && Get(r, Narrow) == Get(current, Narrow) &&
            Get(r, BeatShift) == Get(current, BeatShift)
  {
    var r := FrequencyRecord(current, freq, shift);
    FrequencyRecordLayout(current, freq, shift);
    FrequencyRecordWellFormed(current, freq, shift);
    WrittenField(r, 3, freq, Freq);
    assert freq[0..10] == freq;
    WrittenField(r, 13, ",0,", Step);
    WrittenField(r, 16, [shift], Shift);
    WrittenField(r, 20, "0,0,0", Tone);
    WrittenField(r, 20, "0,0,0", Ctcss);
    WrittenField(r, 20, "0,0,0", Dcs);
    KeptField(r, current, 17, 20, Reverse);
    KeptField(r, current, 25, |r|, Enc);
    KeptField(r, current, 25, |r|, Dec);
    KeptField(r, current, 25, |r|, DcsCode);
    KeptField(r, current, 25, |r|, Offset);
    KeptField(r, current, 25, |r|, Narrow);
    KeptField(r, current, 25, |r|, BeatShift);
  }

  /** The tone splice keeps every comma of a well-formed record. */
  lemma ToneRecordWellFormed(current: string, tx: Bit, rx: Bit, number: string)
    requires WellFormed(current) && |number| == 2
    ensures WellFormed(ToneRecord(current, tx, rx, number))
  {
    var r := ToneRecord(current, tx, rx, number);
    ToneRecordLayout(current, tx, rx, number);
    forall i | 0 <= i < |r| && IsSeparator(i) ensures r[i] == ',' {
      if i >= 31 {
        CharAt(r, 31, |r|, i);
        CharAt(current, 31, |current|, i);
      } else if i < 20 {
        CharAt(r, 0, 20, i);
        CharAt(current, 0, 20, i);
      } else if i == 21 {
        CharAt(r, 21, 22, i);
      } else if i == 23 || i == 25 {
        CharAt(r, 23, 26, i);
      } else {
        CharAt(r, 28, 29, i);
      }
    }
    Window(r, 0, 20, 0, 3);
    Window(current, 0, 20, 0, 3);
    assert r[..3] == r[0..3] && current[..3] == current[0..3];
  }

  /** Field by field, the tone splice of a well-formed record is again a
      well-formed record in which exactly the tone, CTCSS, DCS, encode and
      decode fields changed. */
  lemma ToneRecordFields(current: string, tx: Bit, rx: Bit, number: string)
    requires WellFormed(current) && |number| == 2
    ensures var r := ToneRecord(current, tx, rx, number);
            WellFormed(r) &&
            Get(r, Tone) == Str(tx) && Get(r, Ctcss) == Str(rx) && Get(r, Dcs) == "0" &&
            Get(r, Enc) == number && Get(r, Dec) == number &&
            Get(r, Freq) == Get(current, Freq) && Get(r, Step) == Get(current, Step) &&
            Get(r, Shift) == Get(current, Shift) && Get(r, Reverse) == Get(current, Reverse) &&
            Get(r, DcsCode) == Get(current, DcsCode) && Get(r, Offset) == Get(current, Offset) &&
            Get(r, Narrow) == Get(current, Narrow) && Get(r, BeatShift) == Get(current, BeatShift)
  {
    var r := ToneRecord(current, tx, rx, number);
    ToneRecordLayout(current, tx, rx, number);
    ToneRecordWellFormed(current, tx, rx, number);
    WrittenField(r, 20, Str(tx), Tone);
    WrittenField(r, 22, Str(rx), Ctcss);
    WrittenField(r, 23, ",0,", Dcs);
    WrittenField(r, 26, number, Enc);
    WrittenField(r, 29, number, Dec);
    assert number[0..2] == number;
    assert Str(tx)[0..1] == Str(tx) && Str(rx)[0..1] == Str(rx);
    KeptField(r, current, 0, 20, Freq);
    KeptField(r, current, 0, 20, Step);
    KeptField(r, current, 0, 20, Shift);
    KeptField(r, current, 0, 20, Reverse);
    KeptField(r, current, 31, |r|, DcsCode);
    KeptField(r, current, 31, |r|, Offset);
    KeptField(r, current, 31, |r|, Narrow);
    KeptField(r, current, 31, |r|, BeatShift);
  }

  /** Splicing into the `"ERR"` that a failed `VF` exchange returns: the
      result keeps "ERR" in place of the `VF ` mnemonic, so the write that
      follows is not a `VF` command. */
  lemma SplicesIntoNoSyncReply(freq: string, shift: char, tx: Bit, rx: Bit, number: string)
    ensures FrequencyRecord("ERR", freq, shift) == "ERR" + freq + ",0," + [shift] + "0,0,0"
    ensures ToneRecord("ERR", tx, rx, number) == "ERR" + Str(tx) + "," + Str(rx) + ",0," + number + "," + number
    ensures FrequencyRecord("ERR", freq, shift)[..2] == "ER" && ToneRecord("ERR", tx, rx, number)[..2] == "ER"
  {
    assert Slice("ERR", 17, 20) == [] && From("ERR", 25) == [];
    assert Slice("ERR", 0, 20) == "ERR" && From("ERR", 31) == [];
  }
}
