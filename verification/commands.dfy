/**
 * The radio commands built on the transaction engine: memory recall, VFO
 * frequency, CTCSS tone, output power and frequency read-out.  Each handler
 * is a method on the port; the text it sends is fixed by the pure functions
 * beside it.
 */
module Commands {
  import opened PyStr
  import opened SerialPort
  import opened Transaction
  import opened ToneTable
  import opened VfoRecord

  datatype Option<T> = None | Some(value: T)

  /** How a handler ends: normally, or with the exception Python raises
      (`IndexError` on an empty frequency, `KeyError` on an unknown tone). */
  datatype Status = Completed | IndexError | KeyError

  // ---------------------------------------------------------------- memory

  /** The channel number `memorySelect` sends: a long argument is cut to
      its third-from-last character, then zeros go in front up to three. */
  function MemoryNumber(mem: string): string {
    PadLeft(if |mem| > 3 then [mem[|mem| - 3]] else mem, 3)
  }

  lemma MemoryNumberFormat(mem: string)
    ensures |MemoryNumber(mem)| == 3
    ensures |mem| == 3 ==> MemoryNumber(mem) == mem
    ensures |mem| < 3 ==> MemoryNumber(mem) == Zeros(3 - |mem|) + mem
    ensures |mem| > 3 ==> MemoryNumber(mem) == "00" + [mem[|mem| - 3]]
  {
    var m := if |mem| > 3 then [mem[|mem| - 3]] else mem;
    PadLeftIsZerosThenText(m, 3);
  }

  /** `memorySelect(mem)`: memory mode, then recall channel `mem`. */
  method MemorySelect(ser: Port, mem: string)
    modifies ser
    ensures var select := Transact("VM 1", old(ser.pending), Budget);
            var recall := Transact("MR " + MemoryNumber(mem), select.rest, Budget);
            ser.trace == old(ser.trace) + select.trace + recall.trace && ser.pending == recall.rest
  {
    var data := "VM 1";
    var _ := SendAndWait(ser, data);
    var m := mem;
    if |m| > 3 {
      m := [m[|m| - 3]];
    }
    while |m| < 3
      invariant PadLeft(m, 3) == MemoryNumber(mem)
      decreases 3 - |m|
    {
      m := "0" + m;
    }
    data := "MR " + m;
    var _ := SendAndWait(ser, data);
  }

  // ------------------------------------------------------------------- VFO

  /** A trailing `-` or `+` on the frequency argument selects the repeater
      shift (2 or 1) and is removed; otherwise the shift is 0. */
  function SplitShift(freq: string): (string, char)
    requires freq != ""
  {
    var last := freq[|freq| - 1];
    if last == '-' then (freq[..|freq| - 1], '2')
    else if last == '+' then (freq[..|freq| - 1], '1')
    else (freq, '0')
  }

  /** The suffix that selects `shift` on the command line. */
  function ShiftSign(shift: char): string {
    if shift == '2' then "-" else if shift == '1' then "+" else ""
  }

  lemma SplitShiftInverse(freq: string)
    requires freq != ""
    ensures var (digits, shift) := SplitShift(freq);
            digits + ShiftSign(shift) == freq &&
            (shift == '2' <==> freq[|freq| - 1] == '-') &&
            (shift == '1' <==> freq[|freq| - 1] == '+') &&
            (shift == '0' <==> freq[|freq| - 1] != '-' && freq[|freq| - 1] != '+')
  {
  }

  /** The ten-digit Hz frequency `vfoSelect` writes: a leading 0 added when
      missing, then cut or right-padded with zeros to ten characters. */
  function TenDigits(freq: string): (r: string)
    requires freq != ""
    ensures |r| == 10 && r[0] == '0'
  {
    var f := if freq[0] != '0' then "0" + freq else freq;
    PadRight(if |f| > 10 then f[..10] else f, 10)
  }

  lemma TenDigitsFormat(freq: string)
    requires freq != ""
    ensures var r := TenDigits(freq);
            var f := if freq[0] != '0' then "0" + freq else freq;
            |r| == 10 && r[0] == '0' &&
            (|f| >= 10 ==> r == f[..10]) &&
            (|f| < 10 ==> r == f + Zeros(10 - |f|))
  {
    var f := if freq[0] != '0' then "0" + freq else freq;
    PadRightIsTextThenZeros(if |f| > 10 then f[..10] else f, 10);
  }

  /** A frequency already in the radio's form is sent unchanged, so the
      normalisation is idempotent. */
  lemma TenDigitsIdempotent(freq: string)
    requires freq != ""
    ensures TenDigits(TenDigits(freq)) == TenDigits(freq)
    ensures |freq| == 10 && freq[0] == '0' ==> TenDigits(freq) == freq
  {
    TenDigitsFormat(freq);
    TenDigitsFormat(TenDigits(freq));
  }

  /** The record `vfoSelect(freq)` writes after reading `current`, or `None`
      where the frequency argument, or what is left of it once the sign is
      removed, is empty and indexing it raises `IndexError`. */
  function FrequencyCommand(current: string, freq: string): Option<string> {
    if freq == "" then None
    else
      var (digits, shift) := SplitShift(freq);
      if digits == "" then None else Some(FrequencyRecord(current, TenDigits(digits), shift))
  }

  lemma FrequencyCommandSpec(current: string, freq: string)
    ensures FrequencyCommand(current, freq).None? <==> freq == "" || freq == "-" || freq == "+"
    ensures FrequencyCommand(current, freq).Some? && WellFormed(current) ==>
            var r := FrequencyCommand(current, freq).value;
            var (digits, shift) := SplitShift(freq);
            WellFormed(r) && |Get(r, Freq)| == 10 && Get(r, Freq)[0] == '0' &&
            Get(r, Freq) == TenDigits(digits) && digits + ShiftSign(Get(r, Shift)[0]) == freq &&
            Get(r, Step) == "0" && Get(r, Tone) == "0" && Get(r, Ctcss) == "0" && Get(r, Dcs) == "0" &&
            Get(r, Offset) == Get(current, Offset) && Get(r, Reverse) == Get(current, Reverse)
  {
    if freq != "" {
      var (digits, shift) := SplitShift(freq);
      SplitShiftInverse(freq);
      if digits != "" {
        TenDigitsFormat(digits);
        if WellFormed(current) {
          FrequencyRecordFields(current, TenDigits(digits), shift);
        }
      }
    }
  }

  /** `vfoSelect(freq)`: VFO mode, read the VFO record, write it back with
      the new frequency and shift. */
  method VfoSelect(ser: Port, freq: string) returns (status: Status)
    modifies ser
    ensures var select := Transact("VM 0", old(ser.pending), Budget);
            var read := Transact("VF", select.rest, Budget);
            var before := old(ser.trace) + select.trace + read.trace;
            match FrequencyCommand(StripCR(read.reply), freq)
            case None => status == IndexError && ser.trace == before && ser.pending == read.rest
            case Some(data) =>
              var write := Transact(data, read.rest, Budget);
              status == Completed && ser.trace == before + write.trace && ser.pending == write.rest
  {
    var data := "VM 0";
    var _ := SendAndWait(ser, data);
    ghost var afterSelect := ser.pending;
    var current := SendAndWait(ser, "VF");
    ReplyNotEmpty("VF", afterSelect, Budget);
    ghost var reply := current;
    if current[|current| - 1] == '\r' {
      current := current[..|current| - 1];
    }
    assert current == StripCR(reply);
    if freq == "" {
      return IndexError;
    }
    var f := freq;
    var shift: char;
    if f[|f| - 1] == '-' {
      shift := '2';
      f := f[..|f| - 1];
    } else if f[|f| - 1] == '+' {
      shift := '1';
      f := f[..|f| - 1];
    } else {
      shift := '0';
    }
    ghost var digits := f;
    assert SplitShift(freq) == (digits, shift);
    if f == "" {
      assert FrequencyCommand(current, freq) == None;
      return IndexError;
    }
    if f[0] != '0' {
      f := "0" + f;
    }
    if |f| > 10 {
      f := f[..10];
    }
    while |f| < 10
      invariant PadRight(f, 10) == TenDigits(digits)
      decreases 10 - |f|
    {
      f := f + "0";
    }
    data := FrequencyRecord(current, f, shift);
    assert FrequencyCommand(current, freq) == Some(data);
    var _ := SendAndWait(ser, data);
    return Completed;
  }

  // ------------------------------------------------------------------ tone

  /** The encode flag, decode flag and tone number `vfoTone` writes, or
      `None` where the tone lookup raises `KeyError`. */
  function ToneSetting(toneFreq: string, tx: Bit, rx: Bit): Option<(Bit, Bit, string)> {
    var tx: Bit := if rx == 1 then 0 else tx;
    if toneFreq == "0" then Some((0, 0, "00"))
    else if toneFreq in CtcssTones then Some((tx, rx, CtcssTones[toneFreq]))
    else None
  }

  lemma ToneSettingSpec(toneFreq: string, tx: Bit, rx: Bit)
    ensures ToneSetting(toneFreq, tx, rx).Some? <==> toneFreq == "0" || toneFreq in CtcssTones
    ensures ToneSetting(toneFreq, tx, rx).Some? ==>
            var (enc, dec, number) := ToneSetting(toneFreq, tx, rx).value;
            !(enc == 1 && dec == 1) &&
            (enc == 1 <==> toneFreq != "0" && tx == 1 && rx == 0) &&
            (dec == 1 <==> toneFreq != "0" && rx == 1) &&
            (toneFreq == "0" ==> number == "00") &&
            (toneFreq != "0" ==> exists i :: 0 <= i < 42 && ToneEntries[i].0 == toneFreq && number == TwoDigits(i))
  {
    if toneFreq != "0" && toneFreq in CtcssTones {
      ToneLookup(toneFreq);
    }
  }

  /** `vfoTone(toneFreq, tx, rx)`: read the VFO record, write it back with
      the new tone settings. */
  method VfoTone(ser: Port, toneFreq: string, tx: Bit, rx: Bit) returns (status: Status)
    modifies ser
    ensures var read := Transact("VF", old(ser.pending), Budget);
            var before := old(ser.trace) + read.trace;
            match ToneSetting(toneFreq, tx, rx)
            case None => status == KeyError && ser.trace == before && ser.pending == read.rest
            case Some(setting) =>
              var write := Transact(ToneRecord(StripCR(read.reply), setting.0, setting.1, setting.2), read.rest, Budget);
              status == Completed && ser.trace == before + write.trace && ser.pending == write.rest
  {
    var tx := tx;
    var rx := rx;
    if rx == 1 {
      tx := 0;
    }
    ghost var start := ser.pending;
    var current := SendAndWait(ser, "VF");
    ReplyNotEmpty("VF", start, Budget);
    if current[|current| - 1] == '\r' {
      current := current[..|current| - 1];
    }
    var number: string;
    if toneFreq == "0" {
      tx := 0;
      rx := 0;
      number := "00";
    } else {
      if toneFreq !in CtcssTones {
        return KeyError;
      }
      number := CtcssTones[toneFreq];
    }
    var data := ToneRecord(current, tx, rx, number);
    var _ := SendAndWait(ser, data);
    return Completed;
  }

  // ----------------------------------------------------------------- power

  /** Lower case of a string, for the ASCII letters only. */
  function Lower(s: string): string {
    seq(|s|, i requires 0 <= i < |s| => LowerAscii(s[i]))
  }

  /** Lower-casing keeps the length, leaves no capital, changes only
      capitals, and doing it twice is doing it once. */
  lemma LowerFolds(s: string)
    ensures |Lower(s)| == |s|
    ensures forall i :: 0 <= i < |s| ==> !('A' <= Lower(s)[i] <= 'Z')
    ensures forall i :: 0 <= i < |s| && !('A' <= s[i] <= 'Z') ==> Lower(s)[i] == s[i]
    ensures Lower(Lower(s)) == Lower(s)
  {
    forall i | 0 <= i < |s| ensures !('A' <= Lower(s)[i] <= 'Z') && Lower(Lower(s))[i] == Lower(s)[i] {
      LowerAsciiFolds(s[i], s[i]);
    }
    forall i | 0 <= i < |s| && !('A' <= s[i] <= 'Z') ensures Lower(s)[i] == s[i] {
      LowerAsciiFolds(s[i], s[i]);
    }
  }

  /** The command `powerSelect(pow)` sends, if any. */
  function PowerCommand(pow: string): Option<string> {
    var p := Slice(Lower(pow), 0, 1);
    if p == "h" then Some("PC 0") else if p == "l" then Some("PC 2") else None
  }

  lemma PowerCommandSpec(pow: string)
    ensures PowerCommand(pow) == Some("PC 0") <==> pow != "" && (pow[0] == 'h' || pow[0] == 'H')
    ensures PowerCommand(pow) == Some("PC 2") <==> pow != "" && (pow[0] == 'l' || pow[0] == 'L')
    ensures PowerCommand(pow) == None <==> pow == "" || pow[0] !in {'h', 'H', 'l', 'L'}
  {
    if pow != "" {
      assert Slice(Lower(pow), 0, 1) == [LowerAscii(pow[0])];
    }
  }

  /** `powerSelect(pow)`: high or low power; any other argument sends
      nothing. */
  method PowerSelect(ser: Port, pow: string)
    modifies ser
    ensures match PowerCommand(pow)
            case None => ser.trace == old(ser.trace) && ser.pending == old(ser.pending)
            case Some(command) =>
              var x := Transact(command, old(ser.pending), Budget);
              ser.trace == old(ser.trace) + x.trace && ser.pending == x.rest
  {
    var p := Slice(Lower(pow), 0, 1);
    if p == "h" {
      var _ := SendAndWait(ser, "PC 0");
    } else if p == "l" {
      var _ := SendAndWait(ser, "PC 2");
    }
  }

  // ------------------------------------------------------------- read-out

  /** The text `getFreq` shows for the reply `rtn` to `FQ`. */
  function FrequencyDisplay(rtn: string): string {
    Slice(rtn, 4, 7) + "." + Slice(rtn, 7, 13)
  }

  /** For a reply `FQ <ten digits>...` the display drops the leading digit
      of the ten-digit Hz value and puts the point after the MHz digits. */
  lemma FrequencyDisplayOfReply(digits: string, tail: string)
    requires |digits| == 10
    ensures FrequencyDisplay("FQ " + digits + tail) == digits[1..4] + "." + digits[4..]
  {
    var rtn := "FQ " + digits + tail;
    assert rtn[4..7] == digits[1..4];
    assert rtn[7..13] == digits[4..];
  }

  lemma FrequencyDisplayExamples()
    ensures FrequencyDisplay("FQ 0147330000,0") == "147.330000"
    ensures FrequencyDisplay(NoSync) == "."
  {
    FrequencyDisplayOfReply("0147330000", ",0");
    assert "FQ 0147330000,0" == "FQ " + "0147330000" + ",0";
  }

  /** A frequency set by `vfoSelect` and reported back by `FQ` displays as
      its MHz and sub-MHz digits. */
  lemma SelectedFrequencyDisplay(freq: string, tail: string)
    requires freq != ""
    ensures var d := TenDigits(freq);
            FrequencyDisplay("FQ " + d + tail) == d[1..4] + "." + d[4..]
  {
    TenDigitsFormat(freq);
    FrequencyDisplayOfReply(TenDigits(freq), tail);
  }

  /** `getFreq()`: ask for the frequency and return the text it shows. */
  method GetFreq(ser: Port) returns (display: string)
    modifies ser
    ensures var x := Transact("FQ", old(ser.pending), Budget);
            display == FrequencyDisplay(x.reply) && ser.trace == old(ser.trace) + x.trace && ser.pending == x.rest
  {
    var rtn := SendAndWait(ser, "FQ");
    display := FrequencyDisplay(rtn);
  }

  // ------------------------------------------------------------- scenario

  /** `vfo 0147330000+` followed by `tone 141.3` on a well-formed record,
      with the radio reporting back what was written: the record then holds
      147.33 MHz, a positive shift, the tone encoder on with tone number 22
      and everything else as before. */
  lemma RepeaterSetup(current: string)
    requires WellFormed(current)
    ensures var first := FrequencyRecord(current, "0147330000", '1');
            var second := ToneRecord(first, 1, 0, "22");
            FrequencyCommand(current, "0147330000+") == Some(first) &&
            ToneSetting("141.3", 1, 0) == Some((1, 0, "22")) &&
            WellFormed(second) &&
            Get(second, Freq) == "0147330000" && Get(second, Shift) == "1" &&
            Get(second, Tone) == "1" && Get(second, Ctcss) == "0" && Get(second, Dcs) == "0" &&
            Get(second, Enc) == "22" && Get(second, Dec) == "22" &&
            Get(second, Offset) == Get(current, Offset) && Get(second, Reverse) == Get(current, Reverse)
  {
    var first := FrequencyRecord(current, "0147330000", '1');
    ParseRepeaterFrequency(current);
    FrequencyRecordFields(current, "0147330000", '1');
    ToneOf141();
    ToneRecordFields(first, 1, 0, "22");
  }

  /** The frequency argument of the scenario, parsed. */
  lemma ParseRepeaterFrequency(current: string)
    ensures FrequencyCommand(current, "0147330000+") == Some(FrequencyRecord(current, "0147330000", '1'))
  {
    var typed := "0147330000+";
    assert typed == "0147330000" + "+";
    assert typed[..|typed| - 1] == "0147330000";
    TenDigitsIdempotent("0147330000");
  }

  /** The tone of the scenario, looked up: entry 22 of the table. */
  lemma ToneOf141()
    ensures ToneSetting("141.3", 1, 0) == Some((1, 0, "22"))
  {
    assert ToneEntries[22] == ("141.3", "22");
    ToneAt(22);
  }
}
