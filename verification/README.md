# TM-271A controller, modelled in Dafny

`TM271A-ctrl.py` drives a Kenwood TM-271A mobile radio over a serial line.
Each command is a short text line ending in a carriage return. The radio
accepts a command by echoing its first two characters. The heart of the
program is `sendAndWait`:

- It drains the line, sends the command and reads one reply.
- If the reply does not echo the command, it sends a bare carriage return
  and drains twice to resynchronise, then tries again.
- After 50 attempts it gives up and returns the token `ERR`.

On top of it sit five handlers:

- memory recall (`VM 1`, `MR nnn`);
- VFO frequency and repeater shift (`VM 0`, read `VF`, write a patched `VF`
  record);
- CTCSS tone (read `VF`, write a patched record);
- output power (`PC 0` / `PC 2`);
- frequency read-out (`FQ`).

The tone handler looks the tone up in a fixed table of 42 CTCSS tones.

The Dafny project has six modules, one per file:

| module | models |
|---|---|
| `PyStr` (`pystr.dfy`) | Python slicing with clamped bounds, the zero-padding loops (`PadLeft`, `PadRight`), and ASCII `lower()` of a character (`LowerAscii`); `Zeros` is a run of zero digits |
| `SerialPort` (`serial_port.dfy`) | the open port as a class (`NextLine` and `AfterLine` define what one `readline` returns and consumes): the reply lines the radio will give (`pending`) and the log of everything done on the port (`trace`) |
| `Transaction` (`transaction.dfy`) | `sendAndWait` as a method with its retry loop, specified by a recursive function `Transact`, plus lemmas on attempt counts and the echo rule |
| `ToneTable` (`tone_table.dfy`) | the `CTCSS_Tones` dictionary (`CtcssTones`) built from its 42 entries (`ToneEntries`) in source order, and lemmas on its size, keys and numbering |
| `VfoRecord` (`vfo_record.dfy`) | the 48-character `VF` record layout, `str()` of a flag, removal of the trailing carriage return (`StripCR`), and the two fixed-offset splices the handlers apply: the frequency splice of `vfoSelect` (`FrequencyRecord`) and the tone splice of `vfoTone` (`ToneRecord`) |
| `Commands` (`commands.dfy`) | `lower()` of a string (`Lower`), the five handlers as methods on the port, and the pure functions fixing the text they send, each with its properties: the padded channel number (`MemoryNumber`), the split of the repeater sign off the frequency (`SplitShift`), the record `vfoSelect` writes (`FrequencyCommand`), the flags and tone number `vfoTone` writes (`ToneSetting`), the power command (`PowerCommand`) and the text `getFreq` shows (`FrequencyDisplay`) |

The radio's behaviour is a parameter: a scripted sequence of reply lines. A
`readline` with nothing left returns the empty string, as a timed-out read
does.

## Model

| member | source | states |
|---|---|---|
| PyStr.Slice | TM271A-ctrl.py:160 | `s[i:j]` with Python clamping: the in-range slice when the bounds fit, the tail when `j` is past the end, empty when `i` is past the end or not below `j`; and its length in every case |
| PyStr.From | TM271A-ctrl.py:184 | `s[i:]` is the tail from `i`, or empty when `i` is past the end |
| PyStr.PadRight | TM271A-ctrl.py:158-159 | the right-padding loop yields `max(\|s\|, n)` characters and keeps `s` as its prefix |
| PyStr.PadLeftIsZerosThenText | TM271A-ctrl.py:127-128 | the left-padding loop puts exactly `n - \|s\|` zeros in front of `s`, and leaves `s` alone when it is already `n` long |
| PyStr.PadRightIsTextThenZeros | TM271A-ctrl.py:158-159 | the right-padding loop appends exactly `n - \|s\|` zeros, and leaves `s` alone when it is already `n` long |
| PyStr.LowerAsciiFolds | TM271A-ctrl.py:191 | lower-casing a character leaves no capital, changes nothing but capitals, is idempotent, and two characters lower to the same one exactly when they are equal or the same letter in different case |
| SerialPort.ReadSplitsScript | TM271A-ctrl.py:106 | a read splits the reply script into the line read and the rest, which shrinks by one line; once the radio has nothing more to say, the read is empty and nothing is consumed |
| SerialPort.Port.constructor | TM271A-ctrl.py:207-218 | a freshly opened port has the radio's whole script pending and nothing done on it yet |
| SerialPort.Port.Drain | TM271A-ctrl.py:104 | a drain appends `Drained` to the log and consumes no reply line |
| SerialPort.Port.Write | TM271A-ctrl.py:105 | a write appends `Sent(text)` to the log and consumes no reply line |
| SerialPort.Port.ReadLine | TM271A-ctrl.py:106 | a read returns the next reply, consumes it and logs `Received` with that line |
| Transaction.SendOnce | TM271A-ctrl.py:104-106 | one attempt: drain, send the command with its carriage return, read one line; the log grows by exactly those three events |
| Transaction.Resynchronise | TM271A-ctrl.py:114-116 | after a rejected reply: a bare carriage return and two drains; no reply line is consumed |
| Transaction.SendAndWait | TM271A-ctrl.py:98-119 | the loop returns the reply, log and remaining script of `Transact` with a budget of 50, the reference definition the lemmas below characterise |
| Transaction.TransactAcceptsFirstEcho | TM271A-ctrl.py:100-108 | if the first echo is the `k`-th reply (within budget), the result is that reply, after `k` rejected rounds (each an attempt plus a resync) and one accepted attempt; exactly `k+1` lines are consumed |
| Transaction.TransactGivesUp | TM271A-ctrl.py:100-102 | if none of the first `cnt` replies echoes, the result is `ERR` after exactly `cnt` rejected rounds, with `cnt` lines consumed |
| Transaction.RejectionsCounts | TM271A-ctrl.py:104-116 | `k` rejected rounds log `6k` events, read `k` lines, send the command `k` times and the bare carriage return `k` times |
| Transaction.RejectionsSplit | TM271A-ctrl.py:100-116 | `j + m` rejected rounds are the first `j` rounds followed by `m` rounds on the replies after the first `j` |
| Transaction.RejectionAt | TM271A-ctrl.py:104-116 | rejected round `j` of `k` comes after exactly `j` rounds and before the other `k - j - 1`. It is the attempt that sent the command and read the `j`-th reply, followed by the resync |
| Transaction.TransactAfterRejections | TM271A-ctrl.py:100-116 | after `j` replies that do not echo, the exchange has logged `j` rejected rounds. It continues with `j` fewer attempts on the replies that follow, and its reply and remaining script are theirs |
| Transaction.AcceptedCounts | TM271A-ctrl.py:98-119 | accepted on attempt `k+1`: the reply is the `k`-th line, `k+1` lines read, the command sent `k+1` times and the resync sent `k` times |
| Transaction.GaveUpCounts | TM271A-ctrl.py:99-102 | given up after a budget of `cnt` attempts (50 in `sendAndWait`): the reply is `ERR`, with `cnt` lines read, `cnt` command writes and `cnt` resync writes |
| Transaction.TransactBounded | TM271A-ctrl.py:99-108 | whatever the radio says, at most `cnt` lines are read and at most `cnt` command writes are made; a reply other than `ERR` matches the command on its first two characters |
| Transaction.ThirdAttemptEchoes | TM271A-ctrl.py:98-119 | a radio that answers `?`, `E`, then an echo has its third reply accepted after two resyncs: three reads, three command writes, two bare carriage returns |
| Transaction.ReplyNotEmpty | TM271A-ctrl.py:144 | the reply to a non-empty command is never empty, so `current[-1]` cannot raise; for a command of two or more characters, a reply other than `ERR` starts with the command's first two characters |
| ToneTable.TwoDigits | TM271A-ctrl.py:50-93 | the radio's two-character decimal tone number: always two digit characters |
| ToneTable.TwoDigitsInjective | TM271A-ctrl.py:50-93 | different tone positions get different numbers |
| ToneTable.ToneEntriesNumbered | TM271A-ctrl.py:50-93 | the 42 entries carry the numbers `00`..`41` in order, and their tone keys strictly ascend |
| ToneTable.NumberedDistinct | TM271A-ctrl.py:50-93 | entries numbered in ascending key order have pairwise different keys |
| ToneTable.MapOfKeys | TM271A-ctrl.py:50-93 | a key is in the dictionary exactly when some entry lists it |
| ToneTable.MapOfLookup | TM271A-ctrl.py:50-93 | with distinct keys, each entry's key looks up that entry's value |
| ToneTable.MapOfSize | TM271A-ctrl.py:50-93 | with distinct keys, the dictionary has one key per entry |
| ToneTable.ToneLookup | TM271A-ctrl.py:50-93 | every key of `CTCSS_Tones` is the tone listed at some position `i < 42` and maps to `i` in two digits |
| ToneTable.ToneAt | TM271A-ctrl.py:50-93 | conversely, the tone listed at position `i` is a key and maps to `i` in two digits |
| ToneTable.ToneTableShape | TM271A-ctrl.py:50-93 | the table has 42 keys; its values are exactly `00` to `41`; no two tones share a number |
| VfoRecord.Span | TM271A-ctrl.py:136-139 | every field occupies a non-empty span inside the 48-character record |
| VfoRecord.Str | TM271A-ctrl.py:184 | `str` of a 0/1 flag is one decimal digit whose value is the flag |
| VfoRecord.StripCRUndoesTerminator | TM271A-ctrl.py:144-145 | stripping undoes the line terminator: a line plus a carriage return comes back as the line, a line without one is unchanged, and the result is always a prefix of the line read |
| VfoRecord.FrequencyRecordLayout | TM271A-ctrl.py:160 | on a record of at least 25 characters the frequency splice keeps the length; it writes the new frequency at 3-12, `,0,` and the shift at 13-16, and `0,0,0` at 20-24; it keeps 0-2, 17-19 and 25 onwards |
| VfoRecord.ToneRecordLayout | TM271A-ctrl.py:184 | on a record of at least 31 characters the tone splice keeps the length; it writes the tone and CTCSS flags, DCS 0 and the same number twice at 20-30; it keeps everything else |
| VfoRecord.FrequencyRecordWellFormed | TM271A-ctrl.py:136-160 | the frequency splice of a well-formed record keeps the `VF ` mnemonic, the length of 48 and every comma in its place |
| VfoRecord.FrequencyRecordFields | TM271A-ctrl.py:136-162 | the frequency splice of a well-formed record is well-formed. It sets frequency, step 0, shift, and tone, CTCSS and DCS off. Reverse, encode, decode, DCS code, offset, narrow and beat-shift are unchanged |
| VfoRecord.ToneRecordWellFormed | TM271A-ctrl.py:166-184 | the tone splice of a well-formed record keeps the `VF ` mnemonic, the length of 48 and every comma in its place |
| VfoRecord.ToneRecordFields | TM271A-ctrl.py:166-188 | the tone splice of a well-formed record is well-formed. It sets the tone flag, the CTCSS flag, DCS off, and the encode and decode numbers to the same value. Every other field is unchanged |
| VfoRecord.SplicesIntoNoSyncReply | TM271A-ctrl.py:143-161 | when the `VF` read gave up, both splices are applied to `ERR` and send a line starting `ER`, not a `VF` record |
| Commands.MemoryNumberFormat | TM271A-ctrl.py:125-128 | the channel sent always has three characters. Three are kept as given, fewer get leading zeros, and more become `00` plus the third-from-last character |
| Commands.MemorySelect | TM271A-ctrl.py:122-131 | the port sees the `VM 1` exchange, then the `MR` exchange with the three-character channel number, and nothing else |
| Commands.SplitShiftInverse | TM271A-ctrl.py:146-153 | the sign is split off and re-attaching it gives back the argument; shift 2 iff the argument ends in `-`, 1 iff it ends in `+`, 0 otherwise |
| Commands.TenDigits | TM271A-ctrl.py:154-159 | the frequency written is ten characters starting with `0` |
| Commands.TenDigitsFormat | TM271A-ctrl.py:154-159 | after the leading `0` is added where missing, the frequency is cut to its first ten characters or filled out with trailing zeros |
| Commands.TenDigitsIdempotent | TM271A-ctrl.py:154-159 | normalising twice is normalising once, and a ten-digit frequency starting with `0` is sent unchanged |
| Commands.FrequencyCommandSpec | TM271A-ctrl.py:146-160 | the handler raises `IndexError` exactly when the argument is empty, `-` or `+`. Otherwise a well-formed record comes back well-formed: it carries the normalised frequency and the shift that rebuilds the argument. Step, tone, CTCSS and DCS are cleared; offset and reverse are kept |
| Commands.VfoSelect | TM271A-ctrl.py:140-162 | the port sees the `VM 0` exchange, then the `VF` read. On `IndexError` nothing follows; otherwise the exchange of the record built from the read line (carriage return stripped) and the argument follows |
| Commands.ToneSettingSpec | TM271A-ctrl.py:170-181 | a setting exists exactly for tone `0` or a table key. Encode and decode are never both on: encode is on iff the tone is not `0` and TX was asked without RX, and decode is on iff the tone is not `0` and RX was asked. Tone `0` gives number `00`; any other tone gives its table position |
| Commands.VfoTone | TM271A-ctrl.py:170-188 | the port sees the `VF` read; an unknown tone then ends with `KeyError` and no write. Otherwise the exchange of the record patched with the setting follows |
| Commands.LowerFolds | TM271A-ctrl.py:191 | `lower()` keeps the length, leaves no capital in the string, changes only capitals, and applying it twice is applying it once |
| Commands.PowerCommandSpec | TM271A-ctrl.py:190-196 | `PC 0` iff the argument starts with `h` or `H`; `PC 2` iff it starts with `l` or `L`; nothing for an empty argument or any other first character |
| Commands.PowerSelect | TM271A-ctrl.py:190-196 | the port sees the one exchange of the chosen power command, or is left untouched |
| Commands.FrequencyDisplayOfReply | TM271A-ctrl.py:199-204 | for a reply `FQ` + ten digits + anything, the display drops the leading digit and puts the point after the MHz digits |
| Commands.FrequencyDisplayExamples | TM271A-ctrl.py:201-204 | `FQ 0147330000,0` displays as `147.330000`; a read that gave up (`ERR`) displays as `.` |
| Commands.SelectedFrequencyDisplay | TM271A-ctrl.py:154-160 | a frequency set by the VFO handler, when reported back by `FQ`, displays as its MHz digits, a point, and its sub-MHz digits |
| Commands.GetFreq | TM271A-ctrl.py:199-204 | the result is the display text of the `FQ` reply; the port sees that one exchange |
| Commands.ParseRepeaterFrequency | TM271A-ctrl.py:146-160 | the argument `0147330000+` yields the ten-digit frequency `0147330000` and shift 1 |
| Commands.ToneOf141 | TM271A-ctrl.py:170-181 | a TX tone of 141.3 Hz gives encode on, decode off and tone number `22` |
| Commands.RepeaterSetup | TM271A-ctrl.py:140-188 | setting `0147330000+` then tone `141.3` on a well-formed record (read back as written) gives 147.33 MHz, shift 1, tone encoder on, CTCSS off and tone number `22` in both fields; the offset and reverse fields are unchanged |

Behaviour of the code a reader may not expect, which the model follows:

- `sendAndWait` returns the reply with its carriage return. The VFO and tone
  handlers strip it themselves (lines 144-145, 174-175), and the other
  callers never do.
- A memory argument longer than three characters is cut to one character,
  `mem[-3]`, not to its last three (line 126). So `1234` recalls `002`.
- The frequency is first given a leading `0` if it lacks one. It is then cut
  to ten characters or right-padded with zeros (lines 154-159).
- No caller checks for `ERR`, and the VF record is not checked before it is
  patched. After a failed read, the handlers splice the token itself and send
  the result (`SplicesIntoNoSyncReply`). An unknown tone raises an uncaught
  `KeyError`, which ends the handler and, since the dispatch loop does not
  catch it, the run: later arguments are not processed and the port is not
  closed.
- `powerSelect` silently ignores any argument that does not start with
  `h`/`l` (either case).

## Left out

- Opening and configuring the serial port (lines 207-218), and read timeouts and their timing: the port is a scripted sequence of reply lines, and a drain consumes no scripted line.
- Short or partial reads inside a drain: the model does not capture a drain swallowing a late reply.
- Command-line parsing, `-v`, the environment-variable port name, usage text, the dispatch loop and `sys.exit` (lines 17-48, 221-266): the handlers are modelled, not the argument loop that calls them.
- Verbose and result printing (lines 111-112, 117-118, 182-186, 204): `GetFreq` returns the text it would print.
- The radio-ID exchange at start-up (line 234): it is a plain `sendAndWait("ID")`, covered by `SendAndWait`.
- Text encoding: `encode()`/`decode()` are left out; strings are character sequences.
- Commands.Lower: `lower()` is modelled for ASCII only, because the controller's arguments are ASCII.
- Commands.VfoTone: `tx` and `rx` are restricted to 0 and 1, because the dispatcher only passes `(1, 0)` and `(0, 1)`.
- Transaction.TransactBounded: the count of command writes is stated only for a non-empty command, because an empty command would be written as the bare carriage return used for resynchronising.
- Transaction.ReplyNotEmpty: the two-character echo is stated only for commands of two or more characters, because a shorter command's first two characters are the command itself.
