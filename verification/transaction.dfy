/**
 * The echo exchange `sendAndWait`: send a command line, accept the first
 * reply that starts with the command's two-letter mnemonic, and resynchronise
 * the link after every reply that does not, for at most `Budget` attempts.
 */
module Transaction {
  import opened PyStr
  import opened SerialPort

  /** Attempts before giving up (`cnt = 50`). */
  const Budget: nat := 50

  /** What `sendAndWait` returns when no reply echoed the command. */
  const NoSync: string := "ERR"

  /** The two-letter mnemonic a line starts with (the whole line
      when it is shorter). */
  function Mnemonic(s: string): string {
    if |s| >= 2 then s[..2] else s
  }

  /** A reply is accepted when it starts with the same mnemonic as the command. */
  predicate Echoes(line: string, command: string) {
    Mnemonic(line) == Mnemonic(command)
  }

  /** One attempt: drain, send the command with its carriage return, read a line. */
  function Attempt(command: string, line: string): seq<Event> {
    [Drained, Sent(command + "\r"), Received(line)]
  }

  /** What follows a rejected reply: a bare carriage return and two drains. */
  const Resync: seq<Event> := [Sent("\r"), Drained, Drained]

  /** The result of one exchange: the returned string, what it did on the
      link, and the reply lines it left unread. */
  datatype Exchange = Exchange(reply: string, trace: seq<Event>, rest: seq<string>)

  /** `sendAndWait(command)` with `cnt` attempts left, against the reply script
      `pending`. */
  function Transact(command: string, pending: seq<string>, cnt: nat): Exchange
    decreases cnt
  {
    if cnt == 0 then Exchange(NoSync, [], pending)
    else
      var line := NextLine(pending);
      if Echoes(line, command) then Exchange(line, Attempt(command, line), AfterLine(pending))
      else
        var later := Transact(command, AfterLine(pending), cnt - 1);
        Exchange(later.reply, Attempt(command, line) + Resync + later.trace, later.rest)
  }

  /** The `k`-th line (from 0) the radio will answer with; empty past the end
      of the script, as a read that times out returns nothing. */
  function LineAt(pending: seq<string>, k: nat): string {
    if k < |pending| then pending[k] else ""
  }

  /** The script once `k` lines have been read. */
  function Skip(pending: seq<string>, k: nat): seq<string> {
    if k <= |pending| then pending[k..] else []
  }

  /** The link activity of `k` consecutive rejected attempts, starting with the
      line at the head of `pending`. */
  function Rejections(command: string, pending: seq<string>, k: nat): seq<Event>
    decreases k
  {
    if k == 0 then []
    else Attempt(command, NextLine(pending)) + Resync + Rejections(command, AfterLine(pending), k - 1)
  }

  /** Number of lines read in a trace. */
  function Reads(t: seq<Event>): nat {
    if t == [] then 0 else (if t[0].Received? then 1 else 0) + Reads(t[1..])
  }

  /** Number of times `text` was written in a trace. */
  function Writes(t: seq<Event>, text: string): nat {
    if t == [] then 0 else (if t[0] == Sent(text) then 1 else 0) + Writes(t[1..], text)
  }

  lemma {:induction false} CountsOfConcat(a: seq<Event>, b: seq<Event>, text: string)
    ensures Reads(a + b) == Reads(a) + Reads(b)
    ensures Writes(a + b, text) == Writes(a, text) + Writes(b, text)
  {
    if a == [] {
      assert a + b == b;
    } else {
      assert (a + b)[0] == a[0];
      assert (a + b)[1..] == a[1..] + b;
      CountsOfConcat(a[1..], b, text);
    }
  }

  /** Regrouping a concatenation of four traces. */
  lemma Regroup(a: seq<Event>, b: seq<Event>, c: seq<Event>, d: seq<Event>)
    ensures a + (b + c) == (a + b) + c
    ensures a + (b + c + d) == (a + b + c) + d
  {
  }

  /** The counts of a single event. */
  lemma CountsOfOne(e: Event, text: string)
    ensures Reads([e]) == (if e.Received? then 1 else 0)
    ensures Writes([e], text) == (if e == Sent(text) then 1 else 0)
  {
    assert [e][1..] == [];
  }

  /** What one attempt and one resynchronisation add to the counts. */
  lemma RoundCounts(command: string, line: string)
    ensures Reads(Attempt(command, line)) == 1 && Reads(Resync) == 0
    ensures command != "" ==> Writes(Attempt(command, line), command + "\r") == 1 && Writes(Resync, command + "\r") == 0
    ensures command != "" ==> Writes(Attempt(command, line), "\r") == 0 && Writes(Resync, "\r") == 1
  {
    var text := command + "\r";
    var cr := "\r";
    assert Attempt(command, line) == [Drained] + [Sent(text)] + [Received(line)];
    assert Resync == [Sent(cr)] + [Drained] + [Drained];
    assert command != "" ==> |text| > 1 && text != cr;
    forall w | w == text || w == cr
      ensures Writes(Attempt(command, line), w) == Writes([Sent(text)], w)
      ensures Writes(Resync, w) == Writes([Sent(cr)], w)
      ensures Reads(Attempt(command, line)) == 1 && Reads(Resync) == 0
    {
      CountsOfOne(Drained, w);
      CountsOfOne(Sent(text), w);
      CountsOfOne(Received(line), w);
      CountsOfOne(Sent(cr), w);
      CountsOfConcat([Drained], [Sent(text)], w);
      CountsOfConcat([Drained] + [Sent(text)], [Received(line)], w);
      CountsOfConcat([Sent(cr)], [Drained], w);
      CountsOfConcat([Sent(cr)] + [Drained], [Drained], w);
    }
    CountsOfOne(Sent(text), text);
    CountsOfOne(Sent(text), cr);
    CountsOfOne(Sent(cr), text);
    CountsOfOne(Sent(cr), cr);
  }

  /** `k` rejected attempts read `k` lines and send the command and the bare
      carriage return `k` times each, one attempt and one resynchronisation
      per six events. */
  lemma {:induction false} RejectionsCounts(command: string, pending: seq<string>, k: nat)
    ensures |Rejections(command, pending, k)| == 6 * k
    ensures Reads(Rejections(command, pending, k)) == k
    ensures command != "" ==> Writes(Rejections(command, pending, k), command + "\r") == k
    ensures command != "" ==> Writes(Rejections(command, pending, k), "\r") == k
    decreases k
  {
    if k > 0 {
      var line := NextLine(pending);
      var rest := Rejections(command, AfterLine(pending), k - 1);
      RejectionsCounts(command, AfterLine(pending), k - 1);
      RoundCounts(command, line);
      CountsOfConcat(Attempt(command, line), Resync, command + "\r");
      CountsOfConcat(Attempt(command, line) + Resync, rest, command + "\r");
      CountsOfConcat(Attempt(command, line), Resync, "\r");
      CountsOfConcat(Attempt(command, line) + Resync, rest, "\r");
    }
  }

  /** Indexing the script after one line is indexing the script one further. */
  lemma Advance(pending: seq<string>, i: nat)
    ensures LineAt(AfterLine(pending), i) == LineAt(pending, i + 1)
    ensures Skip(AfterLine(pending), i) == Skip(pending, i + 1)
    ensures NextLine(pending) == LineAt(pending, 0) && AfterLine(pending) == Skip(pending, 1)
  {
  }

  /** `j + m` rejected rounds are `j` rounds and then `m` more on the lines
      that follow. */
  lemma {:induction false} RejectionsSplit(command: string, pending: seq<string>, j: nat, m: nat)
    ensures Rejections(command, pending, j + m)
         == Rejections(command, pending, j) + Rejections(command, Skip(pending, j), m)
    decreases j
  {
    Advance(pending, j);
    if j == 0 {
      assert Skip(pending, 0) == pending;
    } else {
      Advance(pending, j - 1);
      RejectionsSplit(command, AfterLine(pending), j - 1, m);
      Regroup(Attempt(command, NextLine(pending)), Resync, Rejections(command, AfterLine(pending), j - 1),
              Rejections(command, Skip(pending, j), m));
    }
  }

  /** Rejected round `j` of `k` comes after exactly `j` rejected rounds and
      before the remaining `k - j - 1`: it sends the command, reads the `j`-th
      line and is followed by a bare carriage return before the next attempt. */
  lemma RejectionAt(command: string, pending: seq<string>, k: nat, j: nat)
    requires j < k
    ensures Rejections(command, pending, k)
         == Rejections(command, pending, j) + (Attempt(command, LineAt(pending, j)) + Resync)
            + Rejections(command, Skip(pending, j + 1), k - j - 1)
  {
    RejectionsSplit(command, pending, j, k - j);
    var later := Skip(pending, j);
    assert NextLine(later) == LineAt(pending, j);
    assert AfterLine(later) == Skip(pending, j + 1);
    Regroup(Rejections(command, pending, j), Attempt(command, LineAt(pending, j)), Resync,
            Rejections(command, Skip(pending, j + 1), k - j - 1));
  }

  /** None of the next `j` replies echoes `command`, stated one line at a time. */
  predicate NoEchoes(command: string, pending: seq<string>, j: nat)
    decreases j
  {
    j == 0 || (!Echoes(NextLine(pending), command) && NoEchoes(command, AfterLine(pending), j - 1))
  }

  /** The position-by-position statement implies the line-by-line one. */
  lemma {:induction false} NoEchoesFromAll(command: string, pending: seq<string>, j: nat)
    requires forall i :: 0 <= i < j ==> !Echoes(LineAt(pending, i), command)
    ensures NoEchoes(command, pending, j)
    decreases j
  {
    if j > 0 {
      Advance(pending, 0);
      forall i | 0 <= i < j - 1 ensures !Echoes(LineAt(AfterLine(pending), i), command) {
        Advance(pending, i);
      }
      NoEchoesFromAll(command, AfterLine(pending), j - 1);
    }
  }

  /** A rejected reply costs one round and leaves the rest of the exchange to
      the remaining attempts. */
  lemma RejectedStep(command: string, pending: seq<string>, cnt: nat)
    requires cnt > 0 && !Echoes(NextLine(pending), command)
    ensures var later := Transact(command, AfterLine(pending), cnt - 1);
            Transact(command, pending, cnt)
            == Exchange(later.reply, Attempt(command, NextLine(pending)) + Resync + later.trace, later.rest)
  {
  }

  /** Prefixing rounds to an exchange whose trace already has a prefix. */
  lemma PrependRounds(x: Exchange, y: Exchange, z: Exchange, round: seq<Event>, rounds: seq<Event>)
    requires x == Exchange(y.reply, round + y.trace, y.rest)
    requires y == Exchange(z.reply, rounds + z.trace, z.rest)
    ensures x == Exchange(z.reply, (round + rounds) + z.trace, z.rest)
  {
    Regroup(round, rounds, z.trace, []);
  }

  /** While the replies do not echo, each one costs a rejected round: after
      `j` of them the exchange goes on with `j` fewer attempts on the lines
      that follow. */
  lemma {:induction false} TransactAfterRejections(command: string, pending: seq<string>, cnt: nat, j: nat)
    requires j <= cnt
    requires NoEchoes(command, pending, j)
    ensures var later := Transact(command, Skip(pending, j), cnt - j);
            Transact(command, pending, cnt)
            == Exchange(later.reply, Rejections(command, pending, j) + later.trace, later.rest)
    decreases j
  {
    if j == 0 {
      assert Skip(pending, 0) == pending;
    } else {
      var rest := AfterLine(pending);
      RejectedStep(command, pending, cnt);
      Advance(pending, j - 1);
      TransactAfterRejections(command, rest, cnt - 1, j - 1);
      PrependRounds(Transact(command, pending, cnt), Transact(command, rest, cnt - 1),
                    Transact(command, Skip(pending, j), cnt - j),
                    Attempt(command, NextLine(pending)) + Resync, Rejections(command, rest, j - 1));
    }
  }

  /** When the `k`-th reply is the first to echo the command, the exchange
      returns that reply after `k` rejected attempts and one accepted one. */
  lemma TransactAcceptsFirstEcho(command: string, pending: seq<string>, cnt: nat, k: nat)
    requires k < cnt
    requires Echoes(LineAt(pending, k), command)
    requires forall j :: 0 <= j < k ==> !Echoes(LineAt(pending, j), command)
    ensures Transact(command, pending, cnt)
         == Exchange(LineAt(pending, k), Rejections(command, pending, k) + Attempt(command, LineAt(pending, k)), Skip(pending, k + 1))
  {
    NoEchoesFromAll(command, pending, k);
    TransactAfterRejections(command, pending, cnt, k);
    var later := Skip(pending, k);
    TransactStep(command, later, cnt - k);
    assert NextLine(later) == LineAt(pending, k);
    assert AfterLine(later) == Skip(pending, k + 1);
  }

  /** When none of the first `cnt` replies echoes the command, the exchange
      returns `NoSync` after `cnt` rejected attempts. */
  lemma TransactGivesUp(command: string, pending: seq<string>, cnt: nat)
    requires forall j :: 0 <= j < cnt ==> !Echoes(LineAt(pending, j), command)
    ensures Transact(command, pending, cnt) == Exchange(NoSync, Rejections(command, pending, cnt), Skip(pending, cnt))
  {
    NoEchoesFromAll(command, pending, cnt);
    TransactAfterRejections(command, pending, cnt, cnt);
    assert Rejections(command, pending, cnt) + [] == Rejections(command, pending, cnt);
  }

  /** Accepted on attempt `k + 1`: `k + 1` lines read, the command sent
      `k + 1` times and the bare carriage return `k` times. */
  lemma AcceptedCounts(command: string, pending: seq<string>, cnt: nat, k: nat)
    requires k < cnt
    requires Echoes(LineAt(pending, k), command)
    requires forall j :: 0 <= j < k ==> !Echoes(LineAt(pending, j), command)
    ensures Transact(command, pending, cnt).reply == LineAt(pending, k)
    ensures Reads(Transact(command, pending, cnt).trace) == k + 1
    ensures command != "" ==> Writes(Transact(command, pending, cnt).trace, command + "\r") == k + 1
    ensures command != "" ==> Writes(Transact(command, pending, cnt).trace, "\r") == k
  {
    TransactAcceptsFirstEcho(command, pending, cnt, k);
    var line := LineAt(pending, k);
    RejectionsCounts(command, pending, k);
    RoundCounts(command, line);
    CountsOfConcat(Rejections(command, pending, k), Attempt(command, line), command + "\r");
    CountsOfConcat(Rejections(command, pending, k), Attempt(command, line), "\r");
  }

  /** Given up: exactly `cnt` attempts, each followed by a resynchronisation. */
  lemma GaveUpCounts(command: string, pending: seq<string>, cnt: nat)
    requires forall j :: 0 <= j < cnt ==> !Echoes(LineAt(pending, j), command)
    ensures Transact(command, pending, cnt).reply == NoSync
    ensures Reads(Transact(command, pending, cnt).trace) == cnt
    ensures command != "" ==> Writes(Transact(command, pending, cnt).trace, command + "\r") == cnt
    ensures command != "" ==> Writes(Transact(command, pending, cnt).trace, "\r") == cnt
  {
    TransactGivesUp(command, pending, cnt);
    RejectionsCounts(command, pending, cnt);
  }

  /** Whatever the radio answers, no exchange makes more than `cnt` attempts,
      and a reply other than `NoSync` echoes the command. */
  lemma {:induction false} TransactBounded(command: string, pending: seq<string>, cnt: nat)
    ensures Reads(Transact(command, pending, cnt).trace) <= cnt
    ensures command != "" ==> Writes(Transact(command, pending, cnt).trace, command + "\r") <= cnt
    ensures Transact(command, pending, cnt).reply != NoSync ==> Echoes(Transact(command, pending, cnt).reply, command)
    decreases cnt
  {
    if cnt > 0 {
      var line := NextLine(pending);
      RoundCounts(command, line);
      if !Echoes(line, command) {
        var later := Transact(command, AfterLine(pending), cnt - 1);
        TransactBounded(command, AfterLine(pending), cnt - 1);
        CountsOfConcat(Attempt(command, line), Resync, command + "\r");
        CountsOfConcat(Attempt(command, line) + Resync, later.trace, command + "\r");
      }
    }
  }

  /** A radio that answers `?`, then `E`, then echoes: the third attempt is
      accepted after two resynchronisations and the whole script is used. */
  lemma ThirdAttemptEchoes()
    ensures var x := Transact("VF", ["?", "E", "VF 0147330000,0"], Budget);
            x.reply == "VF 0147330000,0" && x.rest == [] && Reads(x.trace) == 3 &&
            Writes(x.trace, "VF\r") == 3 && Writes(x.trace, "\r") == 2
  {
    var script := ["?", "E", "VF 0147330000,0"];
    assert LineAt(script, 0) == "?" && LineAt(script, 1) == "E";
    assert !Echoes("?", "VF") && !Echoes("E", "VF");
    assert Echoes(LineAt(script, 2), "VF");
    AcceptedCounts("VF", script, Budget, 2);
    TransactAcceptsFirstEcho("VF", script, Budget, 2);
  }

  /** The reply is never empty for a non-empty command: either `NoSync` or a
      line that echoes the command's first characters. */
  lemma ReplyNotEmpty(command: string, pending: seq<string>, cnt: nat)
    requires command != ""
    ensures Transact(command, pending, cnt).reply != ""
    ensures |command| >= 2 && Transact(command, pending, cnt).reply != NoSync
            ==> |Transact(command, pending, cnt).reply| >= 2 &&
                Transact(command, pending, cnt).reply[..2] == command[..2]
  {
    TransactBounded(command, pending, cnt);
  }

  /** One attempt of the exchange, taken apart. */
  lemma TransactStep(command: string, pending: seq<string>, cnt: nat)
    requires cnt > 0
    ensures var line := NextLine(pending);
            var later := Transact(command, AfterLine(pending), cnt - 1);
            Transact(command, pending, cnt)
            == if Echoes(line, command) then Exchange(line, Attempt(command, line), AfterLine(pending))
               else Exchange(later.reply, Attempt(command, line) + Resync + later.trace, later.rest)
  {
  }

  /** One attempt: drain, send `data` and its carriage
      return, read one line. */
  method SendOnce(ser: Port, data: string) returns (rtn: string)
    modifies ser
    ensures rtn == NextLine(old(ser.pending)) && ser.pending == AfterLine(old(ser.pending))
    ensures ser.trace == old(ser.trace) + Attempt(data, rtn)
  {
    ser.Drain();
    ser.Write(data + "\r");
    rtn := ser.ReadLine();
  }

  /** Resynchronisation after a rejected reply: a bare carriage return, then two
      drains to let the radio time out whatever it had half-received. */
  method Resynchronise(ser: Port)
    modifies ser
    ensures ser.pending == old(ser.pending)
    ensures ser.trace == old(ser.trace) + Resync
  {
    ser.Write("\r");
    ser.Drain();
    ser.Drain();
  }

  /** `sendAndWait`: retry `data` on `ser` until the radio echoes it or the budget runs out. */
  method SendAndWait(ser: Port, data: string) returns (rtn: string)
    modifies ser
    ensures var x := Transact(data, old(ser.pending), Budget);
            rtn == x.reply && ser.trace == old(ser.trace) + x.trace && ser.pending == x.rest
  {
    var cnt: nat := Budget;
    ghost var whole := Transact(data, ser.pending, Budget);
    ghost var done: seq<Event> := [];
    while true
      invariant ser.trace == old(ser.trace) + done
      invariant whole.reply == Transact(data, ser.pending, cnt).reply
      invariant whole.rest == Transact(data, ser.pending, cnt).rest
      invariant whole.trace == done + Transact(data, ser.pending, cnt).trace
      decreases cnt
    {
      if cnt == 0 {
        return NoSync;
      }
      ghost var before := ser.pending;
      cnt := cnt - 1;
      rtn := SendOnce(ser, data);
      TransactStep(data, before, cnt + 1);
      if Mnemonic(rtn) == Mnemonic(data) {
        Regroup(old(ser.trace), done, Attempt(data, rtn), []);
        break;
      }
      Resynchronise(ser);
      Regroup(done, Attempt(data, rtn), Resync, Transact(data, ser.pending, cnt).trace);
      Regroup(old(ser.trace), done, Attempt(data, rtn), Resync);
      done := done + Attempt(data, rtn) + Resync;
    }
    return rtn;
  }
}
