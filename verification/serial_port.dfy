/**
 * The serial link to the radio, reduced to what the controller observes of
 * it: the lines the radio answers with, one per `readline`, and the record of
 * everything the controller did on the link, in order.
 */
module SerialPort {

  /** One action of the controller on the link. */
  datatype Event =
    | Drained                 // a bounded read whose data is discarded
    | Sent(text: string)      // `text` was written to the radio
    | Received(line: string)  // a line read from the radio

  /** What the next `readline` returns: the next scripted line, or an empty
      line once the radio has nothing more to say (the read times out). */
  function NextLine(pending: seq<string>): string {
    if pending == [] then "" else pending[0]
  }

  /** The script after one `readline`. */
  function AfterLine(pending: seq<string>): seq<string> {
    if pending == [] then [] else pending[1..]
  }

  /** A read takes the script apart: the line read followed by what is left is
      the script again, and the script shrinks by one line unless it was
      already exhausted. */
  lemma ReadSplitsScript(pending: seq<string>)
    ensures pending != [] ==> [NextLine(pending)] + AfterLine(pending) == pending
    ensures |AfterLine(pending)| == if pending == [] then 0 else |pending| - 1
    ensures pending == [] ==> NextLine(pending) == "" && AfterLine(pending) == []
  {
    if pending != [] {
      assert [pending[0]] + pending[1..] == pending;
    }
  }

  /** The open serial port `ser`. */
  class Port {
    /** Reply lines the radio will produce, in order. */
    var pending: seq<string>
    /** Everything done on the port so far, oldest first. */
    var trace: seq<Event>

    constructor (script: seq<string>)
      ensures pending == script && trace == []
    {
      pending := script;
      trace := [];
    }

    /** A bounded read whose result is thrown away. */
    method Drain()
      modifies this
      ensures pending == old(pending)
      ensures trace == old(trace) + [Drained]
    {
      trace := trace + [Drained];
    }

    /** Writes `text` to the radio. */
    method Write(text: string)
      modifies this
      ensures pending == old(pending)
      ensures trace == old(trace) + [Sent(text)]
    {
      trace := trace + [Sent(text)];
    }

    /** Reads one line from the radio. */
    method ReadLine() returns (line: string)
      modifies this
      ensures line == NextLine(old(pending))
      ensures pending == AfterLine(old(pending))
      ensures trace == old(trace) + [Received(line)]
    {
      line := NextLine(pending);
      pending := AfterLine(pending);
      trace := trace + [Received(line)];
    }
  }
}
