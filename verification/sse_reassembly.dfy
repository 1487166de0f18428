/**
 * The line-to-frame reassembly of DB_LG/tools/openai_chat.py.
 *
 * The upstream server speaks a loose form of the server-sent events format
 * (section 9.2 of the WHATWG HTML Living Standard): `event:` lines name an
 * event and `data:` lines carry its data. The client keeps the most recent
 * event name and a data buffer across lines and yields a frame
 * `event:E\ndata:B\n\n` whenever both are non-empty. Unlike the standard it
 * strips all surrounding whitespace and never joins data lines with LF. The
 * `event` variable starts unbound; reading it then raises, the exception is
 * caught and the buffer is reset.
 */
module SseReassembly {
  import opened Common

  /** A frame before rendering: the event name and the data buffer. */
  datatype Packet = Packet(event: string, data: string)

  /** The text of a frame on the wire. */
  function Frame(p: Packet): string {
    "event:" + p.event + "\ndata:" + p.data + "\n\n"
  }

  function Frames(ps: seq<Packet>): (r: seq<string>)
    ensures |r| == |ps|
    ensures forall i :: 0 <= i < |ps| ==> r[i] == Frame(ps[i])
  {
    seq(|ps|, i requires 0 <= i < |ps| => Frame(ps[i]))
  }

  /**
   * The loop's variables: the event name (None while unbound), the buffer,
   * and the packets yielded so far.
   */
  datatype Reading = Reading(event: Option<string>, buffer: string, packets: seq<Packet>)

  const Start: Reading := Reading(None, "", [])

  predicate IsEventLine(line: string) {
    StartsWith(line, "event:")
  }

  predicate IsDataLine(line: string) {
    !IsEventLine(line) && StartsWith(line, "data:")
  }

  /** The name carried by an `event:` line, stripped. */
  function EventName(line: string): string
    requires IsEventLine(line)
  {
    PyStrip(line[|"event:"|..])
  }

  /** The data carried by a `data:` line, stripped. */
  function Payload(line: string): string
    requires IsDataLine(line)
  {
    PyStrip(line[|"data:"|..])
  }

  /** One line of the loop. */
  function Feed(r: Reading, line: string): Reading
  {
    if line == "" then r
    else
      var event := if IsEventLine(line) then Some(EventName(line)) else r.event;
      var buffer := if IsDataLine(line) then r.buffer + Payload(line) else r.buffer;
      if event.None? then Reading(None, "", r.packets)
      else if event.value != "" && buffer != "" then Reading(event, "", r.packets + [Packet(event.value, buffer)])
      else Reading(event, buffer, r.packets)
  }

  /** The loop over `lines` from `r`. */
  function FeedAll(r: Reading, lines: seq<string>): Reading
    decreases |lines|
  {
    if lines == [] then r else Feed(FeedAll(r, lines[..|lines| - 1]), lines[|lines| - 1])
  }

  /**
   * The body of the loop for one line, with the source's tests in the
   * source's order; it takes the transition of Feed.
   */
  method ReadLine(event: Option<string>, buffer: string, packets: seq<Packet>, line: string)
    returns (event': Option<string>, buffer': string, packets': seq<Packet>)
    ensures Reading(event', buffer', packets') == Feed(Reading(event, buffer, packets), line)
  {
    event', buffer', packets' := event, buffer, packets;
    if line == "" {
      return;
    }
    if StartsWith(line, "event:") {
      event' := Some(PyStrip(line[|"event:"|..]));
    } else if StartsWith(line, "data:") {
      var data := PyStrip(line[|"data:"|..]);
      if buffer' != "" {
        buffer' := buffer' + data;
      } else {
        assert buffer' + data == data;
        buffer' := data;
      }
    }
    if event'.None? {
      buffer' := "";
    } else if event'.value != "" && buffer' != "" {
      packets' := packets' + [Packet(event'.value, buffer')];
      buffer' := "";
    }
  }

  /**
   * The loop of get_chat_response_stream_langchain over the response lines:
   * the event name, the buffer and the frames yielded so far are updated
   * line by line.
   */
  method Reassemble(lines: seq<string>) returns (frames: seq<string>)
    ensures frames == Frames(FeedAll(Start, lines).packets)
  {
    var event: Option<string> := None;
    var buffer := "";
    var packets: seq<Packet> := [];
    for i := 0 to |lines|
      invariant FeedAll(Start, lines[..i]) == Reading(event, buffer, packets)
    {
      assert lines[..i + 1][..i] == lines[..i];
      event, buffer, packets := ReadLine(event, buffer, packets, lines[i]);
    }
    assert lines[..|lines|] == lines;
    frames := Frames(packets);
  }

  // ---------------------------------------------------------------------------
  // Properties
  // ---------------------------------------------------------------------------

  /**
   * The states the loop can reach: names and buffer are stripped, and the
   * buffer holds data only while the event name is the empty string.
   */
  predicate Reachable(r: Reading) {
    && IsStripped(r.buffer)
    && (r.event.Some? ==> IsStripped(r.event.value))
    && (r.buffer != "" ==> r.event == Some(""))
  }

  /** Every packet has a non-empty, stripped name and non-empty, stripped data. */
  predicate WellFormed(ps: seq<Packet>) {
    forall i :: 0 <= i < |ps| ==>
      ps[i].event != "" && IsStripped(ps[i].event) && ps[i].data != "" && IsStripped(ps[i].data)
  }

  lemma FeedKeepsReachable(r: Reading, line: string)
    requires Reachable(r) && WellFormed(r.packets)
    ensures Reachable(Feed(r, line)) && WellFormed(Feed(r, line).packets)
    ensures |Feed(r, line).packets| > |r.packets| ==> Feed(r, line).buffer == ""
  {
    if line != "" && IsEventLine(line) {
      PyStripIsStripped(line[|"event:"|..]);
    }
    if line != "" && IsDataLine(line) {
      PyStripIsStripped(line[|"data:"|..]);
      ConcatStripped(r.buffer, Payload(line));
    }
  }

  /** From the start, every reached state is reachable and every frame is well formed. */
  lemma {:induction false} FeedAllReachable(lines: seq<string>)
    ensures Reachable(FeedAll(Start, lines)) && WellFormed(FeedAll(Start, lines).packets)
    decreases |lines|
  {
    if lines != [] {
      FeedAllReachable(lines[..|lines| - 1]);
      FeedKeepsReachable(FeedAll(Start, lines[..|lines| - 1]), lines[|lines| - 1]);
    }
  }

  /** Frames come out in line order: feeding more lines only adds packets at the end. */
  lemma {:induction false} FeedAllExtends(r: Reading, a: seq<string>, b: seq<string>)
    ensures FeedAll(r, a + b) == FeedAll(FeedAll(r, a), b)
    ensures FeedAll(r, a).packets <= FeedAll(r, a + b).packets
    decreases |b|
  {
    if b == [] {
      assert a + b == a;
    } else {
      var ab := a + b;
      assert ab[..|ab| - 1] == a + b[..|b| - 1];
      FeedAllExtends(r, a, b[..|b| - 1]);
    }
  }

  /** Blank lines are ignored entirely. */
  lemma BlankLineIgnored(r: Reading)
    ensures Feed(r, "") == r
  {
  }

  /** The non-blank lines, in order. */
  function NonBlank(lines: seq<string>): seq<string>
    decreases |lines|
  {
    if lines == [] then []
    else if lines[|lines| - 1] == "" then NonBlank(lines[..|lines| - 1])
    else NonBlank(lines[..|lines| - 1]) + [lines[|lines| - 1]]
  }

  lemma {:induction false} BlankLinesIgnored(r: Reading, lines: seq<string>)
    ensures FeedAll(r, lines) == FeedAll(r, NonBlank(lines))
    decreases |lines|
  {
    if lines != [] {
      var init := lines[..|lines| - 1];
      BlankLinesIgnored(r, init);
      if lines[|lines| - 1] != "" {
        var nb := NonBlank(init) + [lines[|lines| - 1]];
        assert nb[..|nb| - 1] == NonBlank(init);
      }
    }
  }

  /** Data lines before any `event:` line are discarded and yield nothing. */
  lemma {:induction false} DataBeforeEventDiscarded(lines: seq<string>)
    requires forall i :: 0 <= i < |lines| ==> !IsEventLine(lines[i])
    ensures FeedAll(Start, lines) == Start
    decreases |lines|
  {
    if lines != [] {
      DataBeforeEventDiscarded(lines[..|lines| - 1]);
    }
  }

  /**
   * Once a non-empty event name is set, a data line with non-empty data is
   * yielded at once under that name, on its own.
   */
  lemma NamedEventDataFramedAtOnce(r: Reading, line: string)
    requires Reachable(r) && r.event.Some? && r.event.value != ""
    requires IsDataLine(line)
    ensures Payload(line) != "" ==>
              Feed(r, line) == Reading(r.event, "", r.packets + [Packet(r.event.value, Payload(line))])
    ensures Payload(line) == "" ==> Feed(r, line) == r
  {
    var p := Payload(line);
    assert r.buffer == "";
    assert r.buffer + p == p;
  }

  /** The data of a list of data lines, concatenated without separators. */
  function Payloads(lines: seq<string>): string
    requires forall i :: 0 <= i < |lines| ==> IsDataLine(lines[i])
    decreases |lines|
  {
    if lines == [] then "" else Payloads(lines[..|lines| - 1]) + Payload(lines[|lines| - 1])
  }

  lemma DataOnEmptyName(buffer: string, ps: seq<Packet>, line: string)
    requires IsDataLine(line)
    ensures Feed(Reading(Some(""), buffer, ps), line) == Reading(Some(""), buffer + Payload(line), ps)
  {
  }

  /** While the event name is empty, data lines concatenate in the buffer and nothing is yielded. */
  lemma {:induction false} EmptyNameAccumulates(buffer: string, ps: seq<Packet>, lines: seq<string>)
    requires forall i :: 0 <= i < |lines| ==> IsDataLine(lines[i])
    ensures FeedAll(Reading(Some(""), buffer, ps), lines) == Reading(Some(""), buffer + Payloads(lines), ps)
    decreases |lines|
  {
    if lines == [] {
      assert buffer + "" == buffer;
    } else {
      var init := lines[..|lines| - 1];
      var last := lines[|lines| - 1];
      var mid := buffer + Payloads(init);
      EmptyNameAccumulates(buffer, ps, init);
      DataOnEmptyName(mid, ps, last);
      assert Payloads(lines) == Payloads(init) + Payload(last);
      assert mid + Payload(last) == buffer + Payloads(lines);
    }
  }

  /** The accumulated buffer is released together with the next non-empty event name. */
  lemma ReleasedByNextName(buffer: string, ps: seq<Packet>, line: string)
    requires buffer != "" && IsEventLine(line) && EventName(line) != ""
    ensures Feed(Reading(Some(""), buffer, ps), line)
            == Reading(Some(EventName(line)), "", ps + [Packet(EventName(line), buffer)])
  {
  }

  /** In a reachable state, a line that is neither `event:` nor `data:` changes nothing. */
  lemma OtherLineChangesNothing(r: Reading, line: string)
    requires Reachable(r)
    requires !IsEventLine(line) && !StartsWith(line, "data:")
    ensures Feed(r, line) == r
  {
  }
}
