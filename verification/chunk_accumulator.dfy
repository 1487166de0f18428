/**
 * The chunk accumulator of utils/openai_chat.py (get_chat_response_stream).
 *
 * The model is streamed the caller's messages as they are. The first chunk is
 * pulled with `next` and becomes the accumulator; every later chunk is added
 * to it and yielded as an `event: Update` frame; finally one `event: Done`
 * frame carries the accumulated content. The model's reply is an oracle: the
 * chunk contents it sends, and whether it raises after them.
 */
module ChunkAccumulator {
  import opened Common

  /** What the provider sends: chunk contents, then possibly an error. */
  datatype Reply = Reply(contents: seq<string>, fails: bool)

  /** An exception leaving the generator. */
  datatype StreamError =
    | NoFirstChunk    // `next` on a stream with no chunk raises StopIteration, which leaves
                      // the async generator as a RuntimeError (PEP 479)
    | ProviderError   // raised by the provider stream

  /** The frames, by role; `Done` carries the accumulated content. */
  datatype Frame = Update(text: string) | Done(content: string)

  /**
   * The wire text of a frame. The Done payload is the JSON object holding
   * the content and the response metadata; `encodeDone` stands for that
   * serialisation, which is not modelled.
   */
  function Render(f: Frame, encodeDone: string -> string): string
  {
    match f
    case Update(t) => "event: Update\ndata: " + t + "\n\n"
    case Done(c) => "event: Done\ndata: " + encodeDone(c) + "\n\n"
  }

  /** The contents concatenated left to right, as `full += chunk` builds them. */
  function Join(contents: seq<string>): string
    decreases |contents|
  {
    if contents == [] then "" else Join(contents[..|contents| - 1]) + contents[|contents| - 1]
  }

  /** One Update frame per content, in order. */
  function Updates(contents: seq<string>): (r: seq<Frame>)
    ensures |r| == |contents|
  {
    seq(|contents|, i requires 0 <= i < |contents| => Update(contents[i]))
  }

  /** The frames yielded and the error raised, if any. */
  datatype Outcome = Outcome(frames: seq<Frame>, error: Option<StreamError>)

  /** The reference behaviour of the generator for a reply. */
  function Expected(reply: Reply): Outcome
  {
    if reply.contents == [] then Outcome([], Some(if reply.fails then ProviderError else NoFirstChunk))
    else if reply.fails then Outcome(Updates(reply.contents[1..]), Some(ProviderError))
    else Outcome(Updates(reply.contents[1..]) + [Done(Join(reply.contents))], None)
  }

  /** A provider call: the message list sent, and what came back. */
  datatype Call = Call(sent: seq<Message>, outcome: Outcome)

  /**
   * get_chat_response_stream: the messages are sent unchanged; the first
   * chunk starts `full`; the loop adds and yields every later chunk; Done
   * follows unless the provider raised.
   */
  method GetChatResponseStream(messages: seq<Message>, reply: Reply) returns (call: Call)
    ensures call == Call(messages, Expected(reply))
  {
    var contents := reply.contents;
    if contents == [] {
      var e := if reply.fails then ProviderError else NoFirstChunk;
      return Call(messages, Outcome([], Some(e)));
    }
    var full := contents[0];
    var frames: seq<Frame> := [];
    var i := 1;
    while i < |contents|
      invariant 1 <= i <= |contents|
      invariant full == Join(contents[..i])
      invariant frames == Updates(contents[1..i])
    {
      assert contents[..i + 1][..i] == contents[..i];
      assert contents[1..i + 1] == contents[1..i] + [contents[i]];
      full := full + contents[i];
      frames := frames + [Update(contents[i])];
      i := i + 1;
    }
    assert contents[..i] == contents;
    if reply.fails {
      return Call(messages, Outcome(frames, Some(ProviderError)));
    }
    call := Call(messages, Outcome(frames + [Done(full)], None));
  }

  /** Reading the concatenation from the front: the first content, then the rest. */
  lemma {:induction false} JoinFront(contents: seq<string>)
    requires contents != []
    ensures Join(contents) == contents[0] + Join(contents[1..])
    decreases |contents|
  {
    if |contents| == 1 {
      assert contents[..0] == [] && contents[1..] == [];
    } else {
      var init := contents[..|contents| - 1];
      var rest := contents[1..];
      var last := contents[|contents| - 1];
      JoinFront(init);
      assert init[0] == contents[0];
      assert Join(contents) == Join(init) + last;
      assert rest[..|rest| - 1] == init[1..] && rest[|rest| - 1] == last;
      assert Join(rest) == Join(init[1..]) + last;
      assert contents[0] + Join(init[1..]) + last == contents[0] + (Join(init[1..]) + last);
    }
  }

  /**
   * A stream that did not fail: the first content is never an Update frame,
   * every later content is one, in order, and exactly one Done frame comes
   * last, holding every content once.
   */
  lemma CompletedStream(reply: Reply, encodeDone: string -> string)
    requires reply.contents != [] && !reply.fails
    ensures var o := Expected(reply);
            && o.error == None
            && |o.frames| == |reply.contents|
            && (forall i :: 0 <= i < |reply.contents| - 1 ==>
                  Render(o.frames[i], encodeDone) == "event: Update\ndata: " + reply.contents[i + 1] + "\n\n")
            && (forall i :: 0 <= i < |o.frames| - 1 ==> !o.frames[i].Done?)
            && o.frames[|o.frames| - 1] == Done(reply.contents[0] + Join(reply.contents[1..]))
  {
    JoinFront(reply.contents);
    var o := Expected(reply);
    forall i | 0 <= i < |reply.contents| - 1
      ensures o.frames[i] == Update(reply.contents[i + 1])
    {
      assert o.frames[i] == Updates(reply.contents[1..])[i];
    }
  }

  /** An empty stream raises at `next` before any frame. */
  lemma EmptyStreamRaises()
    ensures Expected(Reply([], false)) == Outcome([], Some(NoFirstChunk))
  {
  }

  /** A failed stream has no Done frame. */
  lemma FailedStreamHasNoDone(reply: Reply)
    requires reply.fails
    ensures Expected(reply).error == Some(ProviderError)
    ensures forall i :: 0 <= i < |Expected(reply).frames| ==> !Expected(reply).frames[i].Done?
  {
  }
}
