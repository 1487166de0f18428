/**
 * The LLM streaming client of tools/openai_chat.py.
 *
 * The remote model is an oracle: an `Upstream` is the finite list of chunks it
 * sends, and possibly the error it raises after them. The client resolves the
 * model name through the environment, gates reasoning mode on GLOBAL_R1,
 * inserts a system message at the head of the caller's message list, and turns
 * the chunks into `event:update` frames followed by one `event: Done` frame.
 * In reasoning mode a four-state machine (the source's `r1_think_flag`
 * 0/1/2/3) wraps the reasoning text in `<think>` ... `</think>`.
 */
module OpenAiChat {
  import opened Common

  const DefaultSystemPrompt: string := "You are an AI assistant that helps people with their questions."

  /** The process environment as `os.getenv` sees it. */
  type Env = map<string, string>

  /**
   * The model name is looked up in the environment; a non-empty value there
   * replaces it, otherwise the name is used as given.
   */
  function ResolveModelName(env: Env, modelName: string): (r: string)
    ensures modelName in env && env[modelName] != "" ==> r == env[modelName]
    ensures !(modelName in env && env[modelName] != "") ==> r == modelName
  {
    if modelName in env && env[modelName] != "" then env[modelName] else modelName
  }

  /** Reasoning mode is honoured only when GLOBAL_R1 is exactly "True". */
  function ReasoningEnabled(env: Env, ifR1: bool): (r: bool)
    ensures !("GLOBAL_R1" in env && env["GLOBAL_R1"] == "True") ==> !r
    ensures "GLOBAL_R1" in env && env["GLOBAL_R1"] == "True" ==> r == ifR1
  {
    if !("GLOBAL_R1" in env && env["GLOBAL_R1"] == "True") then false else ifR1
  }

  /** An exception raised by the client. */
  datatype StreamError =
    | IndexError              // `messages[0]` of an empty list
    | UnboundLocal            // `full` read after an empty stream
    | Raised(fault: Fault)    // raised by the provider stream itself
    | RequestFailed           // the httpx request failed, or `raise_for_status` rejected its status

  /** What the provider stream may raise once its chunks are consumed. */
  datatype Fault = JsonDecodeFault | OtherFault

  // ---------------------------------------------------------------------------
  // System-message insertion
  // ---------------------------------------------------------------------------

  /**
   * The rule of get_chat_response, get_chat_response_stream_httpx and
   * get_chat_response_stream_langchain: exactly one system message is put in
   * front of the list. Its content is the generic default when no prompt is
   * given and the list does not start with a system message, and the given
   * prompt (possibly empty) otherwise. With no prompt the list's first entry
   * is read, which fails on an empty list.
   */
  function WithSystemMessage(messages: seq<Message>, systemPrompt: string): (r: Result<seq<Message>, StreamError>)
    ensures r.Err? <==> systemPrompt == "" && messages == []
    ensures r.Err? ==> r.error == IndexError
    ensures r.Ok? ==> |r.value| == |messages| + 1 && r.value[0].role == SystemRole && r.value[1..] == messages
    ensures r.Ok? && systemPrompt != "" ==> r.value[0].content == systemPrompt
    ensures r.Ok? && systemPrompt == "" ==>
              r.value[0].content == (if messages[0].role == SystemRole then "" else DefaultSystemPrompt)
  {
    if systemPrompt == "" && messages == [] then Err(IndexError)
    else if systemPrompt == "" && messages[0].role != SystemRole then
      Ok([Message(SystemRole, DefaultSystemPrompt)] + messages)
    else
      Ok([Message(SystemRole, systemPrompt)] + messages)
  }

  /**
   * The rule of get_chat_response_stream_asyoai: a default system message is
   * added only when no prompt is given and the list does not start with a
   * system message; otherwise the list is left as it is.
   */
  function WithDefaultSystemMessage(messages: seq<Message>, systemPrompt: string): (r: Result<seq<Message>, StreamError>)
    ensures r.Err? <==> systemPrompt == "" && messages == []
    ensures r.Ok? && systemPrompt == "" && messages[0].role != SystemRole ==>
              r.value == [Message(SystemRole, DefaultSystemPrompt)] + messages
    ensures r.Ok? && !(systemPrompt == "" && messages[0].role != SystemRole) ==> r.value == messages
  {
    if systemPrompt == "" && messages == [] then Err(IndexError)
    else if systemPrompt == "" && messages[0].role != SystemRole then
      Ok([Message(SystemRole, DefaultSystemPrompt)] + messages)
    else
      Ok(messages)
  }

  /**
   * The two insertion rules agree exactly when the default is inserted; in
   * every other case the asyoai rule leaves the list alone and the other rule
   * still adds a message, so an explicit prompt is ignored by the asyoai rule.
   */
  lemma InsertionRulesCompared(messages: seq<Message>, systemPrompt: string)
    requires systemPrompt != "" || messages != []
    ensures WithDefaultSystemMessage(messages, systemPrompt) == WithSystemMessage(messages, systemPrompt)
            <==> systemPrompt == "" && messages[0].role != SystemRole
  {
    var a := WithDefaultSystemMessage(messages, systemPrompt);
    var b := WithSystemMessage(messages, systemPrompt);
    if !(systemPrompt == "" && messages[0].role != SystemRole) {
      assert |a.value| != |b.value|;
    }
  }

  /** A caller-owned message list that the client mutates (`messages.insert(0, ...)`). */
  class MessageList {
    var items: seq<Message>

    constructor (items: seq<Message>)
      ensures this.items == items
    {
      this.items := items;
    }
  }

  /** `messages.insert(0, system_message)` in place, by the rule of WithSystemMessage. */
  method InsertSystemMessage(messages: MessageList, systemPrompt: string) returns (error: Option<StreamError>)
    modifies messages
    ensures WithSystemMessage(old(messages.items), systemPrompt).Ok? ==>
              error == None && messages.items == WithSystemMessage(old(messages.items), systemPrompt).value
    ensures WithSystemMessage(old(messages.items), systemPrompt).Err? ==>
              error == Some(IndexError) && messages.items == old(messages.items)
  {
    if systemPrompt == "" && messages.items == [] {
      return Some(IndexError);
    }
    if systemPrompt == "" && messages.items[0].role != SystemRole {
      messages.items := [Message(SystemRole, DefaultSystemPrompt)] + messages.items;
    } else {
      messages.items := [Message(SystemRole, systemPrompt)] + messages.items;
    }
    error := None;
  }

  /** The in-place insertion of get_chat_response_stream_asyoai. */
  method InsertDefaultSystemMessage(messages: MessageList, systemPrompt: string) returns (error: Option<StreamError>)
    modifies messages
    ensures WithDefaultSystemMessage(old(messages.items), systemPrompt).Ok? ==>
              error == None && messages.items == WithDefaultSystemMessage(old(messages.items), systemPrompt).value
    ensures WithDefaultSystemMessage(old(messages.items), systemPrompt).Err? ==>
              error == Some(IndexError) && messages.items == old(messages.items)
  {
    if systemPrompt == "" && messages.items == [] {
      return Some(IndexError);
    }
    if systemPrompt == "" && messages.items[0].role != SystemRole {
      messages.items := [Message(SystemRole, DefaultSystemPrompt)] + messages.items;
    }
    error := None;
  }

  // ---------------------------------------------------------------------------
  // Chunks, events and frames
  // ---------------------------------------------------------------------------

  /** One streamed message chunk: its content and its optional `reasoning_content`. */
  datatype Chunk = Chunk(content: string, reasoning: Option<string>)

  /** What the provider sends: chunks, then possibly an error. */
  datatype Upstream = Upstream(chunks: seq<Chunk>, fault: Option<Fault>)

  /** A chunk whose `reasoning_content` is present and truthy. */
  predicate HasReasoning(c: Chunk) {
    c.reasoning.Some? && c.reasoning.value != ""
  }

  /**
   * The frames the client yields, by the role each plays. All but `Done`
   * are written as `event:update` frames; `Done` carries the accumulated content.
   */
  datatype Event =
    | Open                          // data `<think>`
    | Reason(fragment: Option<string>)  // data is the reasoning text, or `None` when absent
    | Close                         // data `</think>`
    | Content(text: string)         // data is the chunk's content
    | Done(content: string)         // the terminal `event: Done` frame

  /** The `data:` text of an update frame (an absent reasoning text prints as `None`). */
  function UpdateData(e: Event): string
    requires !e.Done?
  {
    match e
    case Open => "<think>"
    case Reason(t) => if t.Some? then t.value else "None"
    case Close => "</think>"
    case Content(t) => t
  }

  /**
   * The frame on the wire. The Done payload is the JSON object holding the
   * content and the response metadata; `encodeDone` stands for that
   * serialisation, which is not modelled.
   */
  function Render(e: Event, encodeDone: string -> string): string
  {
    if e.Done? then "event: Done\ndata:" + encodeDone(e.content) + "\n\n"
    else "event:update\ndata:" + UpdateData(e) + "\n\n"
  }

  // ---------------------------------------------------------------------------
  // The think-flag state machine
  // ---------------------------------------------------------------------------

  /** `r1_think_flag`: 0 before any chunk, 1 after `<think>`, 2 while reasoning, 3 answering. */
  datatype ThinkState = Idle | Opened | Thinking | Answering

  datatype Step = Step(state: ThinkState, events: seq<Event>)

  /** The transition table of one chunk in reasoning mode. */
  function ThinkStep(s: ThinkState, c: Chunk): Step
  {
    match s
    case Idle =>
      if HasReasoning(c) then Step(Thinking, [Open, Reason(c.reasoning)]) else Step(Opened, [Open])
    case Opened =>
      if HasReasoning(c) then Step(Thinking, [Reason(c.reasoning)]) else Step(Opened, [])
    case Thinking =>
      if c.content != "" then
        if HasReasoning(c) then Step(Thinking, [Close, Reason(c.reasoning)])
        else Step(Answering, [Close, Content(c.content)])
      else Step(Thinking, [Reason(c.reasoning)])
    case Answering =>
      if HasReasoning(c) then Step(Thinking, [Reason(c.reasoning)]) else Step(Answering, [Content(c.content)])
  }

  /** The run of a machine `step` over a list of chunks from state `s`: the state reached and the events in order. */
  function RunSteps(step: (ThinkState, Chunk) -> Step, s: ThinkState, chunks: seq<Chunk>): Step
    decreases |chunks|
  {
    if chunks == [] then Step(s, [])
    else
      var first := step(s, chunks[0]);
      var rest := RunSteps(step, first.state, chunks[1..]);
      Step(rest.state, first.events + rest.events)
  }

  /** The think-flag machine run over a list of chunks from state `s`. */
  function ThinkRun(s: ThinkState, chunks: seq<Chunk>): Step
  {
    RunSteps(ThinkStep, s, chunks)
  }

  /** Running over `a + b` is running over `a`, then over `b` from where `a` ended. */
  lemma {:induction false} RunStepsConcat(step: (ThinkState, Chunk) -> Step, s: ThinkState, a: seq<Chunk>, b: seq<Chunk>)
    ensures RunSteps(step, s, a + b).state == RunSteps(step, RunSteps(step, s, a).state, b).state
    ensures RunSteps(step, s, a + b).events
            == RunSteps(step, s, a).events + RunSteps(step, RunSteps(step, s, a).state, b).events
    decreases |a|
  {
    if a == [] {
      assert a + b == b;
    } else {
      assert (a + b)[0] == a[0];
      assert (a + b)[1..] == a[1..] + b;
      RunStepsConcat(step, step(s, a[0]).state, a[1..], b);
    }
  }

  /** Running over one more chunk is one more step. */
  lemma ThinkRunSnoc(s: ThinkState, a: seq<Chunk>, c: Chunk)
    ensures ThinkRun(s, a + [c]).state == ThinkStep(ThinkRun(s, a).state, c).state
    ensures ThinkRun(s, a + [c]).events == ThinkRun(s, a).events + ThinkStep(ThinkRun(s, a).state, c).events
  {
    RunStepsConcat(ThinkStep, s, a, [c]);
    assert [c][1..] == [];
  }

  /** Plain mode: one content frame per chunk, in order, empty contents included. */
  function PlainEvents(chunks: seq<Chunk>): (r: seq<Event>)
    ensures |r| == |chunks|
  {
    seq(|chunks|, i requires 0 <= i < |chunks| => Content(chunks[i].content))
  }

  /** `full.content`'s growth by `full += chunk`: the contents concatenated left to right. */
  function Concat(chunks: seq<Chunk>): string
  {
    if chunks == [] then "" else Concat(chunks[..|chunks| - 1]) + chunks[|chunks| - 1].content
  }

  /**
   * The content of the Done frame: `full = chunk` on the first chunk and then
   * `full += chunk` on every chunk, the first one included.
   */
  function DoneContent(chunks: seq<Chunk>): string
    requires chunks != []
  {
    chunks[0].content + Concat(chunks)
  }

  /** What the client yields for an upstream, and the error it ends with, if any. */
  datatype Emission = Emission(events: seq<Event>, error: Option<StreamError>)

  /** The frames of get_chat_response_stream_langchain after the messages were prepared. */
  function Emit(up: Upstream, reasoning: bool): Emission
  {
    var body := if reasoning then ThinkRun(Idle, up.chunks).events else PlainEvents(up.chunks);
    if up.fault.Some? then Emission(body, Some(Raised(up.fault.value)))
    else if up.chunks == [] then Emission([], Some(UnboundLocal))
    else Emission(body + [Done(DoneContent(up.chunks))], None)
  }

  /**
   * The four consecutive tests on `r1_think_flag` for one chunk, in the
   * source's order; together they take the transition of ThinkStep.
   */
  method ThinkUpdate(think: ThinkState, chunk: Chunk) returns (next: ThinkState, emitted: seq<Event>)
    ensures Step(next, emitted) == ThinkStep(think, chunk)
  {
    next := think;
    emitted := [];
    if next == Idle {
      emitted := emitted + [Open];
      next := Opened;
    }
    if chunk.content != "" && next == Thinking {
      next := Answering;
      emitted := emitted + [Close];
    }
    if next == Thinking || HasReasoning(chunk) {
      next := Thinking;
      emitted := emitted + [Reason(chunk.reasoning)];
    }
    if next == Answering {
      emitted := emitted + [Content(chunk.content)];
    }
  }

  /**
   * The stream loop of get_chat_response_stream_langchain: `flag`, `full` and
   * `r1_think_flag` are updated chunk by chunk, as the source does.
   */
  method Normalise(up: Upstream, reasoning: bool) returns (events: seq<Event>, error: Option<StreamError>)
    ensures Emission(events, error) == Emit(up, reasoning)
  {
    var chunks := up.chunks;
    var first := true;
    var full: Option<string> := None;
    var think := Idle;
    events := [];
    var i := 0;
    while i < |chunks|
      invariant 0 <= i <= |chunks|
      invariant first <==> i == 0
      invariant i == 0 ==> full == None
      invariant i > 0 ==> full == Some(chunks[0].content + Concat(chunks[..i]))
      invariant reasoning ==> think == ThinkRun(Idle, chunks[..i]).state
      invariant reasoning ==> events == ThinkRun(Idle, chunks[..i]).events
      invariant !reasoning ==> events == PlainEvents(chunks[..i])
    {
      var chunk := chunks[i];
      if first {
        full := Some(chunk.content);
        first := false;
      }
      assert chunks[..i + 1] == chunks[..i] + [chunk];
      assert chunks[..i + 1][..i] == chunks[..i];
      assert Concat(chunks[..i + 1]) == Concat(chunks[..i]) + chunk.content;
      assert chunks[0].content + Concat(chunks[..i + 1]) == full.value + chunk.content by {
        if i == 0 {
          assert chunks[..i] == [];
        }
      }
      full := Some(full.value + chunk.content);
      if reasoning {
        ThinkRunSnoc(Idle, chunks[..i], chunk);
        var emitted;
        think, emitted := ThinkUpdate(think, chunk);
        events := events + emitted;
      } else {
        events := events + [Content(chunk.content)];
      }
      i := i + 1;
    }
    assert chunks[..i] == chunks;
    if up.fault.Some? {
      return events, Some(Raised(up.fault.value));
    }
    if full.None? {
      return [], Some(UnboundLocal);
    }
    events := events + [Done(full.value)];
    error := None;
  }

  /** The request the client sends to the provider. */
  datatype LlmCall = LlmCall(model: string, reasoning: bool, messages: seq<Message>)

  /**
   * get_chat_response_stream_langchain: resolve the model name, gate reasoning
   * mode, insert the system message into the caller's list, then stream.
   */
  method StreamLangchain(messages: MessageList, systemPrompt: string, modelName: string, ifR1: bool,
                         env: Env, up: Upstream)
    returns (call: Option<LlmCall>, events: seq<Event>, error: Option<StreamError>)
    modifies messages
    ensures var w := WithSystemMessage(old(messages.items), systemPrompt);
            && (w.Err? ==> call == None && events == [] && error == Some(IndexError)
                           && messages.items == old(messages.items))
            && (w.Ok? ==> messages.items == w.value
                          && call == Some(LlmCall(ResolveModelName(env, modelName), ReasoningEnabled(env, ifR1), w.value))
                          && Emission(events, error) == Emit(up, ReasoningEnabled(env, ifR1)))
  {
    var model := ResolveModelName(env, modelName);
    var reasoning := ReasoningEnabled(env, ifR1);
    var failed := InsertSystemMessage(messages, systemPrompt);
    if failed.Some? {
      return None, [], failed;
    }
    call := Some(LlmCall(model, reasoning, messages.items));
    events, error := Normalise(up, reasoning);
  }

  // ---------------------------------------------------------------------------
  // Properties of the stream
  // ---------------------------------------------------------------------------

  /** Plain mode: exactly one content frame per chunk, in arrival order, then one Done. */
  lemma PlainModeFrames(up: Upstream, encodeDone: string -> string)
    requires up.fault == None && up.chunks != []
    ensures var e := Emit(up, false).events;
            && Emit(up, false).error == None
            && |e| == |up.chunks| + 1
            && (forall i :: 0 <= i < |up.chunks| ==>
                  Render(e[i], encodeDone) == "event:update\ndata:" + up.chunks[i].content + "\n\n")
            && e[|up.chunks|] == Done(DoneContent(up.chunks))
  {
    var e := Emit(up, false).events;
    forall i | 0 <= i < |up.chunks|
      ensures Render(e[i], encodeDone) == "event:update\ndata:" + up.chunks[i].content + "\n\n"
    {
      assert e[i] == PlainEvents(up.chunks)[i];
    }
  }

  /** The concatenation read from the front: the first content, then the rest. */
  lemma {:induction false} ConcatFront(chunks: seq<Chunk>)
    requires chunks != []
    ensures Concat(chunks) == chunks[0].content + Concat(chunks[1..])
  {
    if |chunks| > 1 {
      var init := chunks[..|chunks| - 1];
      ConcatFront(init);
      assert init[1..] == chunks[1..][..|chunks[1..]| - 1];
      assert init[0] == chunks[0];
    } else {
      assert chunks[..0] == [];
      assert chunks[1..] == [];
    }
  }

  /** The Done content holds the first chunk's content twice, then every later content. */
  lemma DoneRepeatsFirstChunk(chunks: seq<Chunk>)
    requires chunks != []
    ensures DoneContent(chunks) == chunks[0].content + chunks[0].content + Concat(chunks[1..])
  {
    ConcatFront(chunks);
  }

  /** An empty stream yields no frame and fails because `full` was never bound. */
  lemma EmptyStreamFails(reasoning: bool)
    ensures Emit(Upstream([], None), reasoning) == Emission([], Some(UnboundLocal))
  {
  }

  /** The events of the state machine never include a Done frame. */
  lemma {:induction false} ThinkRunHasNoDone(s: ThinkState, chunks: seq<Chunk>)
    ensures forall i :: 0 <= i < |ThinkRun(s, chunks).events| ==> !ThinkRun(s, chunks).events[i].Done?
    decreases |chunks|
  {
    if chunks != [] {
      var first := ThinkStep(s, chunks[0]);
      var rest := ThinkRun(first.state, chunks[1..]);
      ThinkRunHasNoDone(first.state, chunks[1..]);
      assert ThinkRun(s, chunks) == Step(rest.state, first.events + rest.events);
      assert forall i :: 0 <= i < |first.events| ==> !first.events[i].Done?;
    }
  }

  /** Exactly one Done frame, the last one, ends a stream that did not fail; a failed stream has none. */
  lemma ExactlyOneDone(up: Upstream, reasoning: bool)
    ensures var em := Emit(up, reasoning);
            && (em.error == None ==> |em.events| > 0 && em.events[|em.events| - 1].Done?
                                     && forall i :: 0 <= i < |em.events| - 1 ==> !em.events[i].Done?)
            && (em.error != None ==> forall i :: 0 <= i < |em.events| ==> !em.events[i].Done?)
  {
    ThinkRunHasNoDone(Idle, up.chunks);
  }

  /**
   * The order the markers impose on reasoning-mode events: `<think>` comes
   * only first, `</think>` only right after reasoning text, and answer text
   * only right after `</think>` or more answer text.
   */
  predicate MayFollow(a: Event, b: Event) {
    match b
    case Open => false
    case Reason(_) => !a.Done?
    case Close => a.Reason?
    case Content(_) => a.Close? || a.Content?
    case Done(_) => false
  }

  predicate ThinkOrdered(events: seq<Event>) {
    events != [] && events[0] == Open && forall i :: 0 < i < |events| ==> MayFollow(events[i - 1], events[i])
  }

  /** The state the machine is in agrees with the last event it emitted. */
  predicate AgreesWithLast(s: ThinkState, events: seq<Event>) {
    events != [] &&
    match s
    case Idle => false
    case Opened => events[|events| - 1] == Open
    case Thinking => events[|events| - 1].Reason?
    case Answering => events[|events| - 1].Content?
  }

  lemma OrderedExtend(p: seq<Event>, e: seq<Event>)
    requires ThinkOrdered(p)
    requires e != [] ==> MayFollow(p[|p| - 1], e[0])
    requires forall i :: 0 < i < |e| ==> MayFollow(e[i - 1], e[i])
    ensures ThinkOrdered(p + e)
  {
    var q := p + e;
    forall i | 0 < i < |q|
      ensures MayFollow(q[i - 1], q[i])
    {
      if i < |p| {
        assert q[i - 1] == p[i - 1] && q[i] == p[i];
      } else if i == |p| {
        assert q[i - 1] == p[|p| - 1] && q[i] == e[0];
      } else {
        assert q[i - 1] == e[i - 1 - |p|] && q[i] == e[i - |p|];
      }
    }
  }

  /** One step from a running state keeps the order and the agreement with the last event. */
  lemma StepKeepsOrder(s: ThinkState, c: Chunk, p: seq<Event>)
    requires s != Idle && ThinkOrdered(p) && AgreesWithLast(s, p)
    ensures ThinkOrdered(p + ThinkStep(s, c).events)
    ensures AgreesWithLast(ThinkStep(s, c).state, p + ThinkStep(s, c).events)
  {
    var e := ThinkStep(s, c).events;
    OrderedExtend(p, e);
    if e == [] {
      assert p + e == p;
    } else {
      assert (p + e)[|p + e| - 1] == e[|e| - 1];
    }
  }

  lemma {:induction false} RunKeepsOrder(s: ThinkState, chunks: seq<Chunk>, p: seq<Event>)
    requires s != Idle && ThinkOrdered(p) && AgreesWithLast(s, p)
    ensures ThinkOrdered(p + ThinkRun(s, chunks).events)
    ensures AgreesWithLast(ThinkRun(s, chunks).state, p + ThinkRun(s, chunks).events)
    decreases |chunks|
  {
    if chunks != [] {
      var first := ThinkStep(s, chunks[0]);
      StepKeepsOrder(s, chunks[0], p);
      RunKeepsOrder(first.state, chunks[1..], p + first.events);
      var rest := ThinkRun(first.state, chunks[1..]);
      assert p + first.events + rest.events == p + (first.events + rest.events);
    }
  }

  /** From the start, the machine's first step emits `<think>` and then acts as state 1. */
  lemma {:induction false} RunFromIdle(chunks: seq<Chunk>)
    requires chunks != []
    ensures ThinkRun(Idle, chunks).events == [Open] + ThinkRun(Opened, chunks).events
    ensures ThinkRun(Idle, chunks).state == ThinkRun(Opened, chunks).state
  {
    var first := ThinkStep(Opened, chunks[0]);
    var rest := ThinkRun(first.state, chunks[1..]);
    assert [Open] + first.events + rest.events == [Open] + (first.events + rest.events);
  }

  /**
   * Reasoning mode on a non-empty stream: `<think>` is the first frame and
   * occurs nowhere else, every `</think>` directly follows reasoning text, and
   * answer text appears only after a `</think>`.
   */
  lemma ReasoningModeOrder(up: Upstream)
    requires up.chunks != []
    ensures ThinkOrdered(ThinkRun(Idle, up.chunks).events)
    ensures var e := Emit(up, true).events; e[0] == Open && forall i :: 0 < i < |e| ==> e[i] != Open
  {
    RunFromIdle(up.chunks);
    RunKeepsOrder(Opened, up.chunks, [Open]);
    var body := ThinkRun(Idle, up.chunks).events;
    var e := Emit(up, true).events;
    forall i | 0 < i < |e|
      ensures e[i] != Open
    {
      if i < |body| {
        assert e[i] == body[i];
        assert MayFollow(body[i - 1], body[i]);
      }
    }
  }

  /** Before any chunk carries reasoning, content chunks emit nothing after `<think>`. */
  lemma {:induction false} ContentBeforeReasoningDropped(chunks: seq<Chunk>)
    requires forall i :: 0 <= i < |chunks| ==> !HasReasoning(chunks[i])
    ensures ThinkRun(Opened, chunks) == Step(Opened, [])
  {
    if chunks != [] {
      ContentBeforeReasoningDropped(chunks[1..]);
    }
  }

  /** The reasoning fragments of a list of chunks, as events. */
  function ReasonEvents(chunks: seq<Chunk>): (r: seq<Event>)
    ensures |r| == |chunks|
  {
    seq(|chunks|, i requires 0 <= i < |chunks| => Reason(chunks[i].reasoning))
  }

  /** Chunks that carry only reasoning text. */
  predicate ReasoningOnly(chunks: seq<Chunk>) {
    forall i :: 0 <= i < |chunks| ==> HasReasoning(chunks[i]) && chunks[i].content == ""
  }

  /** Chunks that carry no reasoning text. */
  predicate AnswerOnly(chunks: seq<Chunk>) {
    forall i :: 0 <= i < |chunks| ==> !HasReasoning(chunks[i])
  }

  lemma {:induction false} ThinkingOverReasoning(r: seq<Chunk>)
    requires ReasoningOnly(r)
    ensures ThinkRun(Thinking, r) == Step(Thinking, ReasonEvents(r))
  {
    if r != [] {
      ThinkingOverReasoning(r[1..]);
      assert ReasonEvents(r) == [Reason(r[0].reasoning)] + ReasonEvents(r[1..]);
    }
  }

  lemma {:induction false} AnsweringOverAnswers(a: seq<Chunk>)
    requires AnswerOnly(a)
    ensures ThinkRun(Answering, a) == Step(Answering, PlainEvents(a))
  {
    if a != [] {
      AnsweringOverAnswers(a[1..]);
      assert PlainEvents(a) == [Content(a[0].content)] + PlainEvents(a[1..]);
    }
  }

  /** After `<think>`, reasoning-only chunks print their fragments and leave the machine thinking. */
  lemma OpenedOverReasoning(r: seq<Chunk>)
    requires r != [] && ReasoningOnly(r)
    ensures ThinkRun(Opened, r) == Step(Thinking, ReasonEvents(r))
  {
    assert ThinkStep(Opened, r[0]) == Step(Thinking, [Reason(r[0].reasoning)]);
    ThinkingOverReasoning(r[1..]);
    assert ReasonEvents(r) == [Reason(r[0].reasoning)] + ReasonEvents(r[1..]);
  }

  /** While thinking, answer chunks led by a non-empty content print `</think>` and then every content. */
  lemma ThinkingIntoAnswers(a: seq<Chunk>)
    requires a != [] && AnswerOnly(a) && a[0].content != ""
    ensures ThinkRun(Thinking, a) == Step(Answering, [Close] + PlainEvents(a))
  {
    assert ThinkStep(Thinking, a[0]) == Step(Answering, [Close, Content(a[0].content)]);
    AnsweringOverAnswers(a[1..]);
    assert PlainEvents(a) == [Content(a[0].content)] + PlainEvents(a[1..]);
    assert [Close, Content(a[0].content)] + PlainEvents(a[1..]) == [Close] + PlainEvents(a);
  }

  /**
   * A well-phased reasoning response (reasoning chunks, then answer chunks
   * starting with a non-empty content) yields `<think>`, the reasoning
   * fragments, `</think>`, and every answer content in order.
   */
  lemma PhasedReasoningEvents(r: seq<Chunk>, a: seq<Chunk>)
    requires r != [] && ReasoningOnly(r)
    requires a != [] && AnswerOnly(a) && a[0].content != ""
    ensures ThinkRun(Idle, r + a).events == [Open] + ReasonEvents(r) + [Close] + PlainEvents(a)
  {
    RunStepsConcat(ThinkStep, Idle, r, a);
    RunFromIdle(r);
    OpenedOverReasoning(r);
    ThinkingIntoAnswers(a);
    assert [Open] + ReasonEvents(r) + ([Close] + PlainEvents(a)) == [Open] + ReasonEvents(r) + [Close] + PlainEvents(a);
  }

  /** In the thinking state a chunk with neither content nor reasoning prints the literal `None`. */
  lemma ThinkingEmptyChunkPrintsNone()
    ensures ThinkStep(Thinking, Chunk("", None)) == Step(Thinking, [Reason(None)])
    ensures UpdateData(Reason(None)) == "None"
  {
  }

  // ---------------------------------------------------------------------------
  // The deprecated line-buffer parser of get_chat_response_stream_httpx
  // ---------------------------------------------------------------------------

  /**
   * `json.loads` of the buffer followed by `choices[0].delta.content`:
   * the content's text (empty when absent or falsy), a decode error, or a
   * value of the wrong shape (the lookup raises after the buffer was cleared).
   */
  datatype Parsed = Parsed(content: string) | NotJson | Malformed

  datatype LineStep = LineStep(buffer: string, data: seq<string>, stop: bool)

  /** The buffer after one non-blank line: appended, then a leading `data: ` removed. */
  function Appended(buffer: string, line: string): string
  {
    var b := buffer + line;
    if StartsWith(b, "data: ") then b[|"data: "|..] else b
  }

  /** One line of the httpx loop. */
  function HttpxLine(buffer: string, line: string, parse: string -> Parsed): (r: LineStep)
    ensures r.stop ==> r.buffer == "" && r.data == []
  {
    if line == "" then LineStep(buffer, [], false)
    else
      var b := Appended(buffer, line);
      if PyStrip(b) == "[DONE]" then LineStep("", [], true)
      else
        match parse(b)
        case Parsed(content) => LineStep("", if content != "" then [content] else [], false)
        case NotJson => LineStep(b, [], false)
        case Malformed => LineStep("", [], false)
  }

  /**
   * A left-to-right run of a line step over `lines`, starting from `buffer`:
   * the data of every step in order, ending at the first step that stops.
   */
  function RunLines(step: (string, string) -> LineStep, buffer: string, lines: seq<string>): LineStep
    decreases |lines|
  {
    if lines == [] then LineStep(buffer, [], false)
    else
      var first := step(buffer, lines[0]);
      if first.stop then first
      else
        var rest := RunLines(step, first.buffer, lines[1..]);
        LineStep(rest.buffer, first.data + rest.data, rest.stop)
  }

  /** Running over one more line is one more step after the run, unless the run stopped. */
  lemma {:induction false} RunLinesSnoc(step: (string, string) -> LineStep, buffer: string, lines: seq<string>, line: string)
    requires !RunLines(step, buffer, lines).stop
    ensures var r := RunLines(step, buffer, lines);
            var s := step(r.buffer, line);
            RunLines(step, buffer, lines + [line]) == LineStep(s.buffer, r.data + s.data, s.stop)
    decreases |lines|
  {
    if lines == [] {
      assert [line][1..] == [];
    } else {
      assert (lines + [line])[0] == lines[0];
      assert (lines + [line])[1..] == lines[1..] + [line];
      var first := step(buffer, lines[0]);
      RunLinesSnoc(step, first.buffer, lines[1..], line);
      var rest := RunLines(step, first.buffer, lines[1..]);
      var s := step(rest.buffer, line);
      assert first.data + (rest.data + s.data) == first.data + rest.data + s.data;
    }
  }

  /** A run over one line is that line's step. */
  lemma RunLinesSingle(step: (string, string) -> LineStep, buffer: string, line: string)
    ensures RunLines(step, buffer, [line]) == step(buffer, line)
  {
    assert [line][1..] == [];
    var s := step(buffer, line);
    assert s.data + [] == s.data;
  }

  /** Lines after a step that stops are never read. */
  lemma {:induction false} RunLinesStopped(step: (string, string) -> LineStep, buffer: string, lines: seq<string>, more: seq<string>)
    requires RunLines(step, buffer, lines).stop
    ensures RunLines(step, buffer, lines + more) == RunLines(step, buffer, lines)
    decreases |lines|
  {
    if lines != [] {
      assert (lines + more)[0] == lines[0];
      assert (lines + more)[1..] == lines[1..] + more;
      var first := step(buffer, lines[0]);
      if !first.stop {
        RunLinesStopped(step, first.buffer, lines[1..], more);
      }
    }
  }

  /**
   * One more line of a run that has not stopped: the run over the longer
   * prefix, and the whole run when that line stops it.
   */
  lemma RunLinesPrefix(step: (string, string) -> LineStep, start: string, lines: seq<string>, i: nat,
                       buffer: string, data: seq<string>)
    requires i < |lines| && RunLines(step, start, lines[..i]) == LineStep(buffer, data, false)
    ensures var s := step(buffer, lines[i]);
            && RunLines(step, start, lines[..i + 1]) == LineStep(s.buffer, data + s.data, s.stop)
            && (s.stop ==> RunLines(step, start, lines) == LineStep(s.buffer, data + s.data, true))
  {
    RunLinesSnoc(step, start, lines[..i], lines[i]);
    assert lines[..i + 1] == lines[..i] + [lines[i]];
    if step(buffer, lines[i]).stop {
      var more := lines[i + 1..];
      RunLinesStopped(step, start, lines[..i + 1], more);
      assert lines[..i + 1] + more == lines by {
        forall k | 0 <= k < |lines|
          ensures (lines[..i + 1] + more)[k] == lines[k]
        {
          if k > i {
            assert more[k - i - 1] == lines[k];
          }
        }
      }
    }
  }

  /** The step of the httpx loop as a function value. */
  function HttpxStep(parse: string -> Parsed): (string, string) -> LineStep
  {
    (buffer: string, line: string) => HttpxLine(buffer, line, parse)
  }

  /** The loop over all lines, stopping at `[DONE]`. */
  function HttpxRun(buffer: string, lines: seq<string>, parse: string -> Parsed): LineStep
  {
    RunLines(HttpxStep(parse), buffer, lines)
  }

  /** The frames of an update list. */
  function UpdateFrames(data: seq<string>): (r: seq<string>)
    ensures |r| == |data|
  {
    seq(|data|, i requires 0 <= i < |data| => "event:update\ndata:" + data[i] + "\n\n")
  }

  /**
   * The body of the httpx loop for one line, in the source's order: a blank
   * line is skipped, the line is appended and a leading `data: ` removed,
   * `[DONE]` stops, and otherwise the buffer is parsed.
   */
  method HttpxLineUpdate(buffer: string, line: string, parse: string -> Parsed) returns (r: LineStep)
    ensures r == HttpxLine(buffer, line, parse)
  {
    if line == "" {
      return LineStep(buffer, [], false);
    }
    var b := buffer + line;
    if StartsWith(b, "data: ") {
      b := b[|"data: "|..];
    }
    if PyStrip(b) == "[DONE]" {
      return LineStep("", [], true);
    }
    var data: seq<string> := [];
    match parse(b) {
      case Parsed(content) =>
        b := "";
        if content != "" {
          data := [content];
        }
      case NotJson =>
      case Malformed =>
        b := "";
    }
    r := LineStep(b, data, false);
  }

  /**
   * The buffer loop of get_chat_response_stream_httpx: blank lines skipped,
   * a leading `data: ` stripped, `[DONE]` stops, text that does not parse
   * stays in the buffer, and only non-empty content yields a frame.
   */
  method HttpxLoop(lines: seq<string>, parse: string -> Parsed) returns (frames: seq<string>, leftover: string, done: bool)
    ensures var r := HttpxRun("", lines, parse); frames == UpdateFrames(r.data) && leftover == r.buffer && done == r.stop
  {
    ghost var step := HttpxStep(parse);
    var buffer := "";
    var data: seq<string> := [];
    var i := 0;
    while i < |lines|
      invariant 0 <= i <= |lines|
      invariant RunLines(step, "", lines[..i]) == LineStep(buffer, data, false)
    {
      var s := HttpxLineUpdate(buffer, lines[i], parse);
      assert step(buffer, lines[i]) == s;
      RunLinesPrefix(step, "", lines, i, buffer, data);
      if s.stop {
        assert data + s.data == data;
        return UpdateFrames(data), s.buffer, true;
      }
      buffer, data := s.buffer, data + s.data;
      i := i + 1;
    }
    assert lines[..i] == lines;
    frames, leftover, done := UpdateFrames(data), buffer, false;
  }

  /** Every frame of the httpx loop carries non-empty content. */
  lemma {:induction false} HttpxFramesNonEmpty(buffer: string, lines: seq<string>, parse: string -> Parsed)
    ensures "" !in HttpxRun(buffer, lines, parse).data
    decreases |lines|
  {
    if lines != [] {
      var first := HttpxLine(buffer, lines[0], parse);
      assert HttpxStep(parse)(buffer, lines[0]) == first;
      assert "" !in first.data;
      if !first.stop {
        HttpxFramesNonEmpty(first.buffer, lines[1..], parse);
        var rest := HttpxRun(first.buffer, lines[1..], parse);
        assert HttpxRun(buffer, lines, parse).data == first.data + rest.data;
      }
    }
  }

  /** The lines that are not blank, in order. */
  function NonBlank(lines: seq<string>): seq<string>
  {
    if lines == [] then []
    else if lines[0] == "" then NonBlank(lines[1..])
    else [lines[0]] + NonBlank(lines[1..])
  }

  /** Blank lines change nothing: the loop over the non-blank lines gives the same result. */
  lemma {:induction false} HttpxBlankLinesIgnored(buffer: string, lines: seq<string>, parse: string -> Parsed)
    ensures HttpxRun(buffer, lines, parse) == HttpxRun(buffer, NonBlank(lines), parse)
    decreases |lines|
  {
    if lines != [] {
      if lines[0] == "" {
        HttpxBlankLinesIgnored(buffer, lines[1..], parse);
      } else {
        var first := HttpxLine(buffer, lines[0], parse);
        var nb := NonBlank(lines);
        assert nb[0] == lines[0] && nb[1..] == NonBlank(lines[1..]);
        if !first.stop {
          HttpxBlankLinesIgnored(first.buffer, lines[1..], parse);
        }
      }
    }
  }

  /** Once `[DONE]` is seen, later lines are never read. */
  lemma HttpxDoneIsFinal(buffer: string, lines: seq<string>, more: seq<string>, parse: string -> Parsed)
    requires HttpxRun(buffer, lines, parse).stop
    ensures HttpxRun(buffer, lines + more, parse).data == HttpxRun(buffer, lines, parse).data
  {
    RunLinesStopped(HttpxStep(parse), buffer, lines, more);
  }

  /** Text that does not parse stays in the buffer and the next line is appended to it. */
  lemma HttpxIncompleteKept(buffer: string, line: string, next: string, parse: string -> Parsed)
    requires line != "" && next != ""
    requires PyStrip(Appended(buffer, line)) != "[DONE]" && parse(Appended(buffer, line)) == NotJson
    ensures HttpxRun(buffer, [line, next], parse) == HttpxLine(Appended(buffer, line), next, parse)
  {
    var step := HttpxStep(parse);
    assert step(buffer, line) == LineStep(Appended(buffer, line), [], false);
    RunLinesSingle(step, buffer, line);
    RunLinesSnoc(step, buffer, [line], next);
    assert [line] + [next] == [line, next];
    var s := step(Appended(buffer, line), next);
    assert [] + s.data == s.data;
  }

  /**
   * What the httpx client receives: whether the request succeeded with a
   * 2xx status, the lines `aiter_lines` delivers, and whether reading past
   * them raises (a transport error) rather than ending the stream.
   */
  datatype HttpxResponse = HttpxResponse(statusOk: bool, lines: seq<string>, readFault: bool)

  /**
   * get_chat_response_stream_httpx: system message inserted in place, then
   * the request; a failed request or a non-2xx status raises before any
   * line is read; otherwise the buffer loop runs, and a read fault after the
   * delivered lines raises unless `[DONE]` ended the loop first. Frames
   * yielded before a fault stay yielded.
   */
  method StreamHttpx(messages: MessageList, systemPrompt: string, response: HttpxResponse, parse: string -> Parsed)
    returns (frames: seq<string>, error: Option<StreamError>)
    modifies messages
    ensures var w := WithSystemMessage(old(messages.items), systemPrompt);
            && (w.Err? ==> error == Some(IndexError) && frames == [] && messages.items == old(messages.items))
            && (w.Ok? ==> messages.items == w.value)
            && (w.Ok? && !response.statusOk ==> error == Some(RequestFailed) && frames == [])
            && (w.Ok? && response.statusOk ==>
                  var r := HttpxRun("", response.lines, parse);
                  && frames == UpdateFrames(r.data)
                  && (error == None <==> r.stop || !response.readFault)
                  && (error != None ==> error == Some(Raised(OtherFault))))
  {
    error := InsertSystemMessage(messages, systemPrompt);
    if error.Some? {
      return [], error;
    }
    if !response.statusOk {
      return [], Some(RequestFailed);
    }
    var leftover, done;
    frames, leftover, done := HttpxLoop(response.lines, parse);
    if !done && response.readFault {
      error := Some(Raised(OtherFault));
    }
  }
}
