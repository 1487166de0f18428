/**
 * The case-review service of services/lg_service.py.
 *
 * A case row of `csm.ta_wf_caseinfo` is read with a query that cuts the
 * stored model response into its reasoning part (`think`) and its answer
 * part (`ai_comment`) with PostgreSQL string functions; the chat endpoint
 * builds a system prompt from the case, or a fixed one without a case, and
 * streams one user message through the LLM client. The database row and the
 * provider's stream are oracles.
 */
module LgService {
  import opened Common
  import opened OpenAiChat

  // ---------------------------------------------------------------------------
  // The PostgreSQL string functions of the case query
  // ---------------------------------------------------------------------------

  /** Does `sub` occur anywhere in `s`? */
  ghost predicate Occurs(s: string, sub: string) {
    exists k :: OccursAt(s, sub, k)
  }

  /** `POSITION(sub IN s)`: the 1-based index of the first occurrence, 0 when there is none. */
  function Position(s: string, sub: string): (p: nat)
    ensures p == 0 <==> !Occurs(s, sub)
    ensures p > 0 ==> OccursAt(s, sub, p - 1) && forall k :: 0 <= k < p - 1 ==> !OccursAt(s, sub, k)
  {
    Find(s, sub, 0) + 1
  }

  /** `GREATEST(a, b)` */
  function Greatest(a: int, b: int): (r: int)
    ensures r >= a && r >= b && (r == a || r == b)
  {
    if a >= b then a else b
  }

  /**
   * `SUBSTRING(s FROM start FOR count)` for a count that is not negative: the
   * characters at the 1-based positions `start` .. `start + count - 1` that
   * exist in `s`.
   */
  function Substring(s: string, start: int, count: nat): (r: string)
    ensures |r| <= count
    ensures 1 <= start <= |s| + 1 ==>
              r == s[start - 1 .. if start - 1 + count <= |s| then start - 1 + count else |s|]
    ensures start > |s| + 1 ==> r == ""
  {
    var lo := if start < 1 then 1 else start;
    var hi := if start + count > |s| + 1 then |s| + 1 else start + count;
    if lo < hi then s[lo - 1 .. hi - 1] else ""
  }

  /** The only character `TRIM` removes by default. */
  predicate IsSpace(c: char) {
    c == ' '
  }

  /** `TRIM(s)`: leading and trailing spaces removed; other whitespace is kept. */
  function Trim(s: string): string
  {
    StripBy(s, IsSpace)
  }

  /** TRIM removes spaces and nothing else from both ends of a middle part of its argument. */
  lemma TrimSpec(s: string)
    ensures var r := Trim(s); var a := LeadingRun(s, IsSpace);
            && (r == [] || (r[0] != ' ' && r[|r| - 1] != ' '))
            && a + |r| <= |s| && r == s[a..a + |r|]
            && (forall i :: 0 <= i < a ==> s[i] == ' ')
            && (forall i :: a + |r| <= i < |s| ==> s[i] == ' ')
  {
    StripBySpec(s, IsSpace);
  }

  const OpenMarker: string := "<think>"
  const CloseMarker: string := "</think>"

  /**
   * The `think` column: when both markers occur, the trimmed text that starts
   * right after the first `<think>` and runs for
   * `GREATEST(close - open - 7, 0)` characters; NULL otherwise.
   */
  function Think(response: Option<string>): Option<string>
  {
    if response.None? then None
    else
      var s := response.value;
      var open := Position(s, OpenMarker);
      var close := Position(s, CloseMarker);
      if open > 0 && close > 0 then Some(Trim(Substring(s, open + 7, Greatest(close - open - 7, 0))))
      else None
  }

  /**
   * The `ai_comment` column: when `</think>` occurs, the trimmed text that
   * starts right after it and runs for `GREATEST(close, 0)` characters, the
   * marker's own 1-based position; NULL otherwise.
   */
  function AiComment(response: Option<string>): Option<string>
  {
    if response.None? then None
    else
      var s := response.value;
      var close := Position(s, CloseMarker);
      if close > 0 then Some(Trim(Substring(s, close + 8, Greatest(close, 0))))
      else None
  }

  /** `think` is NULL exactly when the response is NULL or lacks one of the markers. */
  lemma ThinkNull(response: Option<string>)
    ensures Think(response).None? <==>
              response.None? || !Occurs(response.value, OpenMarker) || !Occurs(response.value, CloseMarker)
  {
  }

  /** `ai_comment` is NULL exactly when the response is NULL or lacks `</think>`. */
  lemma AiCommentNull(response: Option<string>)
    ensures AiComment(response).None? <==> response.None? || !Occurs(response.value, CloseMarker)
  {
  }

  /** The two markers cannot overlap: the first `</think>` is before the first `<think>` or after its end. */
  lemma MarkersApart(s: string, a: nat, b: nat)
    requires OccursAt(s, OpenMarker, a) && OccursAt(s, CloseMarker, b)
    ensures b < a || b >= a + 7
  {
    assert s[b] == CloseMarker[0] && s[b + 1] == CloseMarker[1];
    assert s[a + 1] == OpenMarker[1];
    forall k | a < k < a + 7
      ensures s[k] != '<'
    {
      assert s[k] == OpenMarker[k - a];
    }
  }

  /** With `</think>` after `<think>`, `think` is the trimmed text between the first of each. */
  lemma ThinkBetweenMarkers(s: string)
    requires Occurs(s, OpenMarker) && Occurs(s, CloseMarker)
    requires Position(s, OpenMarker) < Position(s, CloseMarker)
    ensures var a := Position(s, OpenMarker) - 1; var b := Position(s, CloseMarker) - 1;
            a + 7 <= b && Think(Some(s)) == Some(Trim(s[a + 7..b]))
  {
    var a := Position(s, OpenMarker) - 1;
    var b := Position(s, CloseMarker) - 1;
    assert OccursAt(s, CloseMarker, b);
    assert b + 8 <= |s|;
    MarkersApart(s, a, b);
    var t := Substring(s, a + 8, b - a - 7);
    assert t == s[a + 7..b];
    ThinkSpan(s, a + 1, b + 1);
  }

  /** `think` once the two positions are known and apart. */
  lemma ThinkSpan(s: string, open: nat, close: nat)
    requires Position(s, OpenMarker) == open && Position(s, CloseMarker) == close && 0 < open && open + 7 <= close
    ensures Think(Some(s)) == Some(Trim(Substring(s, open + 7, close - open - 7)))
  {
  }

  /** With `</think>` first, the clamp makes `think` the empty string, not NULL. */
  lemma ThinkEmptyWhenCloseFirst(s: string)
    requires Occurs(s, OpenMarker) && Occurs(s, CloseMarker)
    requires Position(s, CloseMarker) < Position(s, OpenMarker)
    ensures Think(Some(s)) == Some("")
  {
    StripByStripped("", IsSpace);
  }

  /**
   * `ai_comment` starts right after the first `</think>` and, before
   * trimming, is at most as long as that marker's 1-based position.
   */
  lemma AiCommentAfterMarker(s: string)
    requires Occurs(s, CloseMarker)
    ensures var p := Position(s, CloseMarker);
            var end := if p + 7 + p <= |s| then p + 7 + p else |s|;
            && p + 7 <= end
            && end - (p + 7) <= p
            && AiComment(Some(s)) == Some(Trim(s[p + 7..end]))
  {
    var p := Position(s, CloseMarker);
    var end := if p + 7 + p <= |s| then p + 7 + p else |s|;
    assert OccursAt(s, CloseMarker, p - 1);
    assert p + 7 <= |s|;
    var t := Substring(s, p + 8, p);
    assert t == s[p + 7..end];
    AiCommentSpan(s, p);
  }

  /** `ai_comment` once the position of `</think>` is known. */
  lemma AiCommentSpan(s: string, close: nat)
    requires Position(s, CloseMarker) == close && 0 < close
    ensures AiComment(Some(s)) == Some(Trim(Substring(s, close + 8, close)))
  {
  }

  /** The length cap cuts a long answer: only the first character of ten follows a leading `</think>`. */
  lemma AiCommentTruncated()
    ensures AiComment(Some(CloseMarker + "abcdefghij")) == Some("a")
  {
    var s := CloseMarker + "abcdefghij";
    assert OccursAt(s, CloseMarker, 0);
    FindFirst(s, CloseMarker, 0, 0);
    assert Substring(s, 9, 1) == "a";
    StripByStripped("a", IsSpace);
  }

  // ---------------------------------------------------------------------------
  // get_case_info_from_db
  // ---------------------------------------------------------------------------

  /** The columns of a case row that the model reads; any of them may be NULL. */
  datatype CaseRow = CaseRow(caseId: Option<string>, problemDescription: Option<string>,
                             problemReply: Option<string>, response: Option<string>, caller: Option<string>)

  /** A CaseInfoResponse, with the columns the prompt uses. */
  datatype CaseInfo = CaseInfo(caseId: string, problemDescription: string, problemReply: string,
                               think: Option<string>, aiComment: Option<string>, caller: string)

  /** The required string fields of CaseInfoResponse are present. */
  predicate Complete(row: CaseRow) {
    row.caseId.Some? && row.problemDescription.Some? && row.problemReply.Some? && row.caller.Some?
  }

  /** What can be raised inside the `try` of get_case_info_from_db. */
  datatype CaseFault =
    | QueryFailed          // connection or query error
    | NotFound             // the HTTPException 404 raised for a missing row
    | ValidationFailed     // a required field of CaseInfoResponse is NULL

  /** The body of the `try`: the response built from the first row, or what it raises. */
  function CaseAttempt(connected: bool, row: Option<CaseRow>): (r: Result<CaseInfo, CaseFault>)
  {
    if !connected then Err(QueryFailed)
    else if row.None? then Err(NotFound)
    else if !Complete(row.value) then Err(ValidationFailed)
    else
      var c := row.value;
      Ok(CaseInfo(c.caseId.value, c.problemDescription.value, c.problemReply.value,
                  Think(c.response), AiComment(c.response), c.caller.value))
  }

  /** get_case_info_from_db: every exception of the `try`, the 404 included, becomes status 500. */
  function CaseLookup(connected: bool, row: Option<CaseRow>): (r: Result<CaseInfo, int>)
  {
    var attempt := CaseAttempt(connected, row);
    if attempt.Err? then Err(500) else Ok(attempt.value)
  }

  method GetCaseInfoFromDb(connected: bool, row: Option<CaseRow>) returns (r: Result<CaseInfo, int>)
    ensures r == CaseLookup(connected, row)
  {
    var attempt: Result<CaseInfo, CaseFault>;
    if !connected {
      attempt := Err(QueryFailed);
    } else if row.Some? {
      var c := row.value;
      if Complete(c) {
        attempt := Ok(CaseInfo(c.caseId.value, c.problemDescription.value, c.problemReply.value,
                               Think(c.response), AiComment(c.response), c.caller.value));
      } else {
        attempt := Err(ValidationFailed);
      }
    } else {
      attempt := Err(NotFound);
    }
    if attempt.Err? {
      return Err(500);
    }
    r := Ok(attempt.value);
  }

  /**
   * The lookup fails exactly when it is not connected, finds no row or the
   * row lacks a required field; the failure is always 500, so a missing case
   * never reaches the caller as 404. A found case carries the columns cut
   * from its response.
   */
  lemma CaseLookupOutcomes(connected: bool, row: Option<CaseRow>)
    ensures var r := CaseLookup(connected, row);
            && (r.Err? <==> !connected || row.None? || !Complete(row.value))
            && (r.Err? ==> r.error == 500)
            && (r.Ok? ==> r.value.think == Think(row.value.response)
                          && r.value.aiComment == AiComment(row.value.response)
                          && r.value.problemDescription == row.value.problemDescription.value
                          && r.value.problemReply == row.value.problemReply.value)
  {
  }

  lemma MissingCaseIs500()
    ensures CaseAttempt(true, None) == Err(NotFound)
    ensures CaseLookup(true, None) == Err(500)
  {
  }

  // ---------------------------------------------------------------------------
  // chat_with_llm and generate_reply
  // ---------------------------------------------------------------------------

  /** The model both endpoints request. */
  const CaseModel: string := "deepseek-r1:32b-qwen-distill-q8_0"

  const NoCasePrompt: string := "用户未提供工单信息"

  const RagMarker: string := " [RAG]"

  /** `str(x)` of an optional value: None prints as `None`. */
  function PyStr(v: Option<string>): string
  {
    if v.Some? then v.value else "None"
  }

  const CaseHeader: string := "以下是供你参考的本次工单个案的信息:\n 工单问题总结描述: "

  /** The system prompt built from a case. */
  function CasePrompt(info: CaseInfo): string
  {
    CaseHeader + info.problemDescription + " \n 工单问题总结回复: " + info.problemReply
    + " \n AI评价: " + PyStr(info.aiComment)
  }

  /** The request body of /lg/chat, with the fields chat_with_llm reads. */
  datatype CaseChatRequest = CaseChatRequest(userInput: string, ifKb: bool, ifR1: bool, caseId: Option<string>)

  /** The text forwarded as the user message: the input, marked when the knowledge base is requested. */
  function FinalInput(userInput: string, ifKb: bool): (r: string)
    ensures |r| >= |userInput| && r[..|userInput|] == userInput
    ensures r == userInput <==> !ifKb
    ensures ifKb ==> r[|userInput|..] == RagMarker
  {
    if ifKb then userInput + RagMarker else userInput
  }

  /** The system prompt of chat_with_llm, or the status of the failed case lookup. */
  function ChatPrompt(request: CaseChatRequest, connected: bool, row: Option<CaseRow>): Result<string, int>
  {
    if request.caseId.Some? && request.caseId.value != "" then
      var info := CaseLookup(connected, row);
      if info.Err? then Err(info.error) else Ok(CasePrompt(info.value))
    else Ok(NoCasePrompt)
  }

  /** The status of the HTTPException the endpoint raises for a client error; None when it ends normally. */
  function ChatStatus(error: Option<StreamError>): Option<int>
  {
    if error.None? || error == Some(Raised(JsonDecodeFault)) then None else Some(5000)
  }

  /** What one call of an endpoint does: the request sent, the frames yielded, and the status raised. */
  datatype Outcome = Outcome(call: Option<LlmCall>, events: seq<Event>, status: Option<int>)

  /** chat_with_llm, as a function of the request and its oracles. */
  function CaseChat(request: CaseChatRequest, connected: bool, row: Option<CaseRow>, env: Env, up: Upstream): Outcome
  {
    var prompt := ChatPrompt(request, connected, row);
    if prompt.Err? then Outcome(None, [], Some(5000))
    else
      var sent := [Message(SystemRole, prompt.value), Message(UserRole, FinalInput(request.userInput, request.ifKb))];
      var reasoning := ReasoningEnabled(env, true);
      var e := Emit(up, reasoning);
      Outcome(Some(LlmCall(ResolveModelName(env, CaseModel), reasoning, sent)), e.events, ChatStatus(e.error))
  }

  /** chat_with_llm: the message list is built by one append and handed to the client. */
  method ChatWithLlm(request: CaseChatRequest, connected: bool, row: Option<CaseRow>, env: Env, up: Upstream)
    returns (outcome: Outcome)
    ensures outcome == CaseChat(request, connected, row, env, up)
  {
    var systemPrompt: string;
    if request.caseId.Some? && request.caseId.value != "" {
      var caseInfo := GetCaseInfoFromDb(connected, row);
      if caseInfo.Err? {
        return Outcome(None, [], Some(5000));
      }
      systemPrompt := CasePrompt(caseInfo.value);
    } else {
      systemPrompt := NoCasePrompt;
    }
    var finallyInput;
    if request.ifKb {
      finallyInput := request.userInput + RagMarker;
    } else {
      finallyInput := request.userInput;
    }
    assert ChatPrompt(request, connected, row) == Ok(systemPrompt);
    var messages := new MessageList([]);
    messages.items := messages.items + [Message(UserRole, finallyInput)];
    assert systemPrompt != "" by {
      assert |systemPrompt| > 0;
    }
    ghost var sent := [Message(SystemRole, systemPrompt), Message(UserRole, finallyInput)];
    assert messages.items == [Message(UserRole, finallyInput)];
    assert [Message(SystemRole, systemPrompt)] + messages.items == sent;
    assert WithSystemMessage(messages.items, systemPrompt) == Ok(sent);
    var call, events, error := StreamLangchain(messages, systemPrompt, CaseModel, true, env, up);
    outcome := Outcome(call, events, ChatStatus(error));
  }

  /**
   * chat_with_llm sends exactly one user message after the system message,
   * with no earlier history, to the fixed model with reasoning requested,
   * whatever `if_r1` the request carries.
   */
  lemma CaseChatSendsOneTurn(request: CaseChatRequest, connected: bool, row: Option<CaseRow>, env: Env,
                             up: Upstream, ifR1: bool)
    ensures var o := CaseChat(request, connected, row, env, up);
            && o == CaseChat(request.(ifR1 := ifR1), connected, row, env, up)
            && (o.call.Some? ==>
                  && o.call.value.model == ResolveModelName(env, CaseModel)
                  && o.call.value.reasoning == ReasoningEnabled(env, true)
                  && |o.call.value.messages| == 2
                  && o.call.value.messages[0].role == SystemRole
                  && o.call.value.messages[1] == Message(UserRole, FinalInput(request.userInput, request.ifKb)))
  {
  }

  /** Without a case id the prompt is the fixed one; with one it is built from the case found. */
  lemma CaseChatPrompt(request: CaseChatRequest, connected: bool, row: Option<CaseRow>, env: Env, up: Upstream)
    ensures var o := CaseChat(request, connected, row, env, up);
            && (request.caseId.None? || request.caseId.value == "" ==>
                  o.call.Some? && o.call.value.messages[0].content == NoCasePrompt)
            && (request.caseId.Some? && request.caseId.value != "" && CaseLookup(connected, row).Ok? ==>
                  o.call.Some? && o.call.value.messages[0].content == CasePrompt(CaseLookup(connected, row).value))
  {
  }

  /** A case prompt is never the fixed prompt, so the two cases can be told apart. */
  lemma CasePromptDistinct(info: CaseInfo)
    ensures CasePrompt(info) != NoCasePrompt
  {
    assert |CasePrompt(info)| >= |CaseHeader| > |NoCasePrompt|;
  }

  /**
   * The status chat_with_llm raises: 5000 for a failed case lookup (its 500
   * is caught again) and for every stream error except a JSON decode error,
   * which ends the stream quietly after the frames already yielded.
   */
  lemma CaseChatStatus(request: CaseChatRequest, connected: bool, row: Option<CaseRow>, env: Env, up: Upstream)
    ensures var o := CaseChat(request, connected, row, env, up);
            && (o.status.Some? ==> o.status.value == 5000)
            && (ChatPrompt(request, connected, row).Err? ==> o.status == Some(5000) && o.call.None? && o.events == [])
            && (ChatPrompt(request, connected, row).Ok? ==>
                  && (o.status == None <==> (up.fault == None && up.chunks != []) || up.fault == Some(JsonDecodeFault))
                  && o.events == Emit(up, ReasoningEnabled(env, true)).events)
  {
  }

  /** The request body of /lg/generate_reply, with the fields generate_reply reads; the knowledge text is given printed. */
  datatype GenerateReplyRequest = GenerateReplyRequest(userInput: string, kbText: string)

  const KbHeader: string := "以下是供你参考的知识库内容:\n "

  /** generate_reply, as a function of the request and its oracles: reasoning is not requested, every error is 5000. */
  function Reply(request: GenerateReplyRequest, env: Env, up: Upstream): Outcome
  {
    var sent := [Message(SystemRole, KbHeader + request.kbText), Message(UserRole, request.userInput)];
    var e := Emit(up, ReasoningEnabled(env, false));
    Outcome(Some(LlmCall(ResolveModelName(env, CaseModel), false, sent)), e.events,
            if e.error.None? then None else Some(5000))
  }

  method GenerateReply(request: GenerateReplyRequest, env: Env, up: Upstream) returns (outcome: Outcome)
    ensures outcome == Reply(request, env, up)
  {
    var messages := new MessageList([]);
    var systemPrompt := KbHeader + request.kbText;
    messages.items := messages.items + [Message(UserRole, request.userInput)];
    ghost var sent := [Message(SystemRole, systemPrompt), Message(UserRole, request.userInput)];
    assert messages.items == [Message(UserRole, request.userInput)];
    assert [Message(SystemRole, systemPrompt)] + messages.items == sent;
    assert systemPrompt != "" by {
      assert |systemPrompt| > 0;
    }
    assert WithSystemMessage(messages.items, systemPrompt) == Ok(sent);
    var call, events, error := StreamLangchain(messages, systemPrompt, CaseModel, false, env, up);
    outcome := Outcome(call, events, if error.None? then None else Some(5000));
  }

  /**
   * generate_reply sends the knowledge prompt and the one user message, in
   * plain mode: no frame is reasoning, and a JSON decode error is not quiet.
   */
  lemma ReplyIsPlain(request: GenerateReplyRequest, env: Env, up: Upstream)
    ensures var o := Reply(request, env, up);
            && o.call.Some? && o.call.value.messages == [Message(SystemRole, KbHeader + request.kbText),
                                                         Message(UserRole, request.userInput)]
            && !o.call.value.reasoning
            && (forall i :: 0 <= i < |o.events| ==> o.events[i].Content? || o.events[i].Done?)
            && (o.status == None <==> up.fault == None && up.chunks != [])
  {
  }
}
