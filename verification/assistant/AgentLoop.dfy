/** The assistant's agent loop (`internal/assistant/usecase/chat.go`): the model is asked, its tool calls are run and
    answered, until it replies or the limits are reached. Model and tools may answer anything. */
module AgentLoop {
  import opened Wrappers
  import opened GoStrings

  const MAX_TOOL_ROUNDS := 6
  const MAX_CALLS_PER_ROUND := 8
  const MAX_CALLS_TOTAL := 20
  const FALLBACK_REPLY := "답을 만들지 못했습니다. 질문을 조금 바꿔 다시 물어봐 주세요."
  const NOT_RUN := "실행하지 않음: 도구 호출 상한을 넘었습니다. 지금까지의 결과로 답하세요."
  const TOOL_FAILED := "도구 실행 실패: "

  datatype ToolCall = ToolCall(id: string, name: string, arguments: string)

  datatype Message =
    | System(content: string)
    | User(content: string)
    | Assistant(content: string, calls: seq<ToolCall>)
    | Tool(callId: string, content: string)

  datatype Request = Request(messages: seq<Message>, forbidTools: bool, requireTools: bool)

  /** What the model answers, given everything it has been asked. */
  datatype Completion = Failed | Completed(content: string, calls: seq<ToolCall>)

  /** What running a tool gives, given all calls run so far; of a call that failed, the output is the error's text. */
  datatype ToolOutcome = ToolOutcome(output: string, isError: bool, failed: bool, cancelled: bool)

  datatype Trace = Trace(name: string, ok: bool)

  datatype Output = Output(reply: string, tools: seq<Trace>)

  // ---- what a conversation may look like ----------------------------------------------------------------

  /** One round: what the model said and called, and the answer to each call. */
  datatype Round = Round(content: string, calls: seq<ToolCall>, results: seq<Message>)

  /** As many answers as calls, each to its call, in order. */
  ghost predicate Answered(r: Round) {
    && r.calls != [] && |r.results| == |r.calls|
    && forall j | 0 <= j < |r.calls| :: r.results[j].Tool? && r.results[j].callId == r.calls[j].id
  }

  function Messages(r: Round): seq<Message> {
    [Assistant(r.content, r.calls)] + r.results
  }

  function Transcript(rounds: seq<Round>): seq<Message> {
    if rounds == [] then [] else Transcript(rounds[..|rounds| - 1]) + Messages(rounds[|rounds| - 1])
  }

  /** Calls of a round that are run when so many were run before: the first few, within both limits. */
  function Allowance(calls: seq<ToolCall>, before: nat): (n: nat)
    ensures n <= |calls| && n <= MAX_CALLS_PER_ROUND && (before <= MAX_CALLS_TOTAL ==> before + n <= MAX_CALLS_TOTAL)
  {
    var perRound := if |calls| <= MAX_CALLS_PER_ROUND then |calls| else MAX_CALLS_PER_ROUND;
    if before >= MAX_CALLS_TOTAL then 0
    else if perRound <= MAX_CALLS_TOTAL - before then perRound else MAX_CALLS_TOTAL - before
  }

  /** All calls run in these rounds, in order. */
  function Ran(rounds: seq<Round>): seq<ToolCall> {
    if rounds == [] then []
    else
      var before := Ran(rounds[..|rounds| - 1]);
      var calls := rounds[|rounds| - 1].calls;
      before + calls[..Allowance(calls, |before|)]
  }

  /** The answer a call got: its result, or that it was not run. */
  ghost predicate Faithful(r: Round, before: seq<ToolCall>, tool: seq<ToolCall> -> ToolOutcome,
                           clean: string -> string) {
    && |r.results| == |r.calls|
    && forall j | 0 <= j < |r.calls| ::
         var o := tool(before + r.calls[..j + 1]);
         r.results[j].content ==
           if j >= Allowance(r.calls, |before|) then NOT_RUN
           else clean(if o.failed then TOOL_FAILED + o.output else o.output)
  }

  function Shown(o: ToolOutcome): string {
    if o.failed then TOOL_FAILED + o.output else o.output
  }

  ghost predicate AllSound(rounds: seq<Round>, tool: seq<ToolCall> -> ToolOutcome, clean: string -> string) {
    forall k | 0 <= k < |rounds| :: Answered(rounds[k]) && Faithful(rounds[k], Ran(rounds[..k]), tool, clean)
  }

  lemma RanSnoc(rounds: seq<Round>, r: Round)
    ensures Ran(rounds + [r]) == Ran(rounds) + r.calls[..Allowance(r.calls, |Ran(rounds)|)]
    ensures Transcript(rounds + [r]) == Transcript(rounds) + Messages(r)
  {
    assert (rounds + [r])[..|rounds|] == rounds;
  }

  lemma {:induction false} RanWithin(rounds: seq<Round>)
    ensures |Ran(rounds)| <= MAX_CALLS_TOTAL && |Ran(rounds)| <= |rounds| * MAX_CALLS_PER_ROUND
  {
    if rounds != [] { RanWithin(rounds[..|rounds| - 1]); }
  }

  // ---- the rule of the model API --------------------------------------------------------------------------

  /** Each assistant message with k calls is followed by exactly k answers, with the IDs of the calls in order. */
  ghost predicate WellFormed(ms: seq<Message>) {
    && (forall i | 0 <= i < |ms| && ms[i].Assistant? && ms[i].calls != [] :: FollowedByAnswers(ms, i))
    && (forall i | 0 <= i < |ms| && ms[i].Tool? :: AnswersACall(ms, i))
  }

  ghost predicate FollowedByAnswers(ms: seq<Message>, i: nat)
    requires i < |ms| && ms[i].Assistant?
  {
    var k := |ms[i].calls|;
    && i + k < |ms|
    && (forall j: nat | j < k :: AnswerAt(ms, i, j))
    && (i + k + 1 < |ms| ==> !ms[i + k + 1].Tool?)
  }

  ghost predicate AnswerAt(ms: seq<Message>, i: nat, j: nat)
    requires i + 1 + j < |ms| && ms[i].Assistant? && j < |ms[i].calls|
  {
    ms[i + 1 + j].Tool? && ms[i + 1 + j].callId == ms[i].calls[j].id
  }

  ghost predicate AnswersACall(ms: seq<Message>, i: nat)
    requires i < |ms| && ms[i].Tool?
  {
    exists h, j :: 0 <= h < i && 0 <= j && i == h + 1 + j && ms[h].Assistant? && j < |ms[h].calls|
      && ms[i].callId == ms[h].calls[j].id
  }

  ghost predicate NoTools(ms: seq<Message>) {
    forall i | 0 <= i < |ms| :: !ms[i].Tool? && (ms[i].Assistant? ==> ms[i].calls == [])
  }

  lemma EarlierStay(ms: seq<Message>, r: Round, i: nat)
    requires WellFormed(ms) && i < |ms|
    ensures var all := ms + Messages(r);
            && (all[i].Assistant? && all[i].calls != [] ==> FollowedByAnswers(all, i))
            && (all[i].Tool? ==> AnswersACall(all, i))
  {
    var all := ms + Messages(r);
    assert all[i] == ms[i];
    if ms[i].Assistant? && ms[i].calls != [] {
      assert FollowedByAnswers(ms, i);
      var k := |ms[i].calls|;
      forall j: nat | j < k ensures AnswerAt(all, i, j) { assert AnswerAt(ms, i, j); }
      assert i + k + 1 == |ms| ==> all[i + k + 1] == Assistant(r.content, r.calls);
    }
    if ms[i].Tool? {
      assert AnswersACall(ms, i);
      var h, j :| 0 <= h < i && 0 <= j && i == h + 1 + j && ms[h].Assistant? && j < |ms[h].calls|
        && ms[i].callId == ms[h].calls[j].id;
      assert all[h] == ms[h];
    }
  }

  lemma RoundAnswered(ms: seq<Message>, r: Round, i: nat)
    requires Answered(r) && |ms| <= i < |ms + Messages(r)|
    ensures var all := ms + Messages(r);
            && (all[i].Assistant? ==> FollowedByAnswers(all, i))
            && (all[i].Tool? ==> AnswersACall(all, i))
  {
    var all, n := ms + Messages(r), |ms|;
    assert all[n] == Assistant(r.content, r.calls);
    forall j: nat | j < |r.calls| ensures AnswerAt(all, n, j) { assert all[n + 1 + j] == r.results[j]; }
    if i > n {
      assert all[i] == r.results[i - n - 1];
      assert i == n + 1 + (i - n - 1);
    }
  }

  lemma RoundWellFormed(ms: seq<Message>, r: Round)
    requires WellFormed(ms) && Answered(r)
    ensures WellFormed(ms + Messages(r))
  {
    var all := ms + Messages(r);
    forall i | 0 <= i < |all| && all[i].Assistant? && all[i].calls != [] ensures FollowedByAnswers(all, i) {
      if i < |ms| { EarlierStay(ms, r, i); } else { RoundAnswered(ms, r, i); }
    }
    forall i | 0 <= i < |all| && all[i].Tool? ensures AnswersACall(all, i) {
      if i < |ms| { EarlierStay(ms, r, i); } else { RoundAnswered(ms, r, i); }
    }
  }

  /** Whatever was said, a conversation made of answered rounds is one the model API accepts. */
  lemma {:induction false} TranscriptWellFormed(start: seq<Message>, rounds: seq<Round>)
    requires NoTools(start) && forall k | 0 <= k < |rounds| :: Answered(rounds[k])
    ensures WellFormed(start + Transcript(rounds))
  {
    if rounds == [] {
      assert start + Transcript(rounds) == start;
    } else {
      var init, last := rounds[..|rounds| - 1], rounds[|rounds| - 1];
      TranscriptWellFormed(start, init);
      RoundWellFormed(start + Transcript(init), last);
      Regroup(start, Transcript(init), Messages(last));
    }
  }

  lemma Regroup(a: seq<Message>, b: seq<Message>, c: seq<Message>)
    ensures a + b + c == a + (b + c)
  {
  }

  // ---- the loop ----------------------------------------------------------------------------------------------

  function Worked(o: ToolOutcome): bool {
    !o.failed && !o.isError
  }

  /** One trace per call that was run, in order. */
  ghost predicate Traced(traces: seq<Trace>, ran: seq<ToolCall>, tool: seq<ToolCall> -> ToolOutcome) {
    && |traces| == |ran|
    && forall i | 0 <= i < |ran| ::
         && traces[i].name == ran[i].name
         && (traces[i].ok <==> !tool(ran[..i + 1]).failed && !tool(ran[..i + 1]).isError)
  }

  lemma TracedSnoc(traces: seq<Trace>, ran: seq<ToolCall>, call: ToolCall, tool: seq<ToolCall> -> ToolOutcome)
    requires Traced(traces, ran, tool)
    ensures Traced(traces + [Trace(call.name, Worked(tool(ran + [call])))], ran + [call], tool)
  {
    var more, told := ran + [call], traces + [Trace(call.name, Worked(tool(ran + [call])))];
    forall i | 0 <= i < |more|
      ensures told[i].name == more[i].name
              && (told[i].ok <==> !tool(more[..i + 1]).failed && !tool(more[..i + 1]).isError) {
      if i < |ran| { assert more[..i + 1] == ran[..i + 1]; } else { assert more[..i + 1] == more; }
    }
  }

  /** The answers so far of a round, when the first `i` of its calls have been dealt with. */
  ghost predicate AnsweredTo(results: seq<Message>, calls: seq<ToolCall>, i: nat, before: seq<ToolCall>,
                             tool: seq<ToolCall> -> ToolOutcome, clean: string -> string)
    requires i <= |calls|
  {
    && |results| == i
    && forall j | 0 <= j < i ::
         && results[j].Tool? && results[j].callId == calls[j].id
         && var o := tool(before + calls[..j + 1]);
            results[j].content ==
              if j >= Allowance(calls, |before|) then NOT_RUN
              else clean(if o.failed then TOOL_FAILED + o.output else o.output)
  }

  /** Runs the calls of one round within the limits; every call gets an answer. A tool that cannot be reached once the
      request is over ends everything. */
  method RunCalls(calls: seq<ToolCall>, ran: seq<ToolCall>, traces: seq<Trace>, tool: seq<ToolCall> -> ToolOutcome,
                  clean: string -> string)
    returns (over: bool, results: seq<Message>, now: seq<ToolCall>, told: seq<Trace>)
    requires |ran| <= MAX_CALLS_TOTAL && Traced(traces, ran, tool)
    ensures !over ==> AnsweredTo(results, calls, |calls|, ran, tool, clean)
    ensures !over ==> now == ran + calls[..Allowance(calls, |ran|)] && Traced(told, now, tool)
    ensures over ==>
              ran < now && now <= ran + calls[..Allowance(calls, |ran|)] && tool(now).failed
              && tool(now).cancelled
  {
    over, results, now, told := false, [], ran, traces;
    var i := 0;
    while i < |calls|
      invariant i <= |calls|
      invariant AnsweredTo(results, calls, i, ran, tool, clean)
      invariant now == ran + calls[..if i <= Allowance(calls, |ran|) then i else Allowance(calls, |ran|)]
      invariant Traced(told, now, tool)
    {
      var call := calls[i];
      if i >= MAX_CALLS_PER_ROUND || |now| >= MAX_CALLS_TOTAL {
        results := results + [Tool(call.id, NOT_RUN)];
      } else {
        assert i < Allowance(calls, |ran|);
        assert now + [call] == ran + calls[..i + 1];
        var outcome := tool(now + [call]);
        if outcome.failed && outcome.cancelled {
          now := now + [call];
          assert now == (ran + calls[..Allowance(calls, |ran|)])[..|now|];
          over := true;
          return;
        }
        TracedSnoc(told, now, call, tool);
        now, told := now + [call], told + [Trace(call.name, Worked(outcome))];
        results := results + [Tool(call.id, clean(Shown(outcome)))];
      }
      i := i + 1;
    }
  }

  // ---- the whole exchange --------------------------------------------------------------------------------------

  predicate Forbids(round: nat, ran: nat) {
    round >= MAX_TOOL_ROUNDS || ran >= MAX_CALLS_TOTAL
  }

  ghost predicate AskedAt(request: Request, start: seq<Message>, earlier: seq<Round>, toolFirst: bool) {
    var forbid := Forbids(|earlier|, |Ran(earlier)|);
    request == Request(start + Transcript(earlier), forbid, |earlier| == 0 && toolFirst && !forbid)
  }

  /** Everything asked of the model: the conversation so far, with tools forbidden exactly at the limits, and required
      at most in the first round. */
  ghost predicate Asked(requests: seq<Request>, start: seq<Message>, rounds: seq<Round>, toolFirst: bool) {
    |requests| <= |rounds| + 1 && forall k | 0 <= k < |requests| :: AskedAt(requests[k], start, rounds[..k], toolFirst)
  }

  ghost predicate HeardAt(requests: seq<Request>, r: Round, model: seq<Request> -> Completion) {
    requests != [] && !requests[|requests| - 1].forbidTools && model(requests) == Completed(r.content, r.calls)
  }

  /** The calls of each round are the model's, and a round follows only while tools are allowed. */
  ghost predicate Heard(requests: seq<Request>, rounds: seq<Round>, model: seq<Request> -> Completion) {
    |rounds| <= |requests| && forall k | 0 <= k < |rounds| :: HeardAt(requests[..k + 1], rounds[k], model)
  }

  datatype Outcome = Replied(output: Output) | Upstream | Cancelled

  function Reply(content: string): string {
    if Blank(content) then FALLBACK_REPLY else TrimSpace(content)
  }

  /** How an exchange may end, and which calls were run by then: those of its rounds and, when the request was over
      before a tool answered, the first few of one more round, the last of which was that tool's. */
  ghost predicate Ends(o: Outcome, requests: seq<Request>, rounds: seq<Round>, ran: seq<ToolCall>,
                       model: seq<Request> -> Completion, tool: seq<ToolCall> -> ToolOutcome)
    requires requests != []
  {
    match o
    case Upstream => model(requests).Failed? && ran == Ran(rounds)
    case Replied(output) =>
      && model(requests).Completed? && (model(requests).calls == [] || requests[|requests| - 1].forbidTools)
      && output.reply == Reply(model(requests).content) && ran == Ran(rounds) && Traced(output.tools, ran, tool)
    case Cancelled =>
      && model(requests).Completed? && !requests[|requests| - 1].forbidTools
      && Ran(rounds) < ran && ran <= Ran(rounds) +
        model(requests).calls[..Allowance(model(requests).calls, |Ran(rounds)|)]
      && tool(ran).failed && tool(ran).cancelled
  }

  lemma AskedSnoc(requests: seq<Request>, start: seq<Message>, rounds: seq<Round>, toolFirst: bool, request: Request,
                  model: seq<Request> -> Completion)
    requires Asked(requests, start, rounds, toolFirst) && Heard(requests, rounds, model) && |requests| == |rounds|
    requires AskedAt(request, start, rounds, toolFirst)
    ensures Asked(requests + [request], start, rounds, toolFirst) && Heard(requests + [request], rounds, model)
  {
    hide AskedAt, HeardAt;
    assert rounds[..|rounds|] == rounds;
    forall k | 0 <= k < |rounds| ensures HeardAt((requests + [request])[..k + 1], rounds[k], model) {
      assert (requests + [request])[..k + 1] == requests[..k + 1];
    }
  }

  lemma HeardSnoc(requests: seq<Request>, start: seq<Message>, rounds: seq<Round>, r: Round, toolFirst: bool,
                  model: seq<Request> -> Completion)
    requires Asked(requests, start, rounds, toolFirst) && Heard(requests, rounds, model) && |requests| == |rounds| + 1
    requires HeardAt(requests, r, model)
    ensures Asked(requests, start, rounds + [r], toolFirst) && Heard(requests, rounds + [r], model)
  {
    hide AskedAt, HeardAt;
    var more := rounds + [r];
    assert requests[..|requests|] == requests;
    forall k | 0 <= k < |requests|
      ensures AskedAt(requests[k], start, more[..k], toolFirst) { assert more[..k] == rounds[..k]; }
    forall k | 0 <= k < |more| ensures HeardAt(requests[..k + 1], more[k], model) {
      if k < |rounds| { assert HeardAt(requests[..k + 1], rounds[k], model); }
    }
  }

  lemma SoundSnoc(rounds: seq<Round>, r: Round, tool: seq<ToolCall> -> ToolOutcome, clean: string -> string)
    requires AllSound(rounds, tool, clean) && Answered(r) && Faithful(r, Ran(rounds), tool, clean)
    ensures AllSound(rounds + [r], tool, clean)
  {
    assert (rounds + [r])[..|rounds|] == rounds;
    forall k | 0 <= k < |rounds| ensures (rounds + [r])[..k] == rounds[..k] {}
  }

  /** An exchange as far as it went. */
  ghost predicate Exchange(requests: seq<Request>, start: seq<Message>, rounds: seq<Round>, toolFirst: bool,
                           model: seq<Request> -> Completion, tool: seq<ToolCall> -> ToolOutcome,
                           clean: string -> string) {
    Asked(requests, start, rounds, toolFirst) && Heard(requests, rounds, model) && AllSound(rounds, tool, clean)
  }

  lemma RoundTaken(requests: seq<Request>, start: seq<Message>, rounds: seq<Round>, toolFirst: bool,
                   model: seq<Request> -> Completion, tool: seq<ToolCall> -> ToolOutcome, clean: string -> string,
                   r: Round)
    requires Exchange(requests, start, rounds, toolFirst, model, tool, clean) && |requests| == |rounds| + 1
    requires HeardAt(requests, r, model) && r.calls != []
             && AnsweredTo(r.results, r.calls, |r.calls|, Ran(rounds), tool, clean)
    ensures Exchange(requests, start, rounds + [r], toolFirst, model, tool, clean)
    ensures Ran(rounds + [r]) == Ran(rounds) + r.calls[..Allowance(r.calls, |Ran(rounds)|)]
    ensures start + Transcript(rounds + [r]) == start + Transcript(rounds) + [Assistant(r.content, r.calls)] + r.results
  {
    HeardSnoc(requests, start, rounds, r, toolFirst, model);
    SoundSnoc(rounds, r, tool, clean);
    RanSnoc(rounds, r);
    Regroup(start, Transcript(rounds), Messages(r));
    Regroup(start + Transcript(rounds), [Assistant(r.content, r.calls)], r.results);
  }

  /** Between two rounds: everything asked so far was answered by rounds. */
  ghost predicate Underway(messages: seq<Message>, requests: seq<Request>, ran: seq<ToolCall>, traces: seq<Trace>,
                           start: seq<Message>, rounds: seq<Round>, toolFirst: bool,
                           model: seq<Request> -> Completion, tool: seq<ToolCall> -> ToolOutcome,
                           clean: string -> string) {
    && |requests| == |rounds| <= MAX_TOOL_ROUNDS
    && messages == start + Transcript(rounds) && ran == Ran(rounds) && |ran| <= MAX_CALLS_TOTAL
    && Exchange(requests, start, rounds, toolFirst, model, tool, clean) && Traced(traces, ran, tool)
  }

  lemma Begins(start: seq<Message>, toolFirst: bool, model: seq<Request> -> Completion,
               tool: seq<ToolCall> -> ToolOutcome, clean: string -> string)
    ensures Underway(start, [], [], [], start, [], toolFirst, model, tool, clean)
  {
    assert start + Transcript([]) == start;
  }

  lemma Asks(messages: seq<Message>, requests: seq<Request>, ran: seq<ToolCall>, traces: seq<Trace>,
             start: seq<Message>, rounds: seq<Round>, toolFirst: bool, model: seq<Request> -> Completion,
             tool: seq<ToolCall> -> ToolOutcome, clean: string -> string, request: Request)
    requires Underway(messages, requests, ran, traces, start, rounds, toolFirst, model, tool, clean)
    requires var forbid := Forbids(|requests|, |ran|);
             request == Request(messages, forbid, |requests| == 0 && toolFirst && !forbid)
    ensures Exchange(requests + [request], start, rounds, toolFirst, model, tool, clean)
    ensures |requests| == |rounds| <= 6 && ran == Ran(rounds) && |ran| <= 20 && Traced(traces, ran, tool)
  {
    AskedSnoc(requests, start, rounds, toolFirst, request, model);
  }

  lemma Answers(messages: seq<Message>, requests: seq<Request>, ran: seq<ToolCall>, traces: seq<Trace>,
                start: seq<Message>, rounds: seq<Round>, toolFirst: bool, model: seq<Request> -> Completion,
                tool: seq<ToolCall> -> ToolOutcome, clean: string -> string, request: Request, r: Round,
                now: seq<ToolCall>, told: seq<Trace>)
    requires Underway(messages, requests, ran, traces, start, rounds, toolFirst, model, tool, clean)
    requires Exchange(requests + [request], start, rounds, toolFirst, model, tool, clean)
    requires HeardAt(requests + [request], r, model) && request.forbidTools == Forbids(|requests|, |ran|)
    requires r.calls != [] && AnsweredTo(r.results, r.calls, |r.calls|, ran, tool, clean)
    requires now == ran + r.calls[..Allowance(r.calls, |ran|)] && Traced(told, now, tool)
    ensures Underway(messages + [Assistant(r.content, r.calls)] + r.results, requests + [request], now, told, start,
                     rounds + [r], toolFirst, model, tool, clean)
  {
    RoundTaken(requests + [request], start, rounds, toolFirst, model, tool, clean, r);
    hide Exchange, AnsweredTo, Traced, Ran, Transcript;
  }

  /** Answers one question. Whatever model and tools do, at most seven requests are made, each the conversation so far,
      and at most twenty calls are run. */
  method Run(start: seq<Message>, toolFirst: bool, model: seq<Request> -> Completion,
             tool: seq<ToolCall> -> ToolOutcome, clean: string -> string)
    returns (o: Outcome, requests: seq<Request>, ran: seq<ToolCall>, ghost rounds: seq<Round>)
    ensures |requests| == |rounds| + 1 && |requests| <= 7 && |ran| <= 20
    ensures Exchange(requests, start, rounds, toolFirst, model, tool, clean)
            && Ends(o, requests, rounds, ran, model, tool)
  {
    hide Underway, Exchange, AnsweredTo, Traced, Ran, Allowance, Reply;
    requests, ran, rounds := [], [], [];
    var messages, traces := start, [];
    Begins(start, toolFirst, model, tool, clean);
    while true
      invariant Underway(messages, requests, ran, traces, start, rounds, toolFirst, model, tool, clean)
      invariant |requests| == |rounds|
      decreases MAX_TOOL_ROUNDS - |rounds|
    {
      var forbid := Forbids(|requests|, |ran|);
      var request := Request(messages, forbid, |requests| == 0 && toolFirst && !forbid);
      Asks(messages, requests, ran, traces, start, rounds, toolFirst, model, tool, clean, request);
      ghost var before := requests;
      requests := requests + [request];
      var response := model(requests);
      if response.Failed? {
        o := Upstream;
        return;
      }
      if response.calls == [] || forbid {
        o := Replied(Output(Reply(response.content), traces));
        return;
      }
      var over, results, now, told := RunCalls(response.calls, ran, traces, tool, clean);
      if over {
        o, ran := Cancelled, now;
        return;
      }
      ghost var r := Round(response.content, response.calls, results);
      Answers(messages, before, ran, traces, start, rounds, toolFirst, model, tool, clean, request, r, now, told);
      rounds, ran, traces := rounds + [r], now, told;
      messages := messages + [Assistant(response.content, response.calls)] + results;
    }
  }

  /** Tools are forbidden exactly from the seventh request on, or once twenty calls were run, and required exactly in
      the first request of a question that asks to look something up. */
  lemma ForbiddenIff(requests: seq<Request>, start: seq<Message>, rounds: seq<Round>, toolFirst: bool, k: nat)
    requires Asked(requests, start, rounds, toolFirst) && k < |requests|
    ensures requests[k].forbidTools <==> k >= 6 || |Ran(rounds[..k])| >= 20
    ensures requests[k].requireTools <==> k == 0 && toolFirst
  {
    assert AskedAt(requests[k], start, rounds[..k], toolFirst);
  }

  /** A call is run exactly if it is one of the first eight of its round and fewer than twenty were run before it. */
  lemma RunIff(rounds: seq<Round>, r: Round, j: nat)
    requires j < |r.calls|
    ensures var before, now := |Ran(rounds)|, Ran(rounds + [r]);
            && now[..before] == Ran(rounds)
            && (|now| > before + j <==> j < 8 && before + j < 20)
            && (|now| > before + j ==> now[before + j] == r.calls[j])
  {
    RanSnoc(rounds, r);
  }

  /** Every request of an exchange is one the model API accepts, whatever the model said before. */
  lemma RequestsAccepted(requests: seq<Request>, start: seq<Message>, rounds: seq<Round>, toolFirst: bool,
                         model: seq<Request> -> Completion, tool: seq<ToolCall> -> ToolOutcome,
                         clean: string -> string, k: nat)
    requires Exchange(requests, start, rounds, toolFirst, model, tool, clean) && NoTools(start) && k < |requests|
    ensures WellFormed(requests[k].messages)
  {
    assert AskedAt(requests[k], start, rounds[..k], toolFirst);
    forall j | 0 <= j < k ensures Answered(rounds[..k][j]) { assert rounds[..k][j] == rounds[j]; }
    TranscriptWellFormed(start, rounds[..k]);
  }

  /** What the model wrote is shown without the spaces around it, if it wrote anything else. */
  lemma ReplyIsContent(content: string) returns (pre: string, post: string)
    requires exists i :: 0 <= i < |content| && !IsSpace(content[i])
    ensures content == pre + Reply(content) + post && AllSpace(pre) && AllSpace(post)
  {
    BlankIff(content);
    pre, post := TrimSplits(content);
  }

  lemma FallbackShows()
    ensures !Blank(FALLBACK_REPLY)
  {
    hide Blank;
    assert FALLBACK_REPLY[0] == '답' && FALLBACK_REPLY[|FALLBACK_REPLY| - 1] == '.';
    NotBlank(FALLBACK_REPLY);
  }

  lemma TrimShows(s: string)
    requires !Blank(s)
    ensures !Blank(TrimSpace(s))
  {
    NotBlank(TrimSpace(s));
  }

  /** A reply is never blank. */
  lemma ReplyNotBlank(content: string)
    ensures !Blank(Reply(content))
  {
    hide Blank, TrimSpace, IsSpace;
    FallbackShows();
    if !Blank(content) { TrimShows(content); }
  }

  lemma NotBlank(s: string)
    requires s != "" && !IsSpace(s[0]) && !IsSpace(s[|s| - 1])
    ensures !Blank(s)
  {
    TrimmedStays(s);
  }
}
