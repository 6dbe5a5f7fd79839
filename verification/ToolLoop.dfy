/** The tool-using loop of one agent turn, and its history in Anthropic's message shape. */
module ToolLoop {
  import opened Prelude

  // ---- Histories -----------------------------------------------------------

  datatype ToolCall = ToolCall(id: string, name: string, arguments: string)

  datatype Message =
    | System(content: string)
    | User(content: string)
    | Assistant(content: string, calls: seq<ToolCall>)
    | Tool(callId: string, toolName: string, content: string)

  /** These messages are the results of these calls, one for one and in their order. */
  predicate Answers(results: seq<Message>, calls: seq<ToolCall>) {
    && |results| == |calls|
    && forall i :: 0 <= i < |calls| ==>
         results[i].Tool? && results[i].callId == calls[i].id && results[i].toolName == calls[i].name
  }

  /** Every assistant message is followed at once by the results of its calls, and there are no
      other tool messages. */
  predicate Paired(h: seq<Message>)
    decreases |h|
  {
    h == [] || match h[0]
      case System(_) => Paired(h[1..])
      case User(_) => Paired(h[1..])
      case Tool(_, _, _) => false
      case Assistant(_, calls) =>
        |h| > |calls| && Answers(h[1..1 + |calls|], calls) && Paired(h[1 + |calls|..])
  }

  /** A paired beginning does not matter to what follows it. */
  lemma {:induction false} PairedPrefix(a: seq<Message>, b: seq<Message>)
    requires Paired(a)
    ensures Paired(a + b) <==> Paired(b)
    decreases |a|
  {
    var all := a + b;
    if a == [] {
      assert all == b;
    } else {
      var k := if a[0].Assistant? then 1 + |a[0].calls| else 1;
      assert all[0] == a[0] && all[k..] == a[k..] + b;
      assert all[1..k] == a[1..k];
      PairedPrefix(a[k..], b);
    }
  }

  // ---- A turn --------------------------------------------------------------

  datatype Usage = Usage(input: nat, output: nat, total: nat)

  const NO_USAGE: Usage := Usage(0, 0, 0)

  function Accumulate(a: Usage, d: Usage): Usage {
    Usage(SatAdd(a.input, d.input), SatAdd(a.output, d.output), SatAdd(a.total, d.total))
  }

  datatype Reply = CallFailed | Replied(content: string, calls: seq<ToolCall>, usage: Usage)

  datatype ToolResult = Broken | Ran(output: string, isFinal: bool)

  /** What the clock, the model and the tools do in round `i`, and for call `j` of it. Any
      behaviour, also one that looks at the history, makes such a table in a given run. */
  datatype World = World(timedOut: nat -> bool, reply: nat -> Reply, tool: (nat, nat) -> ToolResult)

  datatype Outcome = Error | Timeout | Failed | Completed(message: string, usage: Usage)

  function ResultOf(call: ToolCall, output: string): Message {
    Tool(call.id, call.name, output)
  }

  /** How many of the calls of round `i` run before one breaks, at least `j`. */
  function RanCalls(w: World, i: nat, calls: seq<ToolCall>, j: nat): (n: nat)
    requires j <= |calls|
    ensures j <= n <= |calls|
    decreases |calls| - j
  {
    if j == |calls| || w.tool(i, j).Broken? then j else RanCalls(w, i, calls, j + 1)
  }

  /** The messages of the first `n` calls. */
  function Results(w: World, i: nat, calls: seq<ToolCall>, n: nat): seq<Message>
    requires n <= |calls|
  {
    if n == 0 then []
    else Results(w, i, calls, n - 1)
         + [ResultOf(calls[n - 1], if w.tool(i, n - 1).Ran? then w.tool(i, n - 1).output else "")]
  }

  /** The turn is over once a call is the finish tool or a tool says so. */
  predicate HitFinal(w: World, i: nat, calls: seq<ToolCall>, n: nat)
    requires n <= |calls|
  {
    n > 0 && (HitFinal(w, i, calls, n - 1) || calls[n - 1].name == "finish"
              || (w.tool(i, n - 1).Ran? && w.tool(i, n - 1).isFinal))
  }

  /** The output of the last finish call. */
  function FinalMessage(w: World, i: nat, calls: seq<ToolCall>, n: nat): string
    requires n <= |calls|
  {
    if n == 0 then ""
    else if calls[n - 1].name == "finish" && w.tool(i, n - 1).Ran? then w.tool(i, n - 1).output
    else FinalMessage(w, i, calls, n - 1)
  }

  datatype Turn = Turn(messages: seq<Message>, outcome: Outcome)

  /** What `left` more rounds from round `i` on add to the history, and how they end. */
  function Rounds(w: World, i: nat, left: nat, usage: Usage): Turn
    decreases left
  {
    if left == 0 then Turn([], Failed)
    else if w.timedOut(i) then Turn([], Timeout)
    else match w.reply(i)
      case CallFailed => Turn([], Failed)
      case Replied(content, calls, u) =>
        var n := RanCalls(w, i, calls, 0);
        var said := [Assistant(content, calls)] + Results(w, i, calls, n);
        var usage' := Accumulate(usage, u);
        if calls == [] then Turn(said, Completed(content, usage'))
        else if n < |calls| then Turn(said, Error)
        else if HitFinal(w, i, calls, n) then Turn(said, Completed(FinalMessage(w, i, calls, n), usage'))
        else
          var rest := Rounds(w, i + 1, left - 1, usage');
          Turn(said + rest.messages, rest.outcome)
  }

  lemma {:induction false} ResultsAnswer(w: World, i: nat, calls: seq<ToolCall>, n: nat)
    requires n <= |calls|
    ensures Answers(Results(w, i, calls, n), calls[..n])
  {
    if n > 0 {
      ResultsAnswer(w, i, calls, n - 1);
    }
  }

  /** Every tool message carries the output of its call. */
  lemma {:induction false} ResultsCarryOutputs(w: World, i: nat, calls: seq<ToolCall>, n: nat)
    requires n <= RanCalls(w, i, calls, 0)
    ensures |Results(w, i, calls, n)| == n
    ensures forall k :: 0 <= k < n ==>
              w.tool(i, k).Ran? && Results(w, i, calls, n)[k] == Tool(calls[k].id, calls[k].name, w.tool(i, k).output)
    decreases n
  {
    if n > 0 {
      ResultsCarryOutputs(w, i, calls, n - 1);
      RanBefore(w, i, calls, 0, n - 1);
    }
  }

  lemma {:induction false} RanBefore(w: World, i: nat, calls: seq<ToolCall>, j: nat, k: nat)
    requires j <= |calls| && j <= k < RanCalls(w, i, calls, j)
    ensures w.tool(i, k).Ran?
    decreases k - j
  {
    if j < k {
      RanBefore(w, i, calls, j + 1, k);
    }
  }

  lemma {:induction false} AllRan(w: World, i: nat, calls: seq<ToolCall>, j: nat)
    requires j <= |calls|
    ensures RanCalls(w, i, calls, j) == |calls| <==> forall k :: j <= k < |calls| ==> w.tool(i, k).Ran?
    decreases |calls| - j
  {
    if j < |calls| {
      AllRan(w, i, calls, j + 1);
    }
  }

  /** Call `k` of round `i` ends the turn: it is the finish tool, or its tool says so. */
  predicate Ends(w: World, i: nat, calls: seq<ToolCall>, k: nat)
    requires k < |calls|
  {
    calls[k].name == "finish" || (w.tool(i, k).Ran? && w.tool(i, k).isFinal)
  }

  lemma {:induction false} FinalMeans(w: World, i: nat, calls: seq<ToolCall>, n: nat)
    requires n <= |calls|
    ensures HitFinal(w, i, calls, n) <==> exists k: nat :: k < n && Ends(w, i, calls, k)
    decreases n
  {
    if n > 0 {
      FinalMeans(w, i, calls, n - 1);
      if HitFinal(w, i, calls, n) && !HitFinal(w, i, calls, n - 1) {
        assert Ends(w, i, calls, n - 1);
      }
    }
  }

  lemma {:induction false} LastFinish(w: World, i: nat, calls: seq<ToolCall>, n: nat, k: nat)
    requires k < n <= |calls| && calls[k].name == "finish" && w.tool(i, k).Ran?
    requires forall j :: k < j < n ==> calls[j].name != "finish"
    ensures FinalMessage(w, i, calls, n) == w.tool(i, k).output
    decreases n
  {
    if k < n - 1 {
      LastFinish(w, i, calls, n - 1, k);
    }
  }

  lemma {:induction false} NoFinish(w: World, i: nat, calls: seq<ToolCall>, n: nat)
    requires n <= |calls| && forall j :: 0 <= j < n ==> calls[j].name != "finish"
    ensures FinalMessage(w, i, calls, n) == ""
    decreases n
  {
    if n > 0 {
      NoFinish(w, i, calls, n - 1);
    }
  }

  /** How a round decides about the turn: an answer without calls completes it; a tool that breaks
      ends it in an error; once all tools have run, a finish call or a tool that says so completes
      it at once, with the output of the last finish call as its message; otherwise it goes on. */
  lemma RoundDecides(w: World, i: nat, left: nat, usage: Usage)
    requires left > 0 && !w.timedOut(i) && w.reply(i).Replied?
    ensures var t, content, calls := Rounds(w, i, left, usage), w.reply(i).content, w.reply(i).calls;
            var after := Accumulate(usage, w.reply(i).usage);
      && t.messages != [] && t.messages[0] == Assistant(content, calls)
      && (calls == [] ==> |t.messages| == 1 && t.outcome == Completed(content, after))
      && ((exists k: nat :: k < |calls| && w.tool(i, k).Broken?) ==> t.outcome == Error)
      && ((forall k: nat :: k < |calls| ==> w.tool(i, k).Ran?) && calls != [] ==>
            if exists k: nat :: k < |calls| && Ends(w, i, calls, k) then
              && t.outcome.Completed? && t.outcome.usage == after && |t.messages| == 1 + |calls|
              && (forall k: nat :: k < |calls| && calls[k].name == "finish"
                                   && (forall j :: k < j < |calls| ==> calls[j].name != "finish") ==>
                                   t.outcome.message == w.tool(i, k).output)
              && ((forall k: nat :: k < |calls| ==> calls[k].name != "finish") ==> t.outcome.message == "")
            else
              t.outcome == Rounds(w, i + 1, left - 1, after).outcome)
  {
    hide Accumulate, HitFinal, FinalMessage, RanCalls, Results, Ends;
    var calls := w.reply(i).calls;
    AllRan(w, i, calls, 0);
    FinalMeans(w, i, calls, |calls|);
    if RanCalls(w, i, calls, 0) == |calls| {
      ResultsCarryOutputs(w, i, calls, |calls|);
      forall k: nat | k < |calls| && calls[k].name == "finish"
                      && forall j :: k < j < |calls| ==> calls[j].name != "finish"
        ensures FinalMessage(w, i, calls, |calls|) == w.tool(i, k).output
      {
        LastFinish(w, i, calls, |calls|, k);
      }
      if forall k: nat :: k < |calls| ==> calls[k].name != "finish" {
        NoFinish(w, i, calls, |calls|);
      }
    }
  }

  lemma SlicesOf(m: Message, results: seq<Message>)
    ensures var h := [m] + results; h[1..1 + |results|] == results && h[1 + |results|..] == []
  {
  }

  /** One assistant message with all its results is paired. */
  lemma RoundIsPaired(w: World, i: nat, content: string, calls: seq<ToolCall>)
    ensures Paired([Assistant(content, calls)] + Results(w, i, calls, |calls|))
  {
    hide Results;
    var results := Results(w, i, calls, |calls|);
    ResultsAnswer(w, i, calls, |calls|);
    assert calls[..|calls|] == calls;
    SlicesOf(Assistant(content, calls), results);
  }

  /** A round cut short is not paired, and no message other than a tool message mends it. */
  lemma CutRoundIsNotPaired(w: World, i: nat, content: string, calls: seq<ToolCall>, n: nat, more: seq<Message>)
    requires n < |calls| && (more != [] ==> !more[0].Tool?)
    ensures !Paired([Assistant(content, calls)] + Results(w, i, calls, n) + more)
  {
    hide Paired, Answers, Results;
    var results := Results(w, i, calls, n);
    var h := [Assistant(content, calls)] + results + more;
    ResultsAnswer(w, i, calls, n);
    AnswersCount(results, calls[..n]);
    assert h[0] == Assistant(content, calls);
    if more != [] {
      assert h[1 + n] == more[0];
    }
    MissingResult(h, n);
  }

  lemma MissingResult(h: seq<Message>, n: nat)
    requires h != [] && h[0].Assistant? && n < |h[0].calls|
    requires |h| > 1 + n ==> !h[1 + n].Tool?
    ensures !Paired(h)
  {
    var k := |h[0].calls|;
    if |h| > k {
      var got := h[1..1 + k];
      assert got[n] == h[1 + n];
    }
  }

  lemma AnswersCount(results: seq<Message>, calls: seq<ToolCall>)
    requires Answers(results, calls)
    ensures |results| == |calls| && forall i :: 0 <= i < |results| ==> results[i].Tool?
  {
  }

  /** The rounds of a turn are paired exactly when the turn does not end in an error, and after
      an error no later turn mends the history: a turn starts with a user message. */
  lemma {:induction false} PairedUnlessError(w: World, i: nat, left: nat, usage: Usage, more: seq<Message>)
    requires more != [] ==> !more[0].Tool?
    ensures var t := Rounds(w, i, left, usage);
      && (t.outcome != Error ==> Paired(t.messages))
      && (t.outcome == Error ==> !Paired(t.messages + more))
    decreases left
  {
    hide Accumulate, HitFinal, FinalMessage, Paired, Results;
    PairedEmpty();
    if left > 0 && !w.timedOut(i) && w.reply(i).Replied? {
      var content, calls := w.reply(i).content, w.reply(i).calls;
      var n := RanCalls(w, i, calls, 0);
      var said := [Assistant(content, calls)] + Results(w, i, calls, n);
      if n < |calls| {
        CutRoundIsNotPaired(w, i, content, calls, n, more);
      } else {
        RoundIsPaired(w, i, content, calls);
        if calls != [] && !HitFinal(w, i, calls, n) {
          var usage' := Accumulate(usage, w.reply(i).usage);
          PairedUnlessError(w, i + 1, left - 1, usage', more);
          var rest := Rounds(w, i + 1, left - 1, usage').messages;
          PairedPrefix(said, rest);
          PairedPrefix(said, rest + more);
          assert said + rest + more == said + (rest + more);
        }
      }
    }
  }

  lemma PairedEmpty()
    ensures Paired([])
  {
  }

  /** Where a history stands after a turn. */
  function AfterTurn(h: seq<Message>, w: World, prompt: string, maxIterations: nat): seq<Message> {
    h + [User(prompt)] + Rounds(w, 0, Max(maxIterations, 1), NO_USAGE).messages
  }

  function TurnOutcome(w: World, maxIterations: nat): Outcome {
    Rounds(w, 0, Max(maxIterations, 1), NO_USAGE).outcome
  }

  /** From a paired history, a turn leaves a paired history if and only if it does not end in an
      error; after an error the history is never paired again, whatever is appended but a tool
      message. */
  lemma TurnKeepsPairing(h: seq<Message>, w: World, prompt: string, maxIterations: nat, more: seq<Message>)
    requires Paired(h) && (more != [] ==> !more[0].Tool?)
    ensures Paired(AfterTurn(h, w, prompt, maxIterations)) <==> TurnOutcome(w, maxIterations) != Error
    ensures TurnOutcome(w, maxIterations) == Error ==> !Paired(AfterTurn(h, w, prompt, maxIterations) + more)
  {
    hide Rounds, Paired;
    var t := Rounds(w, 0, Max(maxIterations, 1), NO_USAGE);
    var user := [User(prompt)];
    PairedUnlessError(w, 0, Max(maxIterations, 1), NO_USAGE, more);
    PairedUnlessError(w, 0, Max(maxIterations, 1), NO_USAGE, []);
    assert t.messages + [] == t.messages;
    PromptIsPaired(prompt);
    assert h + user + t.messages == h + (user + t.messages);
    assert AfterTurn(h, w, prompt, maxIterations) + more == h + (user + (t.messages + more));
    PairedPrefix(h, user + t.messages);
    PairedPrefix(user, t.messages);
    PairedPrefix(h, user + (t.messages + more));
    PairedPrefix(user, t.messages + more);
  }

  lemma PromptIsPaired(prompt: string)
    ensures Paired([User(prompt)])
  {
    assert [User(prompt)][1..] == [];
  }

  function AssistantCount(h: seq<Message>): nat {
    if h == [] then 0 else AssistantCount(h[1..]) + if h[0].Assistant? then 1 else 0
  }

  lemma {:induction false} CountSum(a: seq<Message>, b: seq<Message>)
    ensures AssistantCount(a + b) == AssistantCount(a) + AssistantCount(b)
    decreases |a|
  {
    if a == [] {
      assert a + b == b;
    } else {
      assert (a + b)[1..] == a[1..] + b;
      CountSum(a[1..], b);
    }
  }

  lemma {:induction false} NoAssistantInResults(w: World, i: nat, calls: seq<ToolCall>, n: nat)
    requires n <= |calls|
    ensures AssistantCount(Results(w, i, calls, n)) == 0
  {
    if n > 0 {
      NoAssistantInResults(w, i, calls, n - 1);
      CountSum(Results(w, i, calls, n - 1), [Last(Results(w, i, calls, n))]);
    }
  }

  function Plus(a: Usage, b: Usage): Usage {
    Usage(a.input + b.input, a.output + b.output, a.total + b.total)
  }

  /** Each count up to the bound of a 64-bit number. */
  function Capped(u: Usage): Usage {
    Usage(Min(u.input, U64_MAX), Min(u.output, U64_MAX), Min(u.total, U64_MAX))
  }

  /** The sum of what the replies of `n` rounds from `i` on reported. */
  function UsageSum(w: World, i: nat, n: nat): Usage
    decreases n
  {
    if n == 0 then NO_USAGE
    else Plus(if w.reply(i).Replied? then w.reply(i).usage else NO_USAGE, UsageSum(w, i + 1, n - 1))
  }

  lemma SaturatingSums(a: Usage, d: Usage, more: Usage)
    requires Capped(a) == a
    ensures Capped(Accumulate(a, d)) == Accumulate(a, d)
    ensures Capped(Plus(Accumulate(a, d), more)) == Capped(Plus(a, Plus(d, more)))
    ensures Accumulate(a, d) == Capped(Plus(a, Plus(d, NO_USAGE)))
  {
  }

  /** A turn asks the model at most as often as it may, and a completed one reports the sum over
      all its replies, each count up to the bound of a 64-bit number. */
  lemma {:induction false} RoundsAreBounded(w: World, i: nat, left: nat, usage: Usage)
    requires Capped(usage) == usage
    ensures var t := Rounds(w, i, left, usage);
      && AssistantCount(t.messages) <= left
      && (t.outcome.Completed? ==>
            t.outcome.usage == Capped(Plus(usage, UsageSum(w, i, AssistantCount(t.messages)))))
    decreases left
  {
    hide HitFinal, FinalMessage, Results, Accumulate, Capped, Plus;
    if left > 0 && !w.timedOut(i) && w.reply(i).Replied? {
      var content, calls := w.reply(i).content, w.reply(i).calls;
      var n := RanCalls(w, i, calls, 0);
      var said := [Assistant(content, calls)] + Results(w, i, calls, n);
      CountSum([Assistant(content, calls)], Results(w, i, calls, n));
      NoAssistantInResults(w, i, calls, n);
      assert AssistantCount(said) == 1;
      var usage' := Accumulate(usage, w.reply(i).usage);
      SaturatingSums(usage, w.reply(i).usage, NO_USAGE);
      if n == |calls| && calls != [] && !HitFinal(w, i, calls, n) {
        RoundsAreBounded(w, i + 1, left - 1, usage');
        var rest := Rounds(w, i + 1, left - 1, usage').messages;
        CountSum(said, rest);
        SaturatingSums(usage, w.reply(i).usage, UsageSum(w, i + 1, AssistantCount(rest)));
      }
    }
  }

  class Session {
    var history: seq<Message>

    /** One turn: the prompt, then rounds of a model reply and its tool calls. */
    method RunProviderTurn(w: World, prompt: string, maxIterations: nat) returns (r: Outcome)
      modifies this
      ensures history == AfterTurn(old(history), w, prompt, maxIterations)
      ensures r == TurnOutcome(w, maxIterations)
      ensures old(Paired(history)) ==> (Paired(history) <==> r != Error)
    {
      hide Paired, Results, Accumulate, HitFinal, FinalMessage, RanCalls;
      ghost var base := history + [User(prompt)];
      ghost var turn := Rounds(w, 0, Max(maxIterations, 1), NO_USAGE);
      if Paired(history) {
        TurnKeepsPairing(history, w, prompt, maxIterations, []);
      }
      history := history + [User(prompt)];
      var usage, i, left := NO_USAGE, 0, Max(maxIterations, 1);
      while left > 0
        invariant left >= 0
        invariant history + Rounds(w, i, left, usage).messages == base + turn.messages
        invariant Rounds(w, i, left, usage).outcome == turn.outcome
      {
        ghost var before := history;
        if w.timedOut(i) {
          assert history == base + turn.messages;
          return Timeout;
        }
        var reply := w.reply(i);
        if reply.CallFailed? {
          assert history == base + turn.messages;
          return Failed;
        }
        usage := Accumulate(usage, reply.usage);
        history := history + [Assistant(reply.content, reply.calls)];
        if reply.calls == [] {
          NoCalls(w, i);
          assert history == base + turn.messages;
          return Completed(reply.content, usage);
        }
        var broken, hitFinal, message := RunTools(w, i, reply.calls);
        if broken {
          assert history == base + turn.messages;
          return Error;
        }
        if hitFinal {
          assert history == base + turn.messages;
          return Completed(message, usage);
        }
        assert history
               == before + ([Assistant(reply.content, reply.calls)] + Results(w, i, reply.calls, |reply.calls|));
        ghost var rest := Rounds(w, i + 1, left - 1, usage).messages;
        assert history + rest
            == before + ([Assistant(reply.content, reply.calls)] + Results(w, i, reply.calls, |reply.calls|) + rest);
        i, left := i + 1, left - 1;
      }
      assert history == base + turn.messages;
      r := Failed;
    }

    /** The inner loop: the tool calls of one reply, in order. */
    method RunTools(w: World, i: nat, calls: seq<ToolCall>) returns (broken: bool, hitFinal: bool, message: string)
      modifies this
      ensures var n := RanCalls(w, i, calls, 0);
        && history == old(history) + Results(w, i, calls, n)
        && (broken <==> n < |calls|)
        && (!broken ==> hitFinal == HitFinal(w, i, calls, n) && message == FinalMessage(w, i, calls, n))
    {
      broken, hitFinal, message := false, false, "";
      var j := 0;
      while j < |calls|
        invariant 0 <= j <= |calls|
        invariant RanCalls(w, i, calls, 0) == RanCalls(w, i, calls, j)
        invariant history == old(history) + Results(w, i, calls, j)
        invariant hitFinal == HitFinal(w, i, calls, j) && message == FinalMessage(w, i, calls, j)
      {
        var res := w.tool(i, j);
        if res.Broken? {
          broken := true;
          return;
        }
        if calls[j].name == "finish" {
          hitFinal := true;
          message := res.output;
        }
        history := history + [ResultOf(calls[j], res.output)];
        if res.isFinal {
          hitFinal := true;
        }
        j := j + 1;
      }
    }
  }

  lemma NoCalls(w: World, i: nat)
    ensures RanCalls(w, i, [], 0) == 0 && Results(w, i, [], 0) == []
  {
  }

  // ---- Anthropic's messages ------------------------------------------------

  datatype Block =
    | Text(text: string)
    | ToolUse(id: string, name: string, input: string)
    | ToolResult(id: string, text: string)

  datatype Role = UserRole | AssistantRole

  datatype Sent = Sent(role: Role, content: seq<Block>)

  function Uses(calls: seq<ToolCall>): seq<Block> {
    seq(|calls|, i requires 0 <= i < |calls| => ToolUse(calls[i].id, calls[i].name, calls[i].arguments))
  }

  /** The blocks of a message. */
  function BlocksOf(m: Message): seq<Block> {
    match m
    case System(_) => []
    case User(c) => [Text(c)]
    case Assistant(c, calls) => (if c == "" then [] else [Text(c)]) + Uses(calls)
    case Tool(id, _, c) => [ToolResult(id, c)]
  }

  /** What is sent of a message, block by block: an empty text of an assistant is left out, its
      calls follow in order, and a tool message is the result of its call. */
  lemma BlocksShow(m: Message)
    ensures match m
            case System(_) => BlocksOf(m) == []
            case User(c) => BlocksOf(m) == [Text(c)]
            case Tool(id, _, c) => BlocksOf(m) == [ToolResult(id, c)]
            case Assistant(c, calls) =>
              var skip := if c == "" then 0 else 1;
              && |BlocksOf(m)| == skip + |calls| && (c != "" ==> BlocksOf(m)[0] == Text(c))
              && forall i :: 0 <= i < |calls| ==>
                   BlocksOf(m)[skip + i] == ToolUse(calls[i].id, calls[i].name, calls[i].arguments)
  {
    if m.Assistant? {
      var skip := if m.content == "" then 0 else 1;
      forall i | 0 <= i < |m.calls|
        ensures BlocksOf(m)[skip + i] == ToolUse(m.calls[i].id, m.calls[i].name, m.calls[i].arguments)
      {
        assert Uses(m.calls)[i] == ToolUse(m.calls[i].id, m.calls[i].name, m.calls[i].arguments);
      }
    }
  }

  function RoleOf(m: Message): Role {
    if m.Assistant? then AssistantRole else UserRole
  }

  /** All blocks of a history with their roles, in order. */
  function Content(h: seq<Message>): seq<(Role, Block)> {
    if h == [] then [] else Tagged(RoleOf(h[0]), BlocksOf(h[0])) + Content(h[1..])
  }

  function Tagged(role: Role, blocks: seq<Block>): seq<(Role, Block)> {
    seq(|blocks|, i requires 0 <= i < |blocks| => (role, blocks[i]))
  }

  function SentContent(out: seq<Sent>): seq<(Role, Block)> {
    if out == [] then [] else SentContent(ButLast(out)) + Tagged(Last(out).role, Last(out).content)
  }

  function ResultBlocks(results: seq<Message>): seq<Block> {
    if results == [] then [] else BlocksOf(results[0]) + ResultBlocks(results[1..])
  }

  /** How a paired history is sent: one message each, except that system messages go elsewhere
      and that the results of an assistant message make one user message right after it. */
  function PairedForm(h: seq<Message>): seq<Sent>
    requires Paired(h)
    decreases |h|
  {
    if h == [] then []
    else match h[0]
      case System(_) => PairedForm(h[1..])
      case User(_) => [Sent(UserRole, BlocksOf(h[0]))] + PairedForm(h[1..])
      case Assistant(_, calls) =>
        var k := 1 + |calls|;
        [Sent(AssistantRole, BlocksOf(h[0]))]
        + (if calls == [] then [] else [Sent(UserRole, ResultBlocks(h[1..k]))])
        + PairedForm(h[k..])
  }

  function FlushResults(out: seq<Sent>, pending: seq<Block>): seq<Sent> {
    if pending == [] then out else out + [Sent(UserRole, pending)]
  }

  /** What one message does to the messages sent and the results held back. */
  function Collapsed(out: seq<Sent>, pending: seq<Block>, m: Message): (seq<Sent>, seq<Block>) {
    match m
    case System(_) => (out, pending)
    case Tool(_, _, _) => (out, pending + BlocksOf(m))
    case _ => (FlushResults(out, pending) + [Sent(RoleOf(m), BlocksOf(m))], [])
  }

  function Collapse(out: seq<Sent>, pending: seq<Block>, h: seq<Message>): seq<Sent>
    decreases |h|
  {
    if h == [] then FlushResults(out, pending)
    else
      var next := Collapsed(out, pending, h[0]);
      Collapse(next.0, next.1, h[1..])
  }

  lemma SentSnoc(out: seq<Sent>, s: Sent)
    ensures SentContent(out + [s]) == SentContent(out) + Tagged(s.role, s.content)
  {
    assert ButLast(out + [s]) == out;
  }

  lemma SentFlush(out: seq<Sent>, pending: seq<Block>)
    ensures SentContent(FlushResults(out, pending)) == SentContent(out) + Tagged(UserRole, pending)
  {
    if pending == [] {
      assert SentContent(out) + Tagged(UserRole, pending) == SentContent(out);
    } else {
      SentSnoc(out, Sent(UserRole, pending));
    }
  }

  /** On any history, what is sent holds exactly the content of the messages that are not system
      messages, with their roles and in their order. */
  lemma {:induction false} CollapseKeepsContent(out: seq<Sent>, pending: seq<Block>, h: seq<Message>)
    ensures SentContent(Collapse(out, pending, h)) == SentContent(out) + Tagged(UserRole, pending) + Content(h)
    decreases |h|
  {
    hide BlocksOf, SentContent;
    if h == [] {
      SentFlush(out, pending);
      assert SentContent(out) + Tagged(UserRole, pending) + [] == SentContent(out) + Tagged(UserRole, pending);
    } else {
      var next := Collapsed(out, pending, h[0]);
      CollapseKeepsContent(next.0, next.1, h[1..]);
      CollapsedKeepsContent(out, pending, h[0]);
      Regroup(SentContent(next.0) + Tagged(UserRole, next.1), SentContent(out) + Tagged(UserRole, pending),
              Tagged(RoleOf(h[0]), BlocksOf(h[0])), Content(h[1..]));
    }
  }

  lemma Regroup<T>(a: seq<T>, b: seq<T>, c: seq<T>, d: seq<T>)
    requires a == b + c
    ensures a + d == b + (c + d)
  {
  }

  lemma CollapsedKeepsContent(out: seq<Sent>, pending: seq<Block>, m: Message)
    ensures var next := Collapsed(out, pending, m);
      SentContent(next.0) + Tagged(UserRole, next.1)
      == SentContent(out) + Tagged(UserRole, pending) + Tagged(RoleOf(m), BlocksOf(m))
  {
    hide SentContent;
    var next := Collapsed(out, pending, m);
    match m {
      case System(_) =>
        assert Tagged(RoleOf(m), BlocksOf(m)) == [];
      case Tool(_, _, _) =>
        assert Tagged(UserRole, pending + BlocksOf(m)) == Tagged(UserRole, pending) + Tagged(UserRole, BlocksOf(m));
      case _ =>
        SentFlush(out, pending);
        SentSnoc(FlushResults(out, pending), Sent(RoleOf(m), BlocksOf(m)));
        assert Tagged(UserRole, next.1) == [];
    }
  }

  /** Tool messages are held back together. */
  lemma {:induction false} CollapseResults(out: seq<Sent>, pending: seq<Block>, results: seq<Message>, h: seq<Message>)
    requires forall i :: 0 <= i < |results| ==> results[i].Tool?
    ensures Collapse(out, pending, results + h) == Collapse(out, pending + ResultBlocks(results), h)
    decreases |results|
  {
    hide BlocksOf;
    if results == [] {
      assert results + h == h && pending + [] == pending;
    } else {
      assert (results + h)[1..] == results[1..] + h;
      CollapseResults(out, pending + BlocksOf(results[0]), results[1..], h);
      assert pending + BlocksOf(results[0]) + ResultBlocks(results[1..]) == pending + ResultBlocks(results);
    }
  }

  /** The results held back go out before whatever a paired history continues with. */
  lemma {:induction false} CollapseFlushes(out: seq<Sent>, pending: seq<Block>, h: seq<Message>)
    requires Paired(h)
    ensures Collapse(out, pending, h) == Collapse(FlushResults(out, pending), [], h)
    decreases |h|
  {
    if h != [] && h[0].System? {
      CollapseFlushes(out, pending, h[1..]);
    }
  }

  /** A paired history is sent in its paired form. */
  lemma {:induction false} CollapseOfPaired(out: seq<Sent>, h: seq<Message>)
    requires Paired(h)
    ensures Collapse(out, [], h) == out + PairedForm(h)
    decreases |h|
  {
    hide BlocksOf;
    if h == [] {
      assert out + [] == out;
    } else if h[0].Assistant? {
      var k := 1 + |h[0].calls|;
      CollapseOfPaired(AfterAssistant(out, h[0], h[1..k]), h[k..]);
      CollapseOfRound(out, h);
    } else if h[0].System? {
      CollapseOfPaired(out, h[1..]);
    } else {
      var sent := Sent(UserRole, BlocksOf(h[0]));
      CollapseOfPaired(out + [sent], h[1..]);
      assert out + [sent] + PairedForm(h[1..]) == out + ([sent] + PairedForm(h[1..]));
    }
  }

  function AfterAssistant(out: seq<Sent>, m: Message, results: seq<Message>): seq<Sent> {
    FlushResults(out + [Sent(AssistantRole, BlocksOf(m))], ResultBlocks(results))
  }

  /** An assistant message and its results, then the rest. */
  lemma CollapseOfRound(out: seq<Sent>, h: seq<Message>)
    requires Paired(h) && h != [] && h[0].Assistant?
    ensures var k := 1 + |h[0].calls|;
      && Collapse(out, [], h) == Collapse(AfterAssistant(out, h[0], h[1..k]), [], h[k..])
      && AfterAssistant(out, h[0], h[1..k]) + PairedForm(h[k..]) == out + PairedForm(h)
  {
    hide BlocksOf, Collapse, ResultBlocks, Paired, PairedForm, Answers;
    var calls := h[0].calls;
    var k := 1 + |calls|;
    RoundFirst(h);
    var results, rest := h[1..k], h[k..];
    var sent := Sent(AssistantRole, BlocksOf(h[0]));
    assert h[1..] == results + rest;
    CollapseAssistant(out, h);
    AnswersCount(results, calls);
    CollapseResults(out + [sent], [], results, rest);
    assert [] + ResultBlocks(results) == ResultBlocks(results);
    CollapseFlushes(out + [sent], ResultBlocks(results), rest);
    ResultBlocksOf(results, calls);
    Regrouped(out, sent, ResultBlocks(results), PairedForm(rest));
  }

  lemma RoundFirst(h: seq<Message>)
    requires Paired(h) && h != [] && h[0].Assistant?
    ensures var k := 1 + |h[0].calls|;
      && |h| >= k && Answers(h[1..k], h[0].calls) && Paired(h[k..])
      && PairedForm(h) == [Sent(AssistantRole, BlocksOf(h[0]))]
                          + (if h[0].calls == [] then [] else [Sent(UserRole, ResultBlocks(h[1..k]))])
                          + PairedForm(h[k..])
  {
    hide BlocksOf, ResultBlocks, Answers;
  }

  lemma Regrouped(out: seq<Sent>, sent: Sent, blocks: seq<Block>, rest: seq<Sent>)
    ensures FlushResults(out + [sent], blocks) + rest
         == out + ([sent] + (if blocks == [] then [] else [Sent(UserRole, blocks)]) + rest)
  {
    if blocks == [] {
      assert [sent] + [] + rest == [sent] + rest;
    }
    assert out + [sent] + rest == out + ([sent] + rest);
  }

  lemma CollapseAssistant(out: seq<Sent>, h: seq<Message>)
    requires h != [] && h[0].Assistant?
    ensures Collapse(out, [], h) == Collapse(out + [Sent(AssistantRole, BlocksOf(h[0]))], [], h[1..])
  {
    hide BlocksOf;
  }

  /** The results of `k` calls make `k` blocks, in the order of the calls. */
  lemma {:induction false} ResultBlocksOf(results: seq<Message>, calls: seq<ToolCall>)
    requires Answers(results, calls)
    ensures |ResultBlocks(results)| == |calls|
    ensures forall i :: 0 <= i < |calls| ==> ResultBlocks(results)[i] == ToolResult(calls[i].id, results[i].content)
    decreases |calls|
  {
    if calls != [] {
      ResultBlocksOf(results[1..], calls[1..]);
      forall i | 0 <= i < |calls|
        ensures i < |ResultBlocks(results)| && ResultBlocks(results)[i] == ToolResult(calls[i].id, results[i].content)
      {
        if i > 0 {
          assert results[i] == results[1..][i - 1] && calls[i] == calls[1..][i - 1];
          assert ResultBlocks(results)[i] == ResultBlocks(results[1..])[i - 1];
        }
      }
    }
  }

  method CollapseToAnthropic(history: seq<Message>) returns (out: seq<Sent>)
    ensures SentContent(out) == Content(history)
    ensures Paired(history) ==> out == PairedForm(history)
  {
    hide BlocksOf, Content, SentContent, Paired, PairedForm;
    CollapseKeepsContent([], [], history);
    NothingSent(history);
    if Paired(history) {
      CollapseOfPaired([], history);
    }
    out := [];
    var pending: seq<Block>, i := [], 0;
    assert history[0..] == history;
    while i < |history|
      invariant 0 <= i <= |history|
      invariant Collapse(out, pending, history[i..]) == Collapse([], [], history)
    {
      var m := history[i];
      assert history[i..][0] == m && history[i..][1..] == history[i + 1..];
      match m {
        case System(_) =>
        case User(_) =>
          out, pending := FlushResults(out, pending), [];
          out := out + [Sent(UserRole, BlocksOf(m))];
        case Assistant(_, _) =>
          out, pending := FlushResults(out, pending), [];
          out := out + [Sent(AssistantRole, BlocksOf(m))];
        case Tool(_, _, _) =>
          pending := pending + BlocksOf(m);
      }
      i := i + 1;
    }
    out := FlushResults(out, pending);
  }

  lemma NothingSent(h: seq<Message>)
    ensures SentContent([]) + Tagged(UserRole, []) + Content(h) == Content(h)
    ensures Paired(h) ==> [] + PairedForm(h) == PairedForm(h)
  {
  }
}
