/** Session costs, per-ticket accumulators, flushes to the tracker, and caps. Money is exact. */
module Budget {
  import opened Prelude

  // ---- Cost of a session ---------------------------------------------------

  datatype Rate = Rate(inputPerMillion: real, outputPerMillion: real)

  type Table = map<string, map<string, Rate>>

  function LowerChar(c: char): char {
    if 'A' <= c <= 'Z' then ('a' as int + (c as int - 'A' as int)) as char else c
  }

  function Lower(s: string): string {
    seq(|s|, i requires 0 <= i < |s| => LowerChar(s[i]))
  }

  /** The table key of a provider name in lower case. */
  function NormalizeProvider(s: string): string {
    if s == "claudecode" || s == "anthropic" then "anthropic"
    else if s == "openai" || s == "openaicompatible" || s == "codex" then "openai"
    else if s == "google" || s == "gemini" then "google"
    else if s == "ollama" || s == "local" then "ollama"
    else s
  }

  /** `split_once('/')`: what follows the first slash, or the whole name. */
  function ModelKey(model: string): string {
    AfterSlash(model, model)
  }

  function AfterSlash(rest: string, whole: string): string {
    if rest == "" then whole
    else if rest[0] == '/' then rest[1..]
    else AfterSlash(rest[1..], whole)
  }

  lemma {:induction false} AfterFirstSlash(prefix: string, model: string, whole: string)
    requires '/' !in prefix
    ensures AfterSlash(prefix + "/" + model, whole) == model
    decreases |prefix|
  {
    var all := prefix + "/" + model;
    if prefix == "" {
      assert all[1..] == model;
    } else {
      assert all[1..] == prefix[1..] + "/" + model;
      AfterFirstSlash(prefix[1..], model, whole);
    }
  }

  lemma {:induction false} NoSlash(rest: string, whole: string)
    requires '/' !in rest
    ensures AfterSlash(rest, whole) == whole
    decreases |rest|
  {
    if rest != "" {
      NoSlash(rest[1..], whole);
    }
  }

  function Lookup(table: Table, provider: string, model: string): Option<Rate> {
    var key := NormalizeProvider(Lower(provider));
    if key !in table || ModelKey(model) !in table[key] then None
    else Some(table[key][ModelKey(model)])
  }

  /** A provider prefix in the model name changes nothing, except for a model that has a slash
      itself. */
  lemma PrefixedModel(table: Table, provider: string, prefix: string, model: string)
    requires '/' !in prefix && '/' !in model
    ensures Lookup(table, provider, prefix + "/" + model) == Lookup(table, provider, model)
  {
    AfterFirstSlash(prefix, model, prefix + "/" + model);
    NoSlash(model, model);
  }

  /** Cost in USD; an unknown provider or model costs nothing. */
  function ComputeCost(table: Table, provider: string, model: string, input: nat, output: nat): real {
    match Lookup(table, provider, model)
    case None => 0.0
    case Some(r) =>
      r.inputPerMillion * (input as real) / 1000000.0 + r.outputPerMillion * (output as real) / 1000000.0
  }

  /** A rate is the price of a million tokens of its kind; what is not in the table is free. As
      cost is additive, this fixes it. */
  lemma PriceOfAMillion(table: Table, provider: string, model: string)
    ensures match Lookup(table, provider, model)
            case Some(r) =>
              && ComputeCost(table, provider, model, 1000000, 0) == r.inputPerMillion
              && ComputeCost(table, provider, model, 0, 1000000) == r.outputPerMillion
            case None => forall input, output :: ComputeCost(table, provider, model, input, output) == 0.0
  {
    hide Lookup;
  }

  /** Splitting a session in two changes no cost. */
  lemma CostIsAdditive(table: Table, provider: string, model: string, i: nat, o: nat, j: nat, p: nat)
    ensures ComputeCost(table, provider, model, i + j, o + p)
         == ComputeCost(table, provider, model, i, o) + ComputeCost(table, provider, model, j, p)
  {
    hide Lookup;
    var rate := Lookup(table, provider, model);
    if rate.Some? {
      RateIsAdditive(rate.value.inputPerMillion, i, j);
      RateIsAdditive(rate.value.outputPerMillion, o, p);
    }
  }

  lemma RateIsAdditive(rate: real, a: nat, b: nat)
    ensures rate * ((a + b) as real) / 1000000.0 == rate * (a as real) / 1000000.0 + rate * (b as real) / 1000000.0
  {
    assert (a + b) as real == a as real + b as real;
    assert rate * (a as real + b as real) == rate * (a as real) + rate * (b as real);
  }

  predicate NonNegative(table: Table) {
    forall p, m | p in table && m in table[p] ::
      table[p][m].inputPerMillion >= 0.0 && table[p][m].outputPerMillion >= 0.0
  }

  lemma CostIsNonNegative(table: Table, provider: string, model: string, input: nat, output: nat)
    requires NonNegative(table)
    ensures ComputeCost(table, provider, model, input, output) >= 0.0
  {
    var rate := Lookup(table, provider, model);
    if rate.Some? {
      ProductNonNegative(rate.value.inputPerMillion, input as real);
      ProductNonNegative(rate.value.outputPerMillion, output as real);
    }
  }

  lemma ProductNonNegative(a: real, b: real)
    requires a >= 0.0 && b >= 0.0
    ensures a * b / 1000000.0 >= 0.0
  {
    assert a * b >= 0.0;
  }

  /** `round_dp(4)`: to the nearest ten-thousandth, ties to the even one. */
  function RoundDp4(c: real): real {
    var x := c * 10000.0;
    var f := x.Floor;
    var low := f as real;
    (if x - low < 0.5 || (x - low == 0.5 && f % 2 == 0) then low else low + 1.0) / 10000.0
  }

  /** The written cost is a multiple of 0.0001 within half of that, and exact if the cost is one. */
  lemma RoundingIsClose(c: real, n: int)
    ensures -0.00005 <= RoundDp4(c) - c <= 0.00005
    ensures c == n as real / 10000.0 ==> RoundDp4(c) == c
    ensures RoundDp4(c) == (RoundDp4(c) * 10000.0).Floor as real / 10000.0
  {
    var x := c * 10000.0;
    var f := x.Floor;
    var m := if x - f as real < 0.5 || (x - f as real == 0.5 && f % 2 == 0) then f else f + 1;
    assert RoundDp4(c) == m as real / 10000.0;
    assert RoundDp4(c) * 10000.0 == m as real;
  }

  /** Half a unit goes to the even neighbour. */
  lemma TiesGoToEven(n: int)
    ensures RoundDp4((n as real + 0.5) / 10000.0) == (if n % 2 == 0 then n else n + 1) as real / 10000.0
  {
    assert (n as real + 0.5) / 10000.0 * 10000.0 == n as real + 0.5;
    assert (n as real + 0.5).Floor == n;
  }

  // ---- Accumulators --------------------------------------------------------

  datatype Acc = Acc(pendingInput: nat, pendingOutput: nat, pendingCost: real, runningTokens: nat, runningCost: real)

  const FRESH: Acc := Acc(0, 0, 0.0, 0, 0.0)

  function AddSession(a: Acc, input: nat, output: nat, cost: real): Acc {
    Acc(SatAdd(a.pendingInput, input), SatAdd(a.pendingOutput, output), a.pendingCost + cost,
        SatAdd(a.runningTokens, SatAdd(input, output)), a.runningCost + cost)
  }

  predicate HasPending(a: Acc) {
    a.pendingInput != 0 || a.pendingOutput != 0 || a.pendingCost != 0.0
  }

  /** What a flush takes out of an accumulator. The sum of the pending tokens is a plain addition
      of 64-bit numbers. */
  datatype Flushed = Flushed(tokensDelta: nat, costDelta: real, tokensTotal: nat, costTotal: real)

  function TakeOut(a: Acc): Flushed {
    Flushed((a.pendingInput + a.pendingOutput) % (U64_MAX + 1), a.pendingCost, a.runningTokens, a.runningCost)
  }

  function Cleared(a: Acc): Acc {
    a.(pendingInput := 0, pendingOutput := 0, pendingCost := 0.0)
  }

  /** The two fields of a ticket on the tracker. */
  datatype Fields = Fields(tokens: Option<nat>, cost: Option<real>)

  datatype Books = Books(tickets: map<string, Acc>, tracker: map<string, Fields>)

  const EMPTY: Books := Books(map[], map[])

  function TicketOf(b: Books, id: string): Acc {
    if id in b.tickets then b.tickets[id] else FRESH
  }

  function FieldsOf(b: Books, id: string): Fields {
    if id in b.tracker then b.tracker[id] else Fields(None, None)
  }

  datatype CapKind = Tokens | Cost

  datatype Outcome = Accumulated | CapHit(kind: CapKind)

  datatype Caps = Caps(maxTokens: Option<nat>, maxCost: Option<real>, acceptsCost: bool)

  function Judge(caps: Caps, a: Acc): Outcome {
    if caps.maxTokens.Some? && a.runningTokens >= caps.maxTokens.value then CapHit(Tokens)
    else if caps.acceptsCost && caps.maxCost.Some? && a.runningCost >= caps.maxCost.value then CapHit(Cost)
    else Accumulated
  }

  /** A session report: the ticket, its tokens and the cost computed for it. */
  datatype Session = Session(id: string, input: nat, output: nat, cost: real)

  /** `ok1` and `ok2` say whether the tracker takes the first and the second write. */
  datatype Op = Report(s: Session) | Flush(id: string, ok1: bool, ok2: bool)

  function Reported(b: Books, s: Session): Books {
    b.(tickets := b.tickets[s.id := AddSession(TicketOf(b, s.id), s.input, s.output, s.cost)])
  }

  function Taken(b: Books, id: string): Books {
    if HasPending(TicketOf(b, id)) then b.(tickets := b.tickets[id := Cleared(TicketOf(b, id))]) else b
  }

  /** The writes of a flush: tokens first, cost only after the tokens were taken. */
  function Written(b: Books, id: string, f: Flushed, ok1: bool, ok2: bool): Books {
    if !ok1 then b
    else
      var shown := FieldsOf(b, id);
      b.(tracker :=
         b.tracker[id := Fields(Some(f.tokensTotal), if ok2 then Some(RoundDp4(f.costTotal)) else shown.cost)])
  }

  function Step(b: Books, op: Op): Books {
    match op
    case Report(s) => Reported(b, s)
    case Flush(id, ok1, ok2) =>
      var a := TicketOf(b, id);
      if HasPending(a) then Written(Taken(b, id), id, TakeOut(a), ok1, ok2) else b
  }

  function Run(ops: seq<Op>): Books {
    if ops == [] then EMPTY else Step(Run(ButLast(ops)), Last(ops))
  }

  lemma RunSnoc(ops: seq<Op>, op: Op)
    ensures Run(ops + [op]) == Step(Run(ops), op)
  {
    hide Step;
    assert ButLast(ops + [op]) == ops;
  }

  /** A session between the locked part of a flush and its writes is as good as one after them. */
  lemma SessionsCommuteWithWrites(b: Books, s: Session, id: string, f: Flushed, ok1: bool, ok2: bool)
    ensures Written(Reported(b, s), id, f, ok1, ok2) == Reported(Written(b, id, f, ok1, ok2), s)
  {
    hide AddSession, RoundDp4;
  }

  // ---- Sums over a run -----------------------------------------------------

  function TokenSum(ops: seq<Op>, id: string): nat {
    if ops == [] then 0
    else TokenSum(ButLast(ops), id)
         + if Last(ops).Report? && Last(ops).s.id == id then Last(ops).s.input + Last(ops).s.output else 0
  }

  function CostSum(ops: seq<Op>, id: string): real {
    if ops == [] then 0.0
    else CostSum(ButLast(ops), id)
         + if Last(ops).Report? && Last(ops).s.id == id then Last(ops).s.cost else 0.0
  }

  /** What the flushes of a run took out of a ticket. */
  function FlushedTokens(ops: seq<Op>, id: string): nat {
    if ops == [] then 0
    else FlushedTokens(ButLast(ops), id)
         + if Last(ops).Flush? && Last(ops).id == id && HasPending(TicketOf(Run(ButLast(ops)), id))
           then TakeOut(TicketOf(Run(ButLast(ops)), id)).tokensDelta else 0
  }

  function FlushedCost(ops: seq<Op>, id: string): real {
    if ops == [] then 0.0
    else FlushedCost(ButLast(ops), id)
         + if Last(ops).Flush? && Last(ops).id == id && HasPending(TicketOf(Run(ButLast(ops)), id))
           then TakeOut(TicketOf(Run(ButLast(ops)), id)).costDelta else 0.0
  }

  /** What one step does to a ticket. */
  lemma TicketStep(b: Books, op: Op, id: string)
    ensures TicketOf(Step(b, op), id)
         == if op.Report? && op.s.id == id then AddSession(TicketOf(b, id), op.s.input, op.s.output, op.s.cost)
            else if op.Flush? && op.id == id && HasPending(TicketOf(b, id)) then Cleared(TicketOf(b, id))
            else TicketOf(b, id)
  {
    hide AddSession, RoundDp4;
  }

  /** The running totals are the exact sums, the tokens up to the bound of a 64-bit number. */
  lemma {:induction false} RunningTotals(ops: seq<Op>, id: string)
    ensures TicketOf(Run(ops), id).runningTokens == Min(TokenSum(ops, id), U64_MAX)
    ensures TicketOf(Run(ops), id).runningCost == CostSum(ops, id)
    decreases |ops|
  {
    hide Step;
    if ops != [] {
      RunningTotals(ButLast(ops), id);
      TicketStep(Run(ButLast(ops)), Last(ops), id);
    }
  }

  /** The outcome after a session, in terms of everything reported of the ticket: the token cap
      comes first, with the sum held at the bound of a 64-bit number. */
  predicate Judged(caps: Caps, tokens: nat, cost: real, r: Outcome) {
    var overTokens := caps.maxTokens.Some? && Min(tokens, U64_MAX) >= caps.maxTokens.value;
    var overCost := caps.acceptsCost && caps.maxCost.Some? && cost >= caps.maxCost.value;
    && (r == CapHit(Tokens) <==> overTokens)
    && (r == CapHit(Cost) <==> !overTokens && overCost)
    && (r == Accumulated <==> !overTokens && !overCost)
  }

  lemma OutcomeOfRun(caps: Caps, ops: seq<Op>, id: string)
    ensures Judged(caps, TokenSum(ops, id), CostSum(ops, id), Judge(caps, TicketOf(Run(ops), id)))
  {
    hide Run, TokenSum, CostSum;
    RunningTotals(ops, id);
  }

  /** What was flushed and what is pending make up what was reported: the cost always, the tokens
      as long as the sum fits 64 bits. */
  lemma {:induction false} NothingLostInFlushes(ops: seq<Op>, id: string)
    ensures FlushedCost(ops, id) + TicketOf(Run(ops), id).pendingCost == CostSum(ops, id)
    ensures TokenSum(ops, id) <= U64_MAX ==>
      FlushedTokens(ops, id) + TicketOf(Run(ops), id).pendingInput + TicketOf(Run(ops), id).pendingOutput
      == TokenSum(ops, id)
    decreases |ops|
  {
    hide Step;
    if ops != [] {
      NothingLostInFlushes(ButLast(ops), id);
      TicketStep(Run(ButLast(ops)), Last(ops), id);
    }
  }

  /** Pending counters are 64-bit numbers. */
  lemma {:induction false} PendingFits(ops: seq<Op>, id: string)
    ensures TicketOf(Run(ops), id).pendingInput <= U64_MAX && TicketOf(Run(ops), id).pendingOutput <= U64_MAX
    decreases |ops|
  {
    hide Step;
    if ops != [] {
      PendingFits(ButLast(ops), id);
      TicketStep(Run(ButLast(ops)), Last(ops), id);
    }
  }

  /** The delta of a flush is what was pending if and only if that fits 64 bits; otherwise it is
      short by 2^64. */
  lemma DeltaIsExactIff(ops: seq<Op>, id: string)
    ensures var a := TicketOf(Run(ops), id);
      && (TakeOut(a).tokensDelta == a.pendingInput + a.pendingOutput <==> a.pendingInput + a.pendingOutput <= U64_MAX)
      && (a.pendingInput + a.pendingOutput > U64_MAX ==>
            TakeOut(a).tokensDelta == a.pendingInput + a.pendingOutput - (U64_MAX + 1))
  {
    hide Run;
    PendingFits(ops, id);
  }

  /** That can happen: with a session of 2^64 - 1 tokens each way, the delta of the flush is two
      short of twice as many, and one short of the running total it is reported with. */
  lemma DeltaCanWrap(id: string)
    ensures var ops := [Report(Session(id, U64_MAX, U64_MAX, 0.0))];
      var a := TicketOf(Run(ops), id);
      TakeOut(a).tokensDelta == U64_MAX - 1 && a.runningTokens == U64_MAX
  {
    var op := Report(Session(id, U64_MAX, U64_MAX, 0.0));
    assert ButLast([op]) == [];
    TicketStep(EMPTY, op, id);
  }

  // ---- Order of sessions ---------------------------------------------------

  function Sessions(ops: seq<Op>): seq<Session> {
    if ops == [] then []
    else Sessions(ButLast(ops)) + if Last(ops).Report? then [Last(ops).s] else []
  }

  function Tokens1(s: Session, id: string): nat {
    if s.id == id then s.input + s.output else 0
  }

  function Cost1(s: Session, id: string): real {
    if s.id == id then s.cost else 0.0
  }

  function TokensOf(ss: seq<Session>, id: string): nat {
    if ss == [] then 0 else TokensOf(ButLast(ss), id) + Tokens1(Last(ss), id)
  }

  function CostOf(ss: seq<Session>, id: string): real {
    if ss == [] then 0.0 else CostOf(ButLast(ss), id) + Cost1(Last(ss), id)
  }

  lemma {:induction false} SumsOfSessions(ops: seq<Op>, id: string)
    ensures TokenSum(ops, id) == TokensOf(Sessions(ops), id) && CostSum(ops, id) == CostOf(Sessions(ops), id)
    decreases |ops|
  {
    if ops != [] {
      SumsOfSessions(ButLast(ops), id);
      var before := Sessions(ButLast(ops));
      if Last(ops).Report? {
        assert ButLast(before + [Last(ops).s]) == before && Last(before + [Last(ops).s]) == Last(ops).s;
      } else {
        assert before + [] == before;
      }
    }
  }

  /** Taking one session out of the middle of a list. */
  lemma {:induction false} SumWithout(ss: seq<Session>, i: nat, id: string)
    requires i < |ss|
    ensures TokensOf(ss, id) == TokensOf(ss[..i] + ss[i + 1..], id) + Tokens1(ss[i], id)
    ensures CostOf(ss, id) == CostOf(ss[..i] + ss[i + 1..], id) + Cost1(ss[i], id)
    decreases |ss|
  {
    hide Tokens1, Cost1;
    var without := ss[..i] + ss[i + 1..];
    if i == |ss| - 1 {
      assert without == ButLast(ss);
    } else {
      var front := ButLast(ss);
      SumWithout(front, i, id);
      assert ButLast(without) == front[..i] + front[i + 1..];
      assert Last(without) == Last(ss);
    }
  }

  lemma MultisetWithout<T>(s: seq<T>, i: nat)
    requires i < |s|
    ensures multiset(s[..i] + s[i + 1..]) == multiset(s) - multiset{s[i]}
  {
    assert s == s[..i] + [s[i]] + s[i + 1..];
    assert multiset(s) == multiset(s[..i]) + multiset{s[i]} + multiset(s[i + 1..]);
  }

  /** Two lists with the same elements: where the last element of one is in the other. */
  lemma FindLast<T>(a: seq<T>, b: seq<T>) returns (i: nat)
    requires multiset(a) == multiset(b) && a != []
    ensures i < |b| && b[i] == Last(a)
    ensures multiset(ButLast(a)) == multiset(b[..i] + b[i + 1..])
  {
    assert Last(a) in multiset(a);
    assert Last(a) in b;
    i :| i < |b| && b[i] == Last(a);
    assert ButLast(a) == a[..|a| - 1] + a[|a| - 1 + 1..];
    MultisetWithout(a, |a| - 1);
    MultisetWithout(b, i);
  }

  lemma {:induction false} SumsIgnoreOrder(a: seq<Session>, b: seq<Session>, id: string)
    requires multiset(a) == multiset(b)
    ensures TokensOf(a, id) == TokensOf(b, id) && CostOf(a, id) == CostOf(b, id)
    decreases |a|
  {
    hide Tokens1, Cost1;
    if a == [] {
      assert |multiset(b)| == 0;
    } else {
      hide ButLast;
      var i := FindLast(a, b);
      ShorterByOne(a);
      SumsIgnoreOrder(ButLast(a), b[..i] + b[i + 1..], id);
      SumWithout(b, i, id);
    }
  }

  lemma ShorterByOne<T>(s: seq<T>)
    requires s != []
    ensures |ButLast(s)| < |s|
  {
  }

  /** Two runs with the same sessions end with the same running totals, whatever the order of the
      sessions, wherever the flushes are and whether their writes fail. */
  lemma TotalsIgnoreOrder(ops: seq<Op>, other: seq<Op>, id: string)
    requires multiset(Sessions(ops)) == multiset(Sessions(other))
    ensures TicketOf(Run(ops), id).runningTokens == TicketOf(Run(other), id).runningTokens
    ensures TicketOf(Run(ops), id).runningCost == TicketOf(Run(other), id).runningCost
  {
    hide Run, TokenSum, CostSum, Sessions, TokensOf, CostOf;
    RunningTotals(ops, id);
    RunningTotals(other, id);
    SumsOfSessions(ops, id);
    SumsOfSessions(other, id);
    SumsIgnoreOrder(Sessions(ops), Sessions(other), id);
  }

  // ---- Caps ----------------------------------------------------------------

  predicate CostsNonNegative(ops: seq<Op>) {
    forall i :: 0 <= i < |ops| && ops[i].Report? ==> ops[i].s.cost >= 0.0
  }

  lemma TotalsGrow(b: Books, op: Op, id: string)
    requires op.Report? ==> op.s.cost >= 0.0
    requires TicketOf(b, id).runningTokens <= U64_MAX
    ensures TicketOf(Step(b, op), id).runningTokens >= TicketOf(b, id).runningTokens
    ensures TicketOf(Step(b, op), id).runningTokens <= U64_MAX
    ensures TicketOf(Step(b, op), id).runningCost >= TicketOf(b, id).runningCost
  {
    hide Step;
    TicketStep(b, op, id);
  }

  /** With costs that are not negative, a cap once hit stays hit, and a hit token cap keeps being
      the one reported. */
  lemma {:induction false} CapsAreSticky(caps: Caps, ops: seq<Op>, k: nat, id: string)
    requires k <= |ops| && CostsNonNegative(ops[k..])
    ensures Judge(caps, TicketOf(Run(ops[..k]), id)).CapHit? ==> Judge(caps, TicketOf(Run(ops), id)).CapHit?
    ensures Judge(caps, TicketOf(Run(ops[..k]), id)) == CapHit(Tokens) ==>
              Judge(caps, TicketOf(Run(ops), id)) == CapHit(Tokens)
    decreases |ops|
  {
    hide Step, Run;
    TotalsGrowAlong(ops, k, id);
  }

  lemma {:induction false} TotalsGrowAlong(ops: seq<Op>, k: nat, id: string)
    requires k <= |ops| && CostsNonNegative(ops[k..])
    ensures TicketOf(Run(ops[..k]), id).runningTokens <= TicketOf(Run(ops), id).runningTokens
    ensures TicketOf(Run(ops[..k]), id).runningCost <= TicketOf(Run(ops), id).runningCost
    decreases |ops|
  {
    hide Step;
    if k == |ops| {
      assert ops[..k] == ops;
    } else {
      var front := ButLast(ops);
      assert front[..k] == ops[..k];
      assert forall i :: 0 <= i < |front[k..]| ==> front[k..][i] == ops[k..][i];
      TotalsGrowAlong(front, k, id);
      RunningTotals(front, id);
      assert Last(ops) == ops[k..][|ops| - 1 - k];
      TotalsGrow(Run(front), Last(ops), id);
    }
  }

  /** The condition is needed: where only a cost cap applies, one more session takes a hit cap
      back exactly when its cost is negative enough. */
  lemma NegativeCostUndoesCap(caps: Caps, ops: seq<Op>, s: Session)
    requires caps.maxTokens.None? && caps.maxCost.Some? && caps.acceptsCost
    requires Judge(caps, TicketOf(Run(ops), s.id)) == CapHit(Cost)
    ensures Judge(caps, TicketOf(Run(ops + [Report(s)]), s.id)) == Accumulated
       <==> s.cost < caps.maxCost.value - CostSum(ops, s.id)
  {
    hide Step, Run, SatAdd;
    var more := ops + [Report(s)];
    assert ButLast(more) == ops && Last(more) == Report(s);
    RunningTotals(ops, s.id);
    RunningTotals(more, s.id);
  }

  // ---- What the tracker shows ----------------------------------------------

  /** The tracker shows the running totals of a ticket. */
  predicate UpToDate(b: Books, id: string) {
    FieldsOf(b, id) == Fields(Some(TicketOf(b, id).runningTokens), Some(RoundDp4(TicketOf(b, id).runningCost)))
  }

  /** A flush that finds something pending and whose writes are taken makes the tracker show the
      full totals, whatever was flushed or failed before. */
  lemma SuccessfulFlushShowsAll(ops: seq<Op>, id: string)
    requires HasPending(TicketOf(Run(ops), id))
    ensures var after := Run(ops + [Flush(id, true, true)]);
      && UpToDate(after, id)
      && FieldsOf(after, id) == Fields(Some(Min(TokenSum(ops, id), U64_MAX)), Some(RoundDp4(CostSum(ops, id))))
  {
    hide RoundDp4, HasPending;
    var op := Flush(id, true, true);
    assert ButLast(ops + [op]) == ops;
    RunningTotals(ops, id);
    TicketStep(Run(ops), op, id);
  }

  /** A flush does nothing exactly when nothing is pending; after any flush nothing is. So after a
      failed one, more flushes leave the tracker as it is until another session is reported. */
  lemma {:induction false} FailedFlushWaitsForSession(ops: seq<Op>, id: string, ok1: bool, ok2: bool, more: seq<Op>)
    requires forall i :: 0 <= i < |more| ==> more[i].Flush? && more[i].id == id
    ensures Run(ops + [Flush(id, ok1, ok2)] + more) == Run(ops + [Flush(id, ok1, ok2)])
    ensures !HasPending(TicketOf(Run(ops + [Flush(id, ok1, ok2)]), id))
    decreases |more|
  {
    hide RoundDp4;
    var flush := ops + [Flush(id, ok1, ok2)];
    assert ButLast(flush) == ops;
    TicketStep(Run(ops), Flush(id, ok1, ok2), id);
    if more == [] {
      assert flush + more == flush;
    } else {
      FailedFlushWaitsForSession(ops, id, ok1, ok2, ButLast(more));
      assert ButLast(flush + more) == flush + ButLast(more);
      assert Last(flush + more) == Last(more);
    }
  }

  // ---- The manager ---------------------------------------------------------

  datatype FlushResult = NothingPending | Failed | Done(totals: Flushed)

  class BudgetManager {
    const table: Table
    const caps: Caps
    var tickets: map<string, Acc>
    /** The tracker's two fields, as far as this manager wrote them. */
    var tracker: map<string, Fields>
    ghost var ops: seq<Op>

    /** The books are what the operations so far made of them. */
    ghost predicate Valid()
      reads this
    {
      State() == Run(ops)
    }

    constructor (table: Table, caps: Caps)
      ensures Valid() && ops == [] && State() == EMPTY && this.table == table && this.caps == caps
    {
      this.table := table;
      this.caps := caps;
      tickets := map[];
      tracker := map[];
      ops := [];
    }

    function State(): Books
      reads this
    {
      Books(tickets, tracker)
    }

    method ApplySession(id: string, provider: string, model: string, input: nat, output: nat) returns (r: Outcome)
      requires Valid()
      modifies this`tickets, this`ops
      ensures var s := Session(id, input, output, ComputeCost(table, provider, model, input, output));
        State() == Step(old(State()), Report(s)) && ops == old(ops) + [Report(s)]
      ensures Valid() && Judged(caps, TokenSum(ops, id), CostSum(ops, id), r)
    {
      hide Judged, Run, TokenSum, CostSum, ComputeCost;
      var cost := ComputeCost(table, provider, model, input, output);
      if id !in tickets {
        tickets := tickets[id := FRESH];
      }
      var a := tickets[id];
      a := a.(pendingInput := SatAdd(a.pendingInput, input));
      a := a.(pendingOutput := SatAdd(a.pendingOutput, output));
      a := a.(pendingCost := a.pendingCost + cost);
      a := a.(runningTokens := SatAdd(a.runningTokens, SatAdd(input, output)));
      a := a.(runningCost := a.runningCost + cost);
      tickets := tickets[id := a];
      RunSnoc(ops, Report(Session(id, input, output, cost)));
      ops := ops + [Report(Session(id, input, output, cost))];
      OutcomeOfRun(caps, ops, id);
      if caps.maxTokens.Some? && a.runningTokens >= caps.maxTokens.value {
        return CapHit(Tokens);
      }
      if caps.acceptsCost && caps.maxCost.Some? && a.runningCost >= caps.maxCost.value {
        return CapHit(Cost);
      }
      r := Accumulated;
    }

    /** The pending counters are cleared before the first write is tried. */
    method FlushTicket(id: string, ok1: bool, ok2: bool) returns (r: FlushResult)
      requires Valid()
      modifies this
      ensures State() == Step(old(State()), Flush(id, ok1, ok2)) && ops == old(ops) + [Flush(id, ok1, ok2)] && Valid()
      ensures r.NothingPending? <==> !HasPending(old(TicketOf(State(), id)))
      ensures r.Done? <==> HasPending(old(TicketOf(State(), id))) && ok1 && ok2
      ensures r.Done? ==> r.totals == TakeOut(old(TicketOf(State(), id))) && UpToDate(State(), id)
    {
      hide RoundDp4, Run;
      RunSnoc(ops, Flush(id, ok1, ok2));
      ops := ops + [Flush(id, ok1, ok2)];
      if id !in tickets {
        return NothingPending;
      }
      var a := tickets[id];
      if a.pendingInput == 0 && a.pendingOutput == 0 && a.pendingCost == 0.0 {
        return NothingPending;
      }
      var snap := TakeOut(a);
      tickets := tickets[id := a.(pendingInput := 0, pendingOutput := 0, pendingCost := 0.0)];
      if !ok1 {
        return Failed;
      }
      var shown := FieldsOf(State(), id);
      tracker := tracker[id := shown.(tokens := Some(snap.tokensTotal))];
      if !ok2 {
        return Failed;
      }
      shown := FieldsOf(State(), id);
      tracker := tracker[id := shown.(cost := Some(RoundDp4(snap.costTotal)))];
      r := Done(snap);
    }
  }
}
