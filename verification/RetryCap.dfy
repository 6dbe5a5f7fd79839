/** The CI feedback loop's retry cap: the attempt counter kept in tracker fields, the order of
    tracker writes, and what both guarantee over whole runs and at every point of failure. */
module RetryCap {
  import opened Prelude
  import opened CheckGate

  // ---- Tracker fields ------------------------------------------------------

  datatype FieldValue = Null | Number(n: real) | Text(s: string)

  datatype Ticket = Ticket(fields: map<string, FieldValue>, state: string)

  function Field(t: Ticket, key: string): FieldValue {
    if key in t.fields then t.fields[key] else Null
  }

  predicate IsDigit(c: char) {
    '0' <= c <= '9'
  }

  /** The number a string of digits denotes. */
  function DigitsValue(s: string): nat
    requires forall c | c in s :: IsDigit(c)
  {
    if s == [] then 0
    else
      assert IsDigit(Last(s)) && forall c | c in ButLast(s) :: c in s;
      DigitsValue(ButLast(s)) * 10 + (Last(s) as int - '0' as int)
  }

  /** `str::parse::<u32>`: an optional plus sign, then digits, not beyond 32 bits. */
  function ParseU32(s: string): (r: Option<nat>)
    ensures r.Some? ==> r.value <= U32_MAX
  {
    var digits := if s != [] && s[0] == '+' then s[1..] else s;
    if digits != [] && (forall c | c in digits :: IsDigit(c)) && DigitsValue(digits) <= U32_MAX
    then Some(DigitsValue(digits))
    else None
  }

  /** Numbers are cast with `as u32`, which truncates and saturates. */
  function ReadU32(v: FieldValue): (r: Option<nat>)
    ensures r.Some? ==> r.value <= U32_MAX
  {
    match v
    case Null => None
    case Number(n) => if n >= 0.0 then Some(Min(n.Floor, U32_MAX)) else None
    case Text(s) => ParseU32(s)
  }

  // ---- The decision --------------------------------------------------------

  datatype Decision = Continue(next: nat) | CapHit(stayedAt: nat, max: nat)

  function Decide(prior: nat, max: nat): Decision {
    var next := Min(prior + 1, U32_MAX);
    if next > max then CapHit(prior, max) else Continue(next)
  }

  /** For 32-bit counters the cap is hit exactly when the counter has reached it, unless the cap
      is the largest 32-bit number: then the saturating increment keeps continuing for ever. */
  lemma CapHitExactly(prior: nat, max: nat)
    requires prior <= U32_MAX && max <= U32_MAX
    ensures Decide(prior, max).CapHit? <==> prior >= max && max != U32_MAX
    ensures prior < max ==> Decide(prior, max) == Continue(prior + 1)
    ensures Decide(U32_MAX, U32_MAX) == Continue(U32_MAX)
  {
  }

  datatype Config = Config(attemptKey: string, overrideKey: string, logKey: string, categoryKey: string,
                           maxAttempts: nat, blocked: string, review: Option<string>)

  function Counter(cfg: Config, t: Ticket): nat {
    var v := ReadU32(Field(t, cfg.attemptKey));
    if v.Some? then v.value else 0
  }

  function Cap(cfg: Config, t: Ticket): nat {
    var v := ReadU32(Field(t, cfg.overrideKey));
    if v.None? || v.value == 0 then cfg.maxAttempts else v.value
  }

  /** How the two fields are read: a number is taken down to a whole one, a missing or negative
      counter is none, and a missing, negative or zero cap is the configured one. */
  lemma FieldsRead(cfg: Config, t: Ticket, n: real)
    requires n < 4294967296.0
    ensures cfg.attemptKey !in t.fields ==> Counter(cfg, t) == 0
    ensures cfg.overrideKey !in t.fields ==> Cap(cfg, t) == cfg.maxAttempts
    ensures Field(t, cfg.attemptKey) == Number(n) ==>
              if n < 0.0 then Counter(cfg, t) == 0
              else Counter(cfg, t) as real <= n < Counter(cfg, t) as real + 1.0
    ensures Field(t, cfg.overrideKey) == Number(n) ==>
              if n < 1.0 then Cap(cfg, t) == cfg.maxAttempts
              else Cap(cfg, t) as real <= n < Cap(cfg, t) as real + 1.0
  {
  }

  // ---- Tracker effects -----------------------------------------------------

  datatype Effect = Wrote(key: string, value: FieldValue) | Moved(state: string)

  function Apply(t: Ticket, e: Effect): Ticket {
    match e
    case Wrote(key, value) => t.(fields := t.fields[key := value])
    case Moved(state) => t.(state := state)
  }

  function ApplyAll(t: Ticket, es: seq<Effect>): Ticket {
    if es == [] then t else Apply(ApplyAll(t, ButLast(es)), Last(es))
  }

  /** What a red evaluation is about: the failure log and the category that routes it. */
  datatype Routing = Routing(log: string, category: string, target: string)

  /** The tracker writes of a red run below the cap: the whole context, then the transition. */
  function FixEffects(cfg: Config, red: Routing, next: nat): seq<Effect> {
    [Wrote(cfg.logKey, Text(red.log)), Wrote(cfg.categoryKey, Text(red.category)),
     Wrote(cfg.attemptKey, Number(next as real)), Moved(red.target)]
  }

  /** All tracker writes one evaluation makes when nothing fails. */
  function Planned(cfg: Config, t: Ticket, verdict: Verdict, red: Routing): seq<Effect> {
    match verdict
    case Pending => []
    case Green => if cfg.review.Some? then [Moved(cfg.review.value)] else []
    case Red =>
      match Decide(Counter(cfg, t), Cap(cfg, t))
      case Continue(next) => FixEffects(cfg, red, next)
      case CapHit(_, _) => [Moved(cfg.blocked)]
  }

  datatype Outcome = WasPending | WasGreen | WasRed(next: nat) | WasCapHit(stayedAt: nat, max: nat) | Failed

  function Success(cfg: Config, t: Ticket, verdict: Verdict): Outcome {
    match verdict
    case Pending => WasPending
    case Green => WasGreen
    case Red =>
      match Decide(Counter(cfg, t), Cap(cfg, t))
      case Continue(next) => WasRed(next)
      case CapHit(stayedAt, max) => WasCapHit(stayedAt, max)
  }

  // ---- The code ------------------------------------------------------------

  /** The tracker's view of one ticket. Every call may fail unless the tracker is known to be
      reliable, and a failed one changes nothing. */
  class Tracker {
    const reliable: bool
    var ticket: Ticket
    ghost var history: seq<Effect>

    constructor (t: Ticket, reliable: bool)
      ensures ticket == t && history == [] && this.reliable == reliable
    {
      this.reliable, ticket, history := reliable, t, [];
    }

    /** Whether the next call succeeds. */
    method Succeeds() returns (ok: bool)
      ensures reliable ==> ok
    {
      ok := *;
      ok := ok || reliable;
    }

    method ReadCustomField(key: string) returns (v: Option<FieldValue>)
      ensures reliable ==> v.Some?
      ensures v.Some? ==> v.value == Field(ticket, key)
    {
      var ok := Succeeds();
      v := if ok then Some(if key in ticket.fields then ticket.fields[key] else Null) else None;
    }

    method WriteCustomField(key: string, value: FieldValue) returns (ok: bool)
      modifies this
      ensures reliable ==> ok
      ensures ticket == if ok then Apply(old(ticket), Wrote(key, value)) else old(ticket)
      ensures history == if ok then old(history) + [Wrote(key, value)] else old(history)
    {
      ok := Succeeds();
      if ok {
        ticket := ticket.(fields := ticket.fields[key := value]);
        history := history + [Wrote(key, value)];
      }
    }

    method TransitionIssue(state: string) returns (ok: bool)
      modifies this
      ensures reliable ==> ok
      ensures ticket == if ok then Apply(old(ticket), Moved(state)) else old(ticket)
      ensures history == if ok then old(history) + [Moved(state)] else old(history)
    {
      ok := Succeeds();
      if ok {
        ticket := ticket.(state := state);
        history := history + [Moved(state)];
      }
    }
  }

  /** The first `n` of `planned` have been performed. */
  predicate Through(t0: Ticket, h0: seq<Effect>, t: Ticket, h: seq<Effect>, planned: seq<Effect>, n: nat) {
    n <= |planned| && h == h0 + planned[..n] && t == ApplyAll(t0, planned[..n])
  }

  /** The tracker has gone through the first `n` of `planned`. */
  twostate predicate Performed(tr: Tracker, planned: seq<Effect>, n: nat)
    reads tr
  {
    Through(old(tr.ticket), old(tr.history), tr.ticket, tr.history, planned, n)
  }

  lemma ApplyPrefix(t: Ticket, es: seq<Effect>, n: nat)
    requires n < |es|
    ensures ApplyAll(t, es[..n + 1]) == Apply(ApplyAll(t, es[..n]), es[n])
  {
    assert ButLast(es[..n + 1]) == es[..n] && Last(es[..n + 1]) == es[n];
  }

  lemma OneMoreEffect(t0: Ticket, h0: seq<Effect>, t: Ticket, h: seq<Effect>, es: seq<Effect>, n: nat)
    requires n < |es| && Through(t0, h0, t, h, es, n)
    ensures Through(t0, h0, Apply(t, es[n]), h + [es[n]], es, n + 1)
  {
    hide Apply;
    ApplyPrefix(t0, es, n);
    assert es[..n + 1] == es[..n] + [es[n]];
  }

  lemma NoEffects(t: Ticket, h: seq<Effect>, es: seq<Effect>)
    ensures Through(t, h, t, h, es, 0)
  {
  }

  /** Whatever happens, the ticket has gone through an initial part of the planned writes, and
      through all of them exactly when the call succeeds. */
  method ApplyRedBelowCap(tr: Tracker, cfg: Config, red: Routing, next: nat) returns (ok: bool, ghost n: nat)
    modifies tr
    ensures Performed(tr, FixEffects(cfg, red, next), n) && (ok <==> n == 4)
    ensures tr.reliable ==> ok
  {
    hide Apply, Through;
    ghost var es, t, h := FixEffects(cfg, red, next), tr.ticket, tr.history;
    n := 0;
    NoEffects(t, h, es);
    OneMoreEffect(t, h, tr.ticket, tr.history, es, 0);
    ok := tr.WriteCustomField(cfg.logKey, Text(red.log));
    if !ok {
      return;
    }
    n := 1;
    OneMoreEffect(t, h, tr.ticket, tr.history, es, 1);
    ok := tr.WriteCustomField(cfg.categoryKey, Text(red.category));
    if !ok {
      return;
    }
    n := 2;
    OneMoreEffect(t, h, tr.ticket, tr.history, es, 2);
    ok := tr.WriteCustomField(cfg.attemptKey, Number(next as real));
    if !ok {
      return;
    }
    n := 3;
    OneMoreEffect(t, h, tr.ticket, tr.history, es, 3);
    ok := tr.TransitionIssue(red.target);
    if ok {
      n := 4;
    }
  }

  /** Reads the counter and the per-ticket cap and decides; None when a read fails. */
  method ReadAndDecide(tr: Tracker, cfg: Config) returns (d: Option<Decision>)
    ensures tr.reliable ==> d.Some?
    ensures d.Some? ==> d.value == Decide(Counter(cfg, tr.ticket), Cap(cfg, tr.ticket))
  {
    var count := tr.ReadCustomField(cfg.attemptKey);
    if count.None? {
      return None;
    }
    var cap := tr.ReadCustomField(cfg.overrideKey);
    if cap.None? {
      return None;
    }
    var c, m := ReadU32(count.value), ReadU32(cap.value);
    d := Some(Decide(if c.Some? then c.value else 0,
                     if m.None? || m.value == 0 then cfg.maxAttempts else m.value));
  }

  /** Where an evaluation that has run to its end leaves the ticket. */
  predicate Settled(cfg: Config, was: Ticket, outcome: Outcome, red: Routing, now: Ticket) {
    match outcome
    case WasPending => now == was
    case WasGreen => now == was.(state := if cfg.review.Some? then cfg.review.value else was.state)
    case WasCapHit(_, _) => now == was.(state := cfg.blocked)
    case WasRed(next) =>
      && now.state == red.target
      && now.fields == was.fields[cfg.logKey := Text(red.log)][cfg.categoryKey := Text(red.category)]
                                 [cfg.attemptKey := Number(next as real)]
    case Failed => true
  }

  lemma PlannedSettles(cfg: Config, t: Ticket, verdict: Verdict, red: Routing)
    ensures Settled(cfg, t, Success(cfg, t, verdict), red, ApplyAll(t, Planned(cfg, t, verdict, red)))
  {
    hide Counter, Cap;
    var es := Planned(cfg, t, verdict, red);
    if |es| == 4 {
      var next := Decide(Counter(cfg, t), Cap(cfg, t)).next;
      FieldsAfterFix(cfg, t, red, next);
      ApplyPrefix(t, es, 3);
      assert es[..4] == es;
    } else if es != [] {
      ApplyPrefix(t, es, 0);
      assert es[..1] == es && es[..0] == [];
    }
  }

  /** One evaluation of a settled or unsettled suite for a mapped pull request: verdict, routing
      and tracker writes. Label and comment calls are only visible as possible failures of the
      green path after its transition. */
  method EvaluateOnePr(tr: Tracker, cfg: Config, summary: Summary, required: seq<string>, cats: seq<Category>,
                       log: string)
    returns (outcome: Outcome, ghost red: Routing, ghost n: nat)
    requires cats != []
    modifies tr
    ensures Settled(cfg, old(tr.ticket), outcome, red, tr.ticket)
    ensures var verdict := VerdictOf(summary, required);
            var planned := Planned(cfg, old(tr.ticket), verdict, red);
            && Performed(tr, planned, n)
            && (outcome != Failed ==> n == |planned| && outcome == Success(cfg, old(tr.ticket), verdict))
            && (outcome == Failed ==> !tr.reliable && (verdict == Green || n < |planned|))
            && red.log == log
            && exists k :: 0 <= k < |cats| && red.category == cats[k].name && red.target == cats[k].target
                 && if exists j :: 0 <= j < |cats| && Hits(summary.failed, cats[j]) then IsBest(summary.failed, cats, k)
                    else IsDefault(cats, k)
  {
    var k := Categorize(summary.failed, cats);
    red, n := Routing(log, cats[k].name, cats[k].target), 0;
    assert Performed(tr, [], 0);
    PlannedSettles(cfg, tr.ticket, VerdictOf(summary, required), red);
    ghost var planned := Planned(cfg, tr.ticket, VerdictOf(summary, required), red);
    assert planned[..|planned|] == planned;
    hide Settled, ApplyAll;
    if summary.anyPending {
      return WasPending, red, 0;
    }
    if IsGreen(summary, required) {
      if cfg.review.Some? {
        var moved := tr.TransitionIssue(cfg.review.value);
        if !moved {
          return Failed, red, 0;
        }
        n := 1;
        ApplyPrefix(old(tr.ticket), [Moved(cfg.review.value)], 0);
      }
      var labelled := tr.Succeeds();
      outcome := if labelled then WasGreen else Failed;
      return;
    }
    if !RequiredFailed(summary, required) {
      return WasPending, red, 0;
    }
    var d := ReadAndDecide(tr, cfg);
    if d.None? {
      return Failed, red, 0;
    }
    match d.value {
      case Continue(next) =>
        var ok;
        ok, n := ApplyRedBelowCap(tr, cfg, Routing(log, cats[k].name, cats[k].target), next);
        outcome := if ok then WasRed(next) else Failed;
      case CapHit(stayedAt, max) =>
        var ok := tr.TransitionIssue(cfg.blocked);
        ApplyPrefix(old(tr.ticket), [Moved(cfg.blocked)], 0);
        n := if ok then 1 else 0;
        outcome := if ok then WasCapHit(stayedAt, max) else Failed;
    }
  }

  // ---- Whole runs ----------------------------------------------------------

  /** One evaluation in a run. `cut` is where it was cut off, by an error or by a crash: the
      number of tracker writes that took effect; None when it ran to the end. */
  datatype Eval = Eval(verdict: Verdict, red: Routing, cut: Option<nat>)

  datatype Track = Track(ticket: Ticket, history: seq<Effect>, outcomes: seq<Outcome>)

  function Done(cfg: Config, t: Ticket, ev: Eval): seq<Effect> {
    var planned := Planned(cfg, t, ev.verdict, ev.red);
    if ev.cut.Some? && ev.cut.value < |planned| then planned[..ev.cut.value] else planned
  }

  /** Evaluations of one ticket, one after the other. */
  function Run(cfg: Config, t: Ticket, evs: seq<Eval>): Track {
    if evs == [] then Track(t, [], [])
    else
      var r, ev := Run(cfg, t, ButLast(evs)), Last(evs);
      var done := Done(cfg, r.ticket, ev);
      Track(ApplyAll(r.ticket, done), r.history + done,
            r.outcomes + [if ev.cut.Some? then Failed else Success(cfg, r.ticket, ev.verdict)])
  }

  /** The field names under which complete evaluations count right. The counter may share a field
      with the texts, since it is written after them. The override may not share one with a text,
      and with the counter only where the cap leaves no room for two retries: a cap of one is what
      the first retry writes, and one of 2^32 - 1 or more is outside the guarantee anyway. */
  predicate NamesFit(cfg: Config) {
    if cfg.overrideKey == cfg.attemptKey then !(1 < cfg.maxAttempts < U32_MAX)
    else cfg.overrideKey != cfg.logKey && cfg.overrideKey != cfg.categoryKey
  }

  /** The field that overrides the cap is no field the loop writes, and the counter is not one
      of the two text fields. */
  predicate KeysApart(cfg: Config) {
    && cfg.overrideKey != cfg.attemptKey && cfg.overrideKey != cfg.logKey && cfg.overrideKey != cfg.categoryKey
    && cfg.attemptKey != cfg.logKey && cfg.attemptKey != cfg.categoryKey
  }

  /** What one evaluation, complete or cut off, does to the counter and the cap. */
  lemma EvaluationStep(cfg: Config, t: Ticket, ev: Eval)
    requires KeysApart(cfg)
    ensures var t' := ApplyAll(t, Done(cfg, t, ev)); var d := Decide(Counter(cfg, t), Cap(cfg, t));
            && Cap(cfg, t') == Cap(cfg, t)
            && Counter(cfg, t') == if ev.verdict.Red? && d.Continue? && |Done(cfg, t, ev)| >= 3 then d.next
                                   else Counter(cfg, t)
  {
    hide ReadU32;
    var done := Done(cfg, t, ev);
    var d := Decide(Counter(cfg, t), Cap(cfg, t));
    if d.Continue? {
      NumberReads(d.next);
    }
    if |done| >= 1 { ApplyPrefix(t, done, 0); }
    if |done| >= 2 { ApplyPrefix(t, done, 1); }
    if |done| >= 3 { ApplyPrefix(t, done, 2); }
    if |done| >= 4 { ApplyPrefix(t, done, 3); }
    assert done[..|done|] == done && done[..0] == [];
  }

  function RedCount(evs: seq<Eval>): nat {
    if evs == [] then 0 else RedCount(ButLast(evs)) + if Last(evs).verdict.Red? then 1 else 0
  }

  function RedOutcomes(outcomes: seq<Outcome>): seq<Outcome> {
    if outcomes == [] then []
    else RedOutcomes(ButLast(outcomes))
         + if Last(outcomes).WasRed? || Last(outcomes).WasCapHit? then [Last(outcomes)] else []
  }

  /** The red outcome after `i` earlier ones, starting from counter `c0` under cap `m`. */
  function NthRed(c0: nat, m: nat, i: nat): Outcome {
    if c0 + i < m then WasRed(c0 + i + 1) else WasCapHit(Max(c0, m), m)
  }

  function FirstReds(c0: nat, m: nat, k: nat): seq<Outcome> {
    if k == 0 then [] else FirstReds(c0, m, k - 1) + [NthRed(c0, m, k - 1)]
  }

  /** A completed evaluation against counter `c`, cap `m`. */
  lemma CompleteStep(cfg: Config, t: Ticket, ev: Eval)
    requires NamesFit(cfg) && Cap(cfg, t) < U32_MAX && ev.cut.None?
    ensures var t' := ApplyAll(t, Done(cfg, t, ev)); var c, m := Counter(cfg, t), Cap(cfg, t);
            && Cap(cfg, t') == m
            && Counter(cfg, t') == (if ev.verdict.Red? && c < m then c + 1 else c)
            && Success(cfg, t, ev.verdict)
               == (match ev.verdict
                   case Pending => WasPending
                   case Green => WasGreen
                   case Red => if c < m then WasRed(c + 1) else WasCapHit(c, m))
  {
    hide ReadU32;
    var d := Decide(Counter(cfg, t), Cap(cfg, t));
    if ev.verdict.Red? && d.Continue? {
      FieldsAfterFix(cfg, t, ev.red, d.next);
      NumberReads(d.next);
    } else {
      OnlyMoves(t, Done(cfg, t, ev));
    }
  }

  /** The fields after a complete red evaluation below the cap. */
  lemma FieldsAfterFix(cfg: Config, t: Ticket, red: Routing, next: nat)
    ensures ApplyAll(t, FixEffects(cfg, red, next)).fields
         == t.fields[cfg.logKey := Text(red.log)][cfg.categoryKey := Text(red.category)]
                    [cfg.attemptKey := Number(next as real)]
  {
    var es := FixEffects(cfg, red, next);
    ApplyPrefix(t, es, 0);
    ApplyPrefix(t, es, 1);
    ApplyPrefix(t, es, 2);
    ApplyPrefix(t, es, 3);
    assert es[..4] == es && es[..0] == [];
  }

  lemma NumberReads(n: nat)
    requires n <= U32_MAX
    ensures ReadU32(Number(n as real)) == Some(n)
  {
  }

  /** Transitions change no field. */
  lemma OnlyMoves(t: Ticket, es: seq<Effect>)
    requires |es| <= 1 && (es != [] ==> es[0].Moved?)
    ensures ApplyAll(t, es).fields == t.fields
  {
    if es != [] {
      ApplyPrefix(t, es, 0);
      assert es[..1] == es && es[..0] == [];
    }
  }

  lemma RedOutcomesSnoc(outcomes: seq<Outcome>, o: Outcome)
    ensures RedOutcomes(outcomes + [o])
            == if o.WasRed? || o.WasCapHit? then RedOutcomes(outcomes) + [o] else RedOutcomes(outcomes)
  {
    assert ButLast(outcomes + [o]) == outcomes;
  }

  /** What is promised of a run without failures. */
  ghost predicate Exact(cfg: Config, t: Ticket, evs: seq<Eval>) {
    var r := Run(cfg, t, evs); var c0, m := Counter(cfg, t), Cap(cfg, t);
    && Cap(cfg, r.ticket) == m
    && Counter(cfg, r.ticket) == Max(c0, Min(c0 + RedCount(evs), m))
    && RedOutcomes(r.outcomes) == FirstReds(c0, m, RedCount(evs))
  }

  predicate AllComplete(evs: seq<Eval>) {
    forall ev | ev in evs :: ev.cut.None?
  }

  lemma AllButLastComplete(evs: seq<Eval>)
    requires evs != [] && AllComplete(evs)
    ensures AllComplete(ButLast(evs)) && Last(evs).cut.None?
  {
    assert forall e | e in ButLast(evs) :: e in evs;
    assert Last(evs) in evs;
  }

  lemma RunSnoc(cfg: Config, t: Ticket, evs: seq<Eval>)
    requires evs != [] && Last(evs).cut.None?
    ensures var r, r', verdict := Run(cfg, t, ButLast(evs)), Run(cfg, t, evs), Last(evs).verdict;
      && r'.ticket == ApplyAll(r.ticket, Done(cfg, r.ticket, Last(evs)))
      && r'.outcomes == r.outcomes + [Success(cfg, r.ticket, verdict)]
      && RedCount(evs) == RedCount(ButLast(evs)) + if verdict.Red? then 1 else 0
  {
    hide ApplyAll, Done, Success;
  }

  lemma OneMoreRed(c0: nat, m: nat, k: nat)
    ensures var c := Max(c0, Min(c0 + k, m));
      && NthRed(c0, m, k) == (if c < m then WasRed(c + 1) else WasCapHit(c, m))
      && Max(c0, Min(c0 + k + 1, m)) == (if c < m then c + 1 else c)
      && FirstReds(c0, m, k + 1) == FirstReds(c0, m, k) + [NthRed(c0, m, k)]
  {
  }

  lemma NothingExact(cfg: Config, t: Ticket)
    ensures Exact(cfg, t, [])
  {
    hide Counter, Cap, Success, RedOutcomes;
    NoReds();
  }

  lemma ExactStep(cfg: Config, t: Ticket, evs: seq<Eval>)
    requires evs != [] && Exact(cfg, t, ButLast(evs))
    requires NamesFit(cfg) && Cap(cfg, t) < U32_MAX && Last(evs).cut.None?
    ensures Exact(cfg, t, evs)
  {
    hide Counter, Cap, Done, Success, NamesFit, RedOutcomes;
    var prior, ev := ButLast(evs), Last(evs);
    RunSnoc(cfg, t, evs);
    OneMoreRed(Counter(cfg, t), Cap(cfg, t), RedCount(prior));
    hide Run, RedCount, ApplyAll, FirstReds, NthRed, Max, Min;
    var r := Run(cfg, t, prior);
    CompleteStep(cfg, r.ticket, ev);
    RedOutcomesSnoc(r.outcomes, Success(cfg, r.ticket, ev.verdict));
  }

  /** The retry cap over whole runs without failures: the red evaluations get exactly
      `m - c0` retries (none if the counter started at or past the cap), numbered
      consecutively, and hit the cap ever after; greens and pending suites in between change
      neither; the counter ends at `min(c0 + reds, m)`, or where it was if it began past `m`. */
  lemma {:induction false} RetriesAreExact(cfg: Config, t: Ticket, evs: seq<Eval>)
    requires NamesFit(cfg) && Cap(cfg, t) < U32_MAX && AllComplete(evs)
    ensures Exact(cfg, t, evs)
  {
    hide Exact, NamesFit, Cap, AllComplete;
    if evs == [] {
      NothingExact(cfg, t);
    } else {
      AllButLastComplete(evs);
      RetriesAreExact(cfg, t, ButLast(evs));
      ExactStep(cfg, t, evs);
    }
  }

  lemma NoReds()
    ensures RedOutcomes([]) == []
  {
  }

  /** The ticket is sent to a state that is neither the blocked nor the review state. */
  predicate IsFixMove(cfg: Config, e: Effect) {
    e.Moved? && e.state != cfg.blocked && Some(e.state) != cfg.review
  }

  function FixMoves(cfg: Config, history: seq<Effect>): nat {
    if history == [] then 0
    else FixMoves(cfg, ButLast(history)) + if IsFixMove(cfg, Last(history)) then 1 else 0
  }

  /** At position `j` the ticket is moved to the target of `red`, right after the whole context
      of its attempt `a`. */
  predicate MovedInContext(cfg: Config, red: Routing, a: nat, history: seq<Effect>, j: nat)
    requires j < |history|
  {
    && j >= 3 && history[j] == Moved(red.target)
    && history[j - 3] == Wrote(cfg.logKey, Text(red.log))
    && history[j - 2] == Wrote(cfg.categoryKey, Text(red.category))
    && history[j - 1] == Wrote(cfg.attemptKey, Number(a as real))
  }

  /** Each fix move is that of some red evaluation, with an attempt number within the cap. */
  ghost predicate ContextFirst(cfg: Config, evs: seq<Eval>, cap: nat, history: seq<Effect>) {
    forall j :: 0 <= j < |history| && IsFixMove(cfg, history[j]) ==> HasContext(cfg, evs, cap, history, j)
  }

  ghost predicate HasContext(cfg: Config, evs: seq<Eval>, cap: nat, history: seq<Effect>, j: nat)
    requires j < |history|
  {
    exists i: nat, a: nat :: i < |evs| && evs[i].verdict.Red? && 1 <= a <= cap
                             && MovedInContext(cfg, evs[i].red, a, history, j)
  }

  lemma {:induction false} FixMovesConcat(cfg: Config, a: seq<Effect>, b: seq<Effect>)
    ensures FixMoves(cfg, a + b) == FixMoves(cfg, a) + FixMoves(cfg, b)
  {
    hide IsFixMove;
    if b == [] {
      assert a + b == a;
    } else {
      assert ButLast(a + b) == a + ButLast(b) && Last(a + b) == Last(b);
      FixMovesConcat(cfg, a, ButLast(b));
    }
  }

  lemma FixMovesPrefix(cfg: Config, h: seq<Effect>, n: nat)
    requires n < |h|
    ensures FixMoves(cfg, h[..n + 1]) == FixMoves(cfg, h[..n]) + if IsFixMove(cfg, h[n]) then 1 else 0
  {
    assert ButLast(h[..n + 1]) == h[..n] && Last(h[..n + 1]) == h[n];
  }

  /** The fix moves of one evaluation: none, or one right after its context. */
  lemma DoneFixMoves(cfg: Config, t: Ticket, ev: Eval)
    ensures var done, d := Done(cfg, t, ev), Decide(Counter(cfg, t), Cap(cfg, t));
            && FixMoves(cfg, done) == (if ev.verdict.Red? && d.Continue? && |done| == 4
                                          && IsFixMove(cfg, Moved(ev.red.target)) then 1 else 0)
            && ContextFirst(cfg, [ev], Cap(cfg, t), done)
  {
    hide Counter, Cap;
    var done, d := Done(cfg, t, ev), Decide(Counter(cfg, t), Cap(cfg, t));
    if |done| >= 1 { FixMovesPrefix(cfg, done, 0); }
    if |done| >= 2 { FixMovesPrefix(cfg, done, 1); }
    if |done| >= 3 { FixMovesPrefix(cfg, done, 2); }
    if |done| >= 4 { FixMovesPrefix(cfg, done, 3); }
    assert done[..|done|] == done && done[..0] == [];
    forall j | 0 <= j < |done| && IsFixMove(cfg, done[j])
      ensures HasContext(cfg, [ev], Cap(cfg, t), done, j)
    {
      assert j == 3 && MovedInContext(cfg, [ev][0].red, d.next, done, j);
    }
  }

  /** What is promised of a run that may be cut off anywhere. */
  ghost predicate Kept(cfg: Config, t: Ticket, evs: seq<Eval>) {
    var r := Run(cfg, t, evs); var c0, m := Counter(cfg, t), Cap(cfg, t);
    && Cap(cfg, r.ticket) == m
    && c0 <= Counter(cfg, r.ticket) <= Max(c0, m)
    && FixMoves(cfg, r.history) <= Counter(cfg, r.ticket) - c0
    && ContextFirst(cfg, evs, m, r.history)
  }

  lemma ContextFirstConcat(cfg: Config, prior: seq<Eval>, ev: Eval, cap: nat, a: seq<Effect>, b: seq<Effect>)
    requires ContextFirst(cfg, prior, cap, a) && ContextFirst(cfg, [ev], cap, b)
    ensures ContextFirst(cfg, prior + [ev], cap, a + b)
  {
    hide IsFixMove;
    var h, evs := a + b, prior + [ev];
    forall j | 0 <= j < |h| && IsFixMove(cfg, h[j])
      ensures HasContext(cfg, evs, cap, h, j)
    {
      if j < |a| {
        assert HasContext(cfg, prior, cap, a, j);
        var i: nat, n: nat :| i < |prior| && prior[i].verdict.Red? && 1 <= n <= cap
                              && MovedInContext(cfg, prior[i].red, n, a, j);
        assert MovedInContext(cfg, evs[i].red, n, h, j);
      } else {
        assert HasContext(cfg, [ev], cap, b, j - |a|);
        var i: nat, n: nat :| i < |[ev]| && [ev][i].verdict.Red? && 1 <= n <= cap
                              && MovedInContext(cfg, [ev][i].red, n, b, j - |a|);
        assert MovedInContext(cfg, evs[|prior|].red, n, h, j);
      }
    }
  }

  lemma NothingKept(cfg: Config, t: Ticket)
    ensures Kept(cfg, t, [])
  {
    hide Counter, Cap;
  }

  lemma RunSteps(cfg: Config, t: Ticket, evs: seq<Eval>)
    requires evs != []
    ensures var r, r' := Run(cfg, t, ButLast(evs)), Run(cfg, t, evs);
      && r'.ticket == ApplyAll(r.ticket, Done(cfg, r.ticket, Last(evs)))
      && r'.history == r.history + Done(cfg, r.ticket, Last(evs))
  {
    hide ApplyAll, Done, Success;
  }

  lemma KeptStep(cfg: Config, t: Ticket, evs: seq<Eval>)
    requires evs != [] && Kept(cfg, t, ButLast(evs)) && KeysApart(cfg) && Cap(cfg, t) < U32_MAX
    ensures Kept(cfg, t, evs)
  {
    hide Run, Counter, Cap, ApplyAll, Done, KeysApart, ContextFirst, IsFixMove, FixMoves;
    var prior, ev := ButLast(evs), Last(evs);
    var r := Run(cfg, t, prior);
    var done := Done(cfg, r.ticket, ev);
    RunSteps(cfg, t, evs);
    EvaluationStep(cfg, r.ticket, ev);
    DoneFixMoves(cfg, r.ticket, ev);
    FixMovesConcat(cfg, r.history, done);
    ContextFirstConcat(cfg, prior, ev, Cap(cfg, t), r.history, done);
    assert prior + [ev] == evs;
  }

  /** At every crash or error point of every run: the counter stays between its start and the
      cap; moves to any state but the blocked and the review state number at most the counter's
      growth; and each of them is to the target of a red evaluation, right after its log, its
      category and an attempt number within the cap have been written. */
  lemma {:induction false} CrashesKeepTheCap(cfg: Config, t: Ticket, evs: seq<Eval>)
    requires KeysApart(cfg) && Cap(cfg, t) < U32_MAX
    ensures Kept(cfg, t, evs)
  {
    hide Kept, KeysApart, Cap;
    if evs == [] {
      NothingKept(cfg, t);
    } else {
      CrashesKeepTheCap(cfg, t, ButLast(evs));
      KeptStep(cfg, t, evs);
    }
  }

  // ---- Where the guarantees end ---------------------------------------------

  /** A ticket with a cap of five of its own, and no attempts yet. */
  function Capped(cfg: Config): Ticket {
    Ticket(map[cfg.overrideKey := Number(5.0)], "")
  }

  lemma DigitReads(c: char)
    requires IsDigit(c)
    ensures ReadU32(Text([c])) == Some(c as int - '0' as int)
  {
    assert ButLast([c]) == [];
    assert DigitsValue([c]) == DigitsValue([]) * 10 + (c as int - '0' as int);
    if c == '+' {
      assert false;
    }
    assert forall d | d in [c] :: d == c;
  }

  lemma CappedAtFive(cfg: Config)
    requires cfg.overrideKey != cfg.attemptKey
    ensures Cap(cfg, Capped(cfg)) == 5 && Counter(cfg, Capped(cfg)) == 0
  {
    NumberReads(5);
  }

  function RedOf(text: string, cut: Option<nat>): Eval {
    Eval(Red, Routing(text, text, ""), cut)
  }

  lemma RunOfOne(cfg: Config, t: Ticket, ev: Eval)
    ensures Run(cfg, t, [ev]).ticket == ApplyAll(t, Done(cfg, t, ev))
    ensures Run(cfg, t, [ev]).outcomes == [if ev.cut.Some? then Failed else Success(cfg, t, ev.verdict)]
  {
    assert ButLast([ev]) == [] && Last([ev]) == ev;
  }

  /** With the override kept in a text field, a text of digits becomes the cap. */
  lemma TextBecomesCap(cfg: Config)
    requires cfg.overrideKey != cfg.attemptKey
    requires cfg.overrideKey == cfg.logKey || cfg.overrideKey == cfg.categoryKey
    ensures Cap(cfg, Capped(cfg)) == 5 && Cap(cfg, Run(cfg, Capped(cfg), [RedOf("7", None)]).ticket) == 7
  {
    hide ReadU32;
    var t, ev := Capped(cfg), RedOf("7", None);
    CappedAtFive(cfg);
    RunOfOne(cfg, t, ev);
    FieldsAfterFix(cfg, t, ev.red, 1);
    DigitReads('7');
  }

  /** With the counter kept in the override field, the first retry already caps the ticket. */
  lemma SharedKeyCapsAtOne(cfg: Config)
    requires cfg.overrideKey == cfg.attemptKey && 1 < cfg.maxAttempts < U32_MAX
    ensures Cap(cfg, Ticket(map[], "")) == cfg.maxAttempts
    ensures Cap(cfg, Run(cfg, Ticket(map[], ""), [RedOf("", None)]).ticket) == 1
  {
    var t, ev := Ticket(map[], ""), RedOf("", None);
    RunOfOne(cfg, t, ev);
    FieldsAfterFix(cfg, t, ev.red, 1);
    NumberReads(1);
  }

  /** Exactly which coincidences of the four field names break the exact count. */
  lemma NamesThatCount(cfg: Config)
    ensures NamesFit(cfg) <==> forall t, evs | Cap(cfg, t) < U32_MAX && AllComplete(evs) :: Exact(cfg, t, evs)
  {
    hide Exact, NamesFit, Run, ReadU32;
    if NamesFit(cfg) {
      forall t, evs | Cap(cfg, t) < U32_MAX && AllComplete(evs)
        ensures Exact(cfg, t, evs)
      {
        RetriesAreExact(cfg, t, evs);
      }
    } else {
      MisfitBreaks(cfg);
    }
  }

  lemma MisfitBreaks(cfg: Config)
    requires !NamesFit(cfg)
    ensures exists t, evs :: Cap(cfg, t) < U32_MAX && AllComplete(evs) && !Exact(cfg, t, evs)
  {
    hide Run, RedOutcomes, FirstReds, Cap, Counter;
    if cfg.overrideKey == cfg.attemptKey {
      SharedKeyCapsAtOne(cfg);
      var t, evs := Ticket(map[], ""), [RedOf("", None)];
      assert AllComplete(evs) && !Exact(cfg, t, evs);
    } else {
      TextBecomesCap(cfg);
      var t, evs := Capped(cfg), [RedOf("7", None)];
      assert AllComplete(evs) && !Exact(cfg, t, evs);
    }
  }

  /** With the counter kept in a text field, an evaluation cut off right after that text has
      been written leaves a counter that nobody counted. */
  lemma TextBecomesCounter(cfg: Config)
    requires cfg.overrideKey != cfg.attemptKey
    requires cfg.attemptKey == cfg.logKey || cfg.attemptKey == cfg.categoryKey
    ensures Cap(cfg, Capped(cfg)) == 5
    ensures Counter(cfg, Run(cfg, Capped(cfg), [RedOf("9", Some(2))]).ticket) == 9
  {
    hide ReadU32;
    var t, ev := Capped(cfg), RedOf("9", Some(2));
    CappedAtFive(cfg);
    RunOfOne(cfg, t, ev);
    var es := FixEffects(cfg, ev.red, 1);
    assert Done(cfg, t, ev) == es[..2];
    ApplyPrefix(t, es, 0);
    ApplyPrefix(t, es, 1);
    assert es[..0] == [];
    DigitReads('9');
  }

  /** For a configured cap that leaves room for two retries: the guarantee for runs that are cut
      off needs the names apart, and nothing else of them. */
  lemma NamesThatSurviveCrashes(cfg: Config)
    requires 1 < cfg.maxAttempts < U32_MAX
    ensures KeysApart(cfg) <==> forall t, evs | Cap(cfg, t) < U32_MAX :: Kept(cfg, t, evs)
  {
    hide Kept, KeysApart, Run, ReadU32;
    if KeysApart(cfg) {
      forall t, evs | Cap(cfg, t) < U32_MAX
        ensures Kept(cfg, t, evs)
      {
        CrashesKeepTheCap(cfg, t, evs);
      }
    } else {
      SharedNameBreaks(cfg);
    }
  }

  lemma SharedNameBreaks(cfg: Config)
    requires 1 < cfg.maxAttempts < U32_MAX && !KeysApart(cfg)
    ensures exists t, evs :: Cap(cfg, t) < U32_MAX && !Kept(cfg, t, evs)
  {
    hide Run, FixMoves, ContextFirst, Cap, Counter;
    if cfg.overrideKey == cfg.attemptKey {
      SharedKeyCapsAtOne(cfg);
      assert !Kept(cfg, Ticket(map[], ""), [RedOf("", None)]);
    } else if cfg.attemptKey == cfg.logKey || cfg.attemptKey == cfg.categoryKey {
      TextBecomesCounter(cfg);
      CappedAtFive(cfg);
      assert !Kept(cfg, Capped(cfg), [RedOf("9", Some(2))]);
    } else {
      TextBecomesCap(cfg);
      assert !Kept(cfg, Capped(cfg), [RedOf("7", None)]);
    }
  }

  /** Two evaluations that both read the counter before either writes it make two fix
      transitions for one counter step. */
  lemma OverlappingRedsShareAnAttempt(cfg: Config, t: Ticket, red: Routing)
    requires KeysApart(cfg) && Counter(cfg, t) < Cap(cfg, t) <= U32_MAX
    ensures var es := Planned(cfg, t, Red, red);
            && Counter(cfg, ApplyAll(ApplyAll(t, es), es)) == Counter(cfg, t) + 1
            && |es| == 4 && es[3] == Moved(red.target)
            && FixMoves(cfg, es + es) == if IsFixMove(cfg, Moved(red.target)) then 2 else 0
  {
    var ev := Eval(Red, red, None);
    var es := Done(cfg, t, ev);
    assert Planned(cfg, t, Red, red) == es;
    DoneFixMoves(cfg, t, ev);
    FixMovesConcat(cfg, es, es);
    CountAfterFix(cfg, ApplyAll(t, es), red, Counter(cfg, t) + 1);
  }

  lemma CountAfterFix(cfg: Config, t: Ticket, red: Routing, next: nat)
    requires next <= U32_MAX
    ensures Counter(cfg, ApplyAll(t, FixEffects(cfg, red, next))) == next
  {
    FieldsAfterFix(cfg, t, red, next);
    NumberReads(next);
  }
}
