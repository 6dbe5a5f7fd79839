/** Flushes of a budget in flight: any number of them at once, their tracker writes in any order
    and possibly refused, with sessions reported in between. */
module BudgetFlights {
  import opened Prelude
  import opened Budget

  /** What a flush still has to write. */
  datatype Stage = ToTokens | ToCost | Ended

  /** A flush that took totals out of a ticket, after so many acts of the run. */
  datatype Flight = Flight(id: string, takenAt: nat, totals: Flushed, stage: Stage)

  /** The single acts of sessions and flushes. `k` numbers the flushes that found something
      pending; `ok` says whether the tracker takes the write. */
  datatype Act =
    | Reports(s: Session)
    | Begins(id: string)
    | PutsTokens(k: nat, ok: bool)
    | PutsCost(k: nat, ok: bool)

  datatype State = State(books: Books, flights: seq<Flight>)

  const START: State := State(EMPTY, [])

  predicate Writes(s: State, act: Act, k: nat, stage: Stage) {
    (act.PutsTokens? || act.PutsCost?) && act.k == k && k < |s.flights| && s.flights[k].stage == stage
  }

  /** A tokens write the tracker takes. */
  predicate TokensTaken(s: State, act: Act) {
    act.PutsTokens? && act.ok && Writes(s, act, act.k, ToTokens)
  }

  predicate CostTaken(s: State, act: Act) {
    act.PutsCost? && act.ok && Writes(s, act, act.k, ToCost)
  }

  function Shown(b: Books, id: string, fields: Fields): Books {
    b.(tracker := b.tracker[id := fields])
  }

  /** A refused tokens write ends its flush; an act that is not due does nothing. */
  function Do(s: State, act: Act, now: nat): State {
    match act
    case Reports(x) => s.(books := Reported(s.books, x))
    case Begins(id) =>
      var a := TicketOf(s.books, id);
      if HasPending(a) then State(Taken(s.books, id), s.flights + [Flight(id, now, TakeOut(a), ToTokens)]) else s
    case PutsTokens(k, ok) =>
      if !Writes(s, act, k, ToTokens) then s
      else
        var f := s.flights[k];
        if !ok then s.(flights := s.flights[k := f.(stage := Ended)])
        else State(Shown(s.books, f.id, FieldsOf(s.books, f.id).(tokens := Some(f.totals.tokensTotal))),
                   s.flights[k := f.(stage := ToCost)])
    case PutsCost(k, ok) =>
      if !Writes(s, act, k, ToCost) then s
      else
        var f := s.flights[k];
        State(if ok
              then Shown(s.books, f.id, FieldsOf(s.books, f.id).(cost := Some(RoundDp4(f.totals.costTotal))))
              else s.books,
              s.flights[k := f.(stage := Ended)])
  }

  function Exec(acts: seq<Act>): State {
    if acts == [] then START else Do(Exec(ButLast(acts)), Last(acts), |acts| - 1)
  }

  // ---- Accumulators --------------------------------------------------------

  /** The same run without its tracker writes. */
  function OpsOf(acts: seq<Act>): seq<Op> {
    if acts == [] then []
    else match Last(acts)
      case Reports(s) => OpsOf(ButLast(acts)) + [Report(s)]
      case Begins(id) => OpsOf(ButLast(acts)) + [Flush(id, false, false)]
      case _ => OpsOf(ButLast(acts))
  }

  /** The accumulators do not depend on the tracker writes, so all that is proved of them for
      flushes that do not overlap holds here. */
  lemma {:induction false} AccumulatorsIgnoreWrites(acts: seq<Act>)
    ensures Exec(acts).books.tickets == Run(OpsOf(acts)).tickets
    decreases |acts|
  {
    hide AddSession, TakeOut, RoundDp4, HasPending, Cleared;
    if acts != [] {
      AccumulatorsIgnoreWrites(ButLast(acts));
      var ops := OpsOf(ButLast(acts));
      match Last(acts) {
        case Reports(s) => assert ButLast(ops + [Report(s)]) == ops;
        case Begins(id) => assert ButLast(ops + [Flush(id, false, false)]) == ops;
        case _ =>
      }
    }
  }

  function Tokens(acts: seq<Act>, id: string): nat {
    TokenSum(OpsOf(acts), id)
  }

  function Cost(acts: seq<Act>, id: string): real {
    CostSum(OpsOf(acts), id)
  }

  /** The running totals, in every interleaving. */
  lemma Running(acts: seq<Act>, id: string)
    ensures TicketOf(Exec(acts).books, id).runningTokens == Min(Tokens(acts, id), U64_MAX)
    ensures TicketOf(Exec(acts).books, id).runningCost == Cost(acts, id)
  {
    hide Exec, Run, OpsOf, TokenSum, CostSum;
    AccumulatorsIgnoreWrites(acts);
    RunningTotals(OpsOf(acts), id);
  }

  // ---- What flights carry --------------------------------------------------

  predicate CarriesTotals(f: Flight, acts: seq<Act>) {
    && f.takenAt <= |acts|
    && f.totals.tokensTotal == Min(Tokens(acts[..f.takenAt], f.id), U64_MAX)
    && f.totals.costTotal == Cost(acts[..f.takenAt], f.id)
  }

  lemma {:induction false} FlightsCarryTotals(acts: seq<Act>)
    ensures forall f | f in Exec(acts).flights :: CarriesTotals(f, acts)
    decreases |acts|
  {
    hide Tokens, Cost, RoundDp4, Reported, Taken;
    if acts != [] {
      var front, s := ButLast(acts), Exec(ButLast(acts));
      FlightsCarryTotals(front);
      forall f | f in Exec(acts).flights
        ensures CarriesTotals(f, acts)
      {
        if Last(acts).Begins? && f == Last(Exec(acts).flights) && |Exec(acts).flights| > |s.flights| {
          Running(front, f.id);
          assert acts[..|front|] == front;
        } else {
          var g := OldFlight(s, Last(acts), |front|, f);
          assert acts[..g.takenAt] == front[..g.takenAt];
        }
      }
    }
  }

  /** A flight that did not begin just now was there, with the same totals. */
  lemma OldFlight(s: State, act: Act, now: nat, f: Flight) returns (g: Flight)
    requires f in Do(s, act, now).flights
    requires !(act.Begins? && |Do(s, act, now).flights| > |s.flights| && f == Last(Do(s, act, now).flights))
    ensures g in s.flights && g.id == f.id && g.takenAt == f.takenAt && g.totals == f.totals
  {
    hide RoundDp4, Reported, Taken, TakeOut;
    var k :| 0 <= k < |Do(s, act, now).flights| && Do(s, act, now).flights[k] == f;
    g := s.flights[k];
  }

  // ---- What the tracker shows ----------------------------------------------

  /** When the totals were taken that the last accepted tokens write of a ticket carried. */
  function TokensTakenAt(acts: seq<Act>, id: string): Option<nat> {
    if acts == [] then None
    else
      var s := Exec(ButLast(acts));
      if TokensTaken(s, Last(acts)) && s.flights[Last(acts).k].id == id then Some(s.flights[Last(acts).k].takenAt)
      else TokensTakenAt(ButLast(acts), id)
  }

  function CostTakenAt(acts: seq<Act>, id: string): Option<nat> {
    if acts == [] then None
    else
      var s := Exec(ButLast(acts));
      if CostTaken(s, Last(acts)) && s.flights[Last(acts).k].id == id then Some(s.flights[Last(acts).k].takenAt)
      else CostTakenAt(ButLast(acts), id)
  }

  /** What one act does to the fields of a ticket. */
  lemma FieldsStep(s: State, act: Act, now: nat, id: string)
    ensures var was, shown := FieldsOf(s.books, id), FieldsOf(Do(s, act, now).books, id);
      && shown.tokens == (if TokensTaken(s, act) && s.flights[act.k].id == id
                       then Some(s.flights[act.k].totals.tokensTotal)
                       else was.tokens)
      && shown.cost == (if CostTaken(s, act) && s.flights[act.k].id == id
                     then Some(RoundDp4(s.flights[act.k].totals.costTotal))
                     else was.cost)
  {
    hide RoundDp4, AddSession, TakeOut;
  }

  /** In every interleaving of any number of flushes, each field of a ticket shows the total at
      the moment from which its last accepted write carried one, and nothing if there was none. */
  lemma {:induction false} TrackerShows(acts: seq<Act>, id: string)
    ensures var shown, t, u := FieldsOf(Exec(acts).books, id), TokensTakenAt(acts, id), CostTakenAt(acts, id);
      && (t.Some? ==> t.value <= |acts|) && (u.Some? ==> u.value <= |acts|)
      && shown.tokens == (if t.None? then None else Some(Min(Tokens(acts[..t.value], id), U64_MAX)))
      && shown.cost == (if u.None? then None else Some(RoundDp4(Cost(acts[..u.value], id))))
    decreases |acts|
  {
    hide Tokens, Cost, RoundDp4, Do, TokensTaken, CostTaken;
    if acts != [] {
      var front, s, act := ButLast(acts), Exec(ButLast(acts)), Last(acts);
      TrackerShows(front, id);
      FieldsStep(s, act, |front|, id);
      FlightsCarryTotals(front);
      assert forall t | 0 <= t <= |front| :: acts[..t] == front[..t];
      PutsKnownFlight(s, act);
    }
  }

  lemma PutsKnownFlight(s: State, act: Act)
    ensures TokensTaken(s, act) || CostTaken(s, act) ==> act.k < |s.flights| && s.flights[act.k] in s.flights
  {
  }

  /** The sums grow with the sessions reported later. */
  lemma {:induction false} TokensSince(acts: seq<Act>, t: nat, id: string)
    requires t <= |acts|
    ensures Tokens(acts, id) == Tokens(acts[..t], id) + Tokens(acts[t..], id)
    ensures Cost(acts, id) == Cost(acts[..t], id) + Cost(acts[t..], id)
    decreases |acts|
  {
    if t == |acts| {
      assert acts[..t] == acts && acts[t..] == [];
    } else {
      var front := ButLast(acts);
      TokensSince(front, t, id);
      assert acts[..t] == front[..t] && ButLast(acts[t..]) == front[t..] && Last(acts[t..]) == Last(acts);
      SumSnoc(front, Last(acts), id);
      SumSnoc(front[t..], Last(acts), id);
      assert front + [Last(acts)] == acts && front[t..] + [Last(acts)] == acts[t..];
    }
  }

  lemma SumSnoc(acts: seq<Act>, act: Act, id: string)
    ensures Tokens(acts + [act], id)
         == Tokens(acts, id) + if act.Reports? && act.s.id == id then act.s.input + act.s.output else 0
    ensures Cost(acts + [act], id) == Cost(acts, id) + if act.Reports? && act.s.id == id then act.s.cost else 0.0
  {
    assert ButLast(acts + [act]) == acts && Last(acts + [act]) == act;
    var ops := OpsOf(acts);
    match act {
      case Reports(s) => assert ButLast(ops + [Report(s)]) == ops;
      case Begins(i) => assert ButLast(ops + [Flush(i, false, false)]) == ops;
      case _ =>
    }
  }

  /** Exactly when the tracker shows the running totals of a ticket, in every interleaving of any
      number of flushes. For the tokens: there was an accepted write, and since its totals were
      taken no more tokens were reported, or the total was already as large as it can get. For
      the cost: there was an accepted write, and what was reported since does not show in four
      decimal places. */
  lemma UpToDateIff(acts: seq<Act>, id: string)
    ensures var b, t, u := Exec(acts).books, TokensTakenAt(acts, id), CostTakenAt(acts, id);
      && (t.Some? ==> t.value <= |acts|) && (u.Some? ==> u.value <= |acts|)
      && (FieldsOf(b, id).tokens == Some(TicketOf(b, id).runningTokens)
          <==> t.Some? && (Tokens(acts[t.value..], id) == 0 || Tokens(acts[..t.value], id) >= U64_MAX))
      && (FieldsOf(b, id).cost == Some(RoundDp4(TicketOf(b, id).runningCost))
          <==> u.Some? && RoundDp4(Cost(acts[..u.value], id))
                         == RoundDp4(Cost(acts[..u.value], id) + Cost(acts[u.value..], id)))
  {
    hide Exec, Tokens, Cost, RoundDp4, TokensTakenAt, CostTakenAt, TicketOf, FieldsOf;
    var t, u := TokensTakenAt(acts, id), CostTakenAt(acts, id);
    TrackerShows(acts, id);
    Running(acts, id);
    if t.Some? {
      TokensSince(acts, t.value, id);
    }
    if u.Some? {
      TokensSince(acts, u.value, id);
    }
  }

  predicate NoneReported(acts: seq<Act>, id: string) {
    forall i :: 0 <= i < |acts| && acts[i].Reports? ==> acts[i].s.id != id
  }

  lemma {:induction false} NothingToShow(acts: seq<Act>, id: string)
    ensures NoneReported(acts, id) ==> Tokens(acts, id) == 0 && Cost(acts, id) == 0.0
    ensures Tokens(acts, id) == 0
              && (forall i :: 0 <= i < |acts| && acts[i].Reports? ==> acts[i].s.input + acts[i].s.output > 0)
            ==> NoneReported(acts, id)
    decreases |acts|
  {
    hide Tokens, Cost;
    if acts == [] {
      NoSums(id);
    } else {
      var front := ButLast(acts);
      NothingToShow(front, id);
      assert front + [Last(acts)] == acts;
      SumSnoc(front, Last(acts), id);
    }
  }

  lemma NoSums(id: string)
    ensures Tokens([], id) == 0 && Cost([], id) == 0.0
  {
  }

  /** Put plainly: a last accepted write with totals from after the last reported session is all
      it takes, and, for sessions that used tokens and a total that fits 64 bits, it is needed. */
  lemma LastWriteAfterLastSession(acts: seq<Act>, id: string)
    ensures var b, t, u := Exec(acts).books, TokensTakenAt(acts, id), CostTakenAt(acts, id);
      && (t.Some? ==> t.value <= |acts|) && (u.Some? ==> u.value <= |acts|)
      && (t.Some? && u.Some? && NoneReported(acts[t.value..], id) && NoneReported(acts[u.value..], id) ==>
            UpToDate(b, id))
      && (Tokens(acts, id) < U64_MAX
          && (forall i :: 0 <= i < |acts| && acts[i].Reports? ==> acts[i].s.input + acts[i].s.output > 0) ==>
            (FieldsOf(b, id).tokens == Some(TicketOf(b, id).runningTokens)
             <==> t.Some? && NoneReported(acts[t.value..], id)))
  {
    hide Exec, Tokens, Cost, RoundDp4, TokensTakenAt, CostTakenAt, TicketOf, FieldsOf, NoneReported;
    var t, u := TokensTakenAt(acts, id), CostTakenAt(acts, id);
    UpToDateIff(acts, id);
    if t.Some? {
      NothingToShow(acts[t.value..], id);
      TokensSince(acts, t.value, id);
    }
    if u.Some? {
      NothingToShow(acts[u.value..], id);
      assert Cost(acts[..u.value], id) + 0.0 == Cost(acts[..u.value], id);
    }
    FieldsArePair(Exec(acts).books, id);
  }

  lemma FieldsArePair(b: Books, id: string)
    ensures UpToDate(b, id) <==> FieldsOf(b, id).tokens == Some(TicketOf(b, id).runningTokens)
                                 && FieldsOf(b, id).cost == Some(RoundDp4(TicketOf(b, id).runningCost))
  {
    hide RoundDp4, TicketOf, FieldsOf;
  }

  /** A flush that nothing overlaps is these acts one after the other. */
  lemma WholeFlush(s: State, id: string, ok1: bool, ok2: bool, now: nat)
    requires HasPending(TicketOf(s.books, id))
    ensures var k := |s.flights|;
      var s1 := Do(s, Begins(id), now);
      var s2 := Do(s1, PutsTokens(k, ok1), now + 1);
      var s3 := Do(s2, PutsCost(k, ok2), now + 2);
      s3.books == Step(s.books, Flush(id, ok1, ok2)) && s3.flights[k].stage == Ended
  {
    hide RoundDp4, AddSession, TakeOut, HasPending, Cleared;
  }

  /** Two overlapping flushes of a ticket whose writes cross: the tracker is left with what the
      first one took, behind by all that was reported between the two. */
  lemma CrossedFlushesRegress(s: State, id: string, x: Session, now: nat)
    requires HasPending(TicketOf(s.books, id)) && x.id == id && x.input > 0
    ensures var k := |s.flights|;
      var s1 := Do(Do(Do(s, Begins(id), now), Reports(x), now + 1), Begins(id), now + 2);
      var s2 := Do(Do(s1, PutsTokens(k + 1, true), now + 3), PutsTokens(k, true), now + 4);
      && FieldsOf(s2.books, id).tokens == Some(TicketOf(s.books, id).runningTokens)
      && TicketOf(s2.books, id).runningTokens == SatAdd(TicketOf(s.books, id).runningTokens, SatAdd(x.input, x.output))
  {
    hide RoundDp4;
    var s0 := Do(s, Begins(id), now);
    var s1 := Do(Do(s0, Reports(x), now + 1), Begins(id), now + 2);
    assert |s1.flights| == |s.flights| + 2;
    var s2 := Do(s1, PutsTokens(|s.flights| + 1, true), now + 3);
    FieldsStep(s2, PutsTokens(|s.flights|, true), now + 4, id);
  }
}
