/** The update budget: how a row's `attempt` counts the branch updates GitHub accepted.
    The count is exact while calls do not overlap; overlapping kicks can overspend it. */
module LandingCycles {
  import opened Prelude
  import opened CheckGate
  import opened Storage
  import opened LandingProgram

  // ---- Counting in the log ------------------------------------------------

  predicate AcceptedFor(e: Event, key: Key) {
    e.BranchUpdated? && e.key == key && e.outcome == Some(Accepted)
  }

  /** GitHub took the update, but the caller got an error. */
  predicate LostFor(e: Event, key: Key) {
    e.UpdateLost? && e.key == key
  }

  predicate UpdatedFor(e: Event, key: Key) {
    AcceptedFor(e, key) || LostFor(e, key)
  }

  /** The last logged effect put a new row for `key` in the queue. */
  predicate EntersQueue(log: seq<Logged>, key: Key)
    requires log != []
  {
    Last(log).event.RowInserted? && Last(log).event.ok && Last(log).event.key == key
    && key !in Replay(ButLast(log))
  }

  /** The last logged effect is an update of `key` whose answer was lost, or a crash or a failed
      store write of a call whose effect before that was an accepted update of `key`: the update
      happened but will not be recorded. */
  predicate LosesRecord(log: seq<Logged>, key: Key)
    requires log != []
  {
    var own := Own(ButLast(log), Last(log).tid);
    || LostFor(Last(log).event, key)
    || (FailsToRecord(Last(log).event) && own != [] && AcceptedFor(Last(own), key))
  }

  /** Updates of the branch of `key` that GitHub took since it last entered the queue. */
  function AcceptedCount(log: seq<Logged>, key: Key): nat {
    if log == [] || EntersQueue(log, key) then 0
    else AcceptedCount(ButLast(log), key) + if UpdatedFor(Last(log).event, key) then 1 else 0
  }

  /** Those of them whose answer or record was lost. */
  function LostCount(log: seq<Logged>, key: Key): nat {
    if log == [] || EntersQueue(log, key) then 0
    else LostCount(ButLast(log), key) + if LosesRecord(log, key) then 1 else 0
  }

  // ---- Runs in which calls do not overlap ---------------------------------

  predicate Quiet(t: Thread) {
    t.pc.Idle? || t.pc.Stopped?
  }

  ghost predicate AllQuiet(s: State) {
    forall tid :: Quiet(ThreadOf(s, tid))
  }

  /** A call starts only when no other call is under way. */
  ghost predicate Serial(cfg: Config, run: seq<Move>) {
    run == []
    || (Serial(cfg, ButLast(run)) && Exec(cfg, ButLast(run)).Some?
        && (Last(run).Act? && Last(run).event.Called? ==> AllQuiet(Exec(cfg, ButLast(run)).value)))
  }

  /** One accepted update is not recorded yet: the call stands right before its store write. */
  function Owed(t: Thread, key: Key): nat {
    if t.pc.Settle? && t.pc.status == Updating && t.pc.l.key == key then 1 else 0
  }

  /** The queue still holds `l` with the attempt count that the call read. */
  predicate Holds(rows: Table, l: Landing) {
    l.key in rows && rows[l.key].attempt == l.row.attempt
  }

  predicate Covers(rows: Table, todo: seq<Landing>) {
    && (forall i :: 0 <= i < |todo| ==> Holds(rows, todo[i]))
    && (forall i, j :: 0 <= i < j < |todo| ==> todo[i].key != todo[j].key)
  }

  /** What the one running call believes about the queue is true. */
  predicate Believes(cfg: Config, rows: Table, pc: Pc) {
    match pc
    case SweepRead(todo) => Covers(rows, todo)
    case SweepDrop(todo) => Covers(rows, todo)
    case SweepRearm(todo, _) => Covers(rows, todo)
    case ReadPr(l) => Holds(rows, l)
    case UpdateBranch(l, _) => Holds(rows, l) && l.row.attempt < cfg.maxCycles
    case ReadChecks(l, _) => Holds(rows, l)
    case MarkMerging(l, _) => Holds(rows, l)
    case CallMerge(l, _) => Holds(rows, l)
    case Settle(l, status, _, attempt) =>
      Holds(rows, l) && if status == Updating then l.row.attempt < cfg.maxCycles && attempt == l.row.attempt + 1
                        else attempt == l.row.attempt
    case _ => true
  }

  predicate Balanced(s: State, t: Thread, key: Key)
    requires key in s.rows
  {
    s.rows[key].attempt + LostCount(s.log, key) + Owed(t, key) == AcceptedCount(s.log, key)
  }

  /** Only `a` may be running, it knows the queue, and every row's account is balanced. */
  ghost predicate Account(cfg: Config, s: State, a: nat) {
    && (forall tid | tid != a :: Quiet(ThreadOf(s, tid)))
    && Believes(cfg, s.rows, ThreadOf(s, a).pc)
    && forall key | key in s.rows :: s.rows[key].attempt <= cfg.maxCycles && Balanced(s, ThreadOf(s, a), key)
  }

  // ---- One step -----------------------------------------------------------

  /** A call owes a record exactly right after an accepted update. */
  lemma OwedMeansAccepted(cfg: Config, t: Thread, e: Event, key: Key)
    requires Advance(cfg, t, e).Some?
    ensures (Owed(Advance(cfg, t, e).value, key) == 1) == AcceptedFor(e, key)
  {
    hide IsGreen, Classify, ReposOf;
  }

  lemma {:induction false} OwedShowsInLog(cfg: Config, run: seq<Move>, tid: nat, key: Key)
    requires Exec(cfg, run).Some?
    ensures var s := Exec(cfg, run).value; var own := Own(s.log, tid);
            (Owed(ThreadOf(s, tid), key) == 1) == (own != [] && AcceptedFor(Last(own), key))
  {
    hide Advance, Enabled, Step, Own, ThreadOf;
    if run == [] {
      InitiallyFresh(cfg, tid);
      NoEventsYet(tid);
    } else {
      OwedShowsInLog(cfg, ButLast(run), tid, key);
      var s, move := Exec(cfg, ButLast(run)).value, Last(run);
      StepThreads(cfg, s, move, tid);
      if move.Act? {
        OwnSnoc(s.log, Logged(move.tid, move.event), tid);
        if tid == move.tid {
          ActorAdvances(cfg, s, move);
          OwedMeansAccepted(cfg, ThreadOf(s, tid), move.event, key);
        }
      }
    }
  }

  lemma NoEventsYet(tid: nat)
    ensures Own(Initial.log, tid) == []
  {
  }

  /** How the two counts move with one more logged effect. */
  lemma CountsSnoc(log: seq<Logged>, x: Logged, key: Key)
    ensures var enters := Approving(x.event, key) && key !in Replay(log);
            var own := Own(log, x.tid);
            var loses := LostFor(x.event, key) || (FailsToRecord(x.event) && own != [] && AcceptedFor(Last(own), key));
            && AcceptedCount(log + [x], key)
               == (if enters then 0 else AcceptedCount(log, key) + if UpdatedFor(x.event, key) then 1 else 0)
            && LostCount(log + [x], key)
               == (if enters then 0 else LostCount(log, key) + if loses then 1 else 0)
  {
    var log' := log + [x];
    assert ButLast(log') == log && Last(log') == x;
  }

  predicate Approving(e: Event, key: Key) {
    e.RowInserted? && e.ok && e.key == key
  }

  predicate FailsToRecord(e: Event) {
    e.Crashed? || (e.RowAdvanced? && !e.ok)
  }

  /** What a step of the running call does to one row and to the debt for it. */
  predicate RowMoves(cfg: Config, rows: Table, t: Thread, e: Event, key: Key)
    requires Advance(cfg, t, e).Some? && key in OnTable(rows, e)
  {
    var t', rows' := Advance(cfg, t, e).value, OnTable(rows, e);
    && rows'[key].attempt <= cfg.maxCycles
    && (key !in rows ==> Approving(e, key) && rows'[key].attempt == 0 && Owed(t', key) == 0)
    && (key in rows ==>
          rows'[key].attempt + Owed(t', key)
          + (if LostFor(e, key) || (FailsToRecord(e) && Owed(t, key) == 1) then 1 else 0)
          == rows[key].attempt + Owed(t, key) + if UpdatedFor(e, key) then 1 else 0)
  }

  predicate InKick(pc: Pc) {
    !pc.Idle? && !pc.Stopped? && !InEntry(pc) && !InSweep(pc) && !InPark(pc)
  }

  predicate Writing(pc: Pc) {
    pc.Settle? || pc.MarkMerging? || pc.Drop?
  }

  lemma RowStepWriting(cfg: Config, rows: Table, t: Thread, e: Event, key: Key)
    requires InKick(t.pc) && Writing(t.pc)
    requires Advance(cfg, t, e).Some? && Believes(cfg, rows, t.pc)
    requires key in OnTable(rows, e)
    requires key in rows ==> rows[key].attempt <= cfg.maxCycles
    ensures RowMoves(cfg, rows, t, e, key)
  {
    hide IsGreen, Classify, ReposOf, AdvanceEntry, AdvanceSweep, AdvancePark;
  }

  lemma RowStepReading(cfg: Config, rows: Table, t: Thread, e: Event, key: Key)
    requires InKick(t.pc) && !Writing(t.pc)
    requires Advance(cfg, t, e).Some? && Believes(cfg, rows, t.pc)
    requires key in OnTable(rows, e)
    requires key in rows ==> rows[key].attempt <= cfg.maxCycles
    ensures RowMoves(cfg, rows, t, e, key)
  {
    hide IsGreen, Classify, ReposOf, AdvanceEntry, AdvanceSweep, AdvancePark;
    assert OnTable(rows, e) == rows;
  }

  lemma RowStepElsewhere(cfg: Config, rows: Table, t: Thread, e: Event, key: Key)
    requires !InKick(t.pc)
    requires Advance(cfg, t, e).Some? && Believes(cfg, rows, t.pc)
    requires key in OnTable(rows, e)
    requires key in rows ==> rows[key].attempt <= cfg.maxCycles
    ensures RowMoves(cfg, rows, t, e, key)
  {
    hide ReposOf, AdvanceKick;
  }

  lemma RowStep(cfg: Config, rows: Table, t: Thread, e: Event, key: Key)
    requires Advance(cfg, t, e).Some? && Believes(cfg, rows, t.pc)
    requires key in OnTable(rows, e)
    requires key in rows ==> rows[key].attempt <= cfg.maxCycles
    ensures RowMoves(cfg, rows, t, e, key)
  {
    hide Advance, RowMoves, OnTable, Believes;
    if !InKick(t.pc) {
      RowStepElsewhere(cfg, rows, t, e, key);
    } else if Writing(t.pc) {
      RowStepWriting(cfg, rows, t, e, key);
    } else {
      RowStepReading(cfg, rows, t, e, key);
    }
  }

  lemma BeliefStepKick(cfg: Config, s: State, t: Thread, e: Event)
    requires InKick(t.pc)
    requires Advance(cfg, t, e).Some? && Truthful(s, e) && Believes(cfg, s.rows, t.pc)
    ensures Believes(cfg, OnTable(s.rows, e), Advance(cfg, t, e).value.pc)
  {
    hide IsGreen, Classify, ReposOf, AdvanceEntry, AdvanceSweep, AdvancePark, Covers;
    if Writing(t.pc) {
    } else {
      assert OnTable(s.rows, e) == s.rows;
    }
  }

  lemma BeliefStepElsewhere(cfg: Config, s: State, t: Thread, e: Event)
    requires !InKick(t.pc)
    requires Advance(cfg, t, e).Some? && Truthful(s, e) && Believes(cfg, s.rows, t.pc)
    ensures Believes(cfg, OnTable(s.rows, e), Advance(cfg, t, e).value.pc)
  {
    hide ReposOf, AdvanceKick;
  }

  /** The running call's beliefs stay true. */
  lemma BeliefStep(cfg: Config, s: State, t: Thread, e: Event)
    requires Advance(cfg, t, e).Some? && Truthful(s, e) && Believes(cfg, s.rows, t.pc)
    ensures Believes(cfg, OnTable(s.rows, e), Advance(cfg, t, e).value.pc)
  {
    hide Advance, OnTable, Believes, Truthful;
    if InKick(t.pc) {
      BeliefStepKick(cfg, s, t, e);
    } else {
      BeliefStepElsewhere(cfg, s, t, e);
    }
  }

  /** The account survives a step of the call it is kept for. */
  lemma AccountStep(cfg: Config, run: seq<Move>, s: State, move: Move)
    requires Exec(cfg, run) == Some(s) && Enabled(cfg, s, move)
    requires move.Act? && Account(cfg, s, move.tid)
    ensures Account(cfg, Step(cfg, s, move), move.tid)
  {
    hide Advance, Step, OnTable, Own, AcceptedCount, LostCount, ThreadOf, Believes, Enabled;
    var a, e, s' := move.tid, move.event, Step(cfg, s, move);
    var t := ThreadOf(s, a);
    ActorAdvances(cfg, s, move);
    AnswersAreTrue(cfg, s, move);
    forall tid | tid != a
      ensures Quiet(ThreadOf(s', tid))
    {
      StepThreads(cfg, s, move, tid);
    }
    StepThreads(cfg, s, move, a);
    BeliefStep(cfg, s, t, e);
    LogExplainsQueue(cfg, run);
    forall key | key in s'.rows
      ensures s'.rows[key].attempt <= cfg.maxCycles && Balanced(s', ThreadOf(s', a), key)
    {
      RowStep(cfg, s.rows, t, e, key);
      CountsSnoc(s.log, Logged(a, e), key);
      OwedShowsInLog(cfg, run, a, key);
    }
  }

  lemma AnswersAreTrue(cfg: Config, s: State, move: Move)
    requires Enabled(cfg, s, move) && move.Act?
    ensures Truthful(s, move.event)
  {
    hide Advance, Truthful;
  }

  /** Only a new call can start a thread that has not run. */
  lemma QuietThreadsOnlyStart(cfg: Config, s: State, move: Move)
    requires Enabled(cfg, s, move) && move.Act? && Quiet(ThreadOf(s, move.tid))
    ensures move.event.Called?
  {
  }

  lemma {:induction false} SerialAccount(cfg: Config, run: seq<Move>) returns (a: nat)
    requires Exec(cfg, run).Some? && Serial(cfg, run)
    ensures Account(cfg, Exec(cfg, run).value, a)
  {
    hide Advance, Step, Own, AcceptedCount, LostCount, Believes, Balanced, Enabled;
    if run == [] {
      a := 0;
      InitialAccount(cfg, a);
      return;
    }
    a := SerialAccount(cfg, ButLast(run));
    var s, move := Exec(cfg, ButLast(run)).value, Last(run);
    if move.Act? {
      if move.tid != a {
        QuietThreadsOnlyStart(cfg, s, move);
        Rebase(cfg, s, a, move.tid);
        a := move.tid;
      }
      AccountStep(cfg, ButLast(run), s, move);
    } else {
      HubLeavesAccount(cfg, s, move, a);
    }
  }

  lemma InitialAccount(cfg: Config, a: nat)
    ensures Account(cfg, Initial, a)
  {
  }

  /** With nobody running, the account can be kept for any thread. */
  lemma Rebase(cfg: Config, s: State, a: nat, b: nat)
    requires Account(cfg, s, a) && AllQuiet(s)
    ensures Account(cfg, s, b)
  {
    hide AcceptedCount, LostCount;
  }

  lemma HubLeavesAccount(cfg: Config, s: State, move: Move, a: nat)
    requires Enabled(cfg, s, move) && move.HubMoves? && Account(cfg, s, a)
    ensures Account(cfg, Step(cfg, s, move), a)
  {
    hide AcceptedCount, LostCount, Advance, Truthful;
    var s' := Step(cfg, s, move);
    assert forall tid :: ThreadOf(s', tid) == ThreadOf(s, tid);
    forall key | key in s'.rows
      ensures s'.rows[key].attempt <= cfg.maxCycles && Balanced(s', ThreadOf(s', a), key)
    {
      assert Balanced(s, ThreadOf(s, a), key);
    }
  }

  /** While calls do not overlap, in every reachable state: a row's `attempt` never exceeds
      `max_update_cycles`; it equals the number of accepted branch updates since the row
      entered the queue, except that an update may be awaiting its record and that each lost
      answer, and each crash or failed write between the call and the record, loses one. */
  lemma CyclesAreBounded(cfg: Config, run: seq<Move>, key: Key)
    requires Exec(cfg, run).Some? && Serial(cfg, run) && key in Exec(cfg, run).value.rows
    ensures var s := Exec(cfg, run).value; var attempt := s.rows[key].attempt;
            && attempt <= cfg.maxCycles
            && attempt + LostCount(s.log, key) <= AcceptedCount(s.log, key) <= attempt + LostCount(s.log, key) + 1
            && AcceptedCount(s.log, key) <= cfg.maxCycles + LostCount(s.log, key)
            && (AllQuiet(s) ==> AcceptedCount(s.log, key) == attempt + LostCount(s.log, key))
  {
    hide Advance, AcceptedCount, LostCount;
    var a := SerialAccount(cfg, run);
    var s := Exec(cfg, run).value;
    assert Balanced(s, ThreadOf(s, a), key);
    assert Believes(cfg, s.rows, ThreadOf(s, a).pc);
  }

  // ---- Overlapping kicks --------------------------------------------------

  lemma ExecSnoc(cfg: Config, run: seq<Move>, s: State, move: Move)
    requires Exec(cfg, run) == Some(s) && Enabled(cfg, s, move)
    ensures Exec(cfg, run + [move]) == Some(Step(cfg, s, move))
  {
    hide Advance, Truthful;
    assert ButLast(run + [move]) == run;
  }

  function TableOf(key: Key, row: Option<Row>): Table {
    if row.Some? then map[key := row.value] else map[]
  }

  /** A reachable state with one pull request at most in the queue. The calls before `base` have
      ended, the next two stand at `t0` and `t1`, and no other has begun. */
  ghost predicate Scene(cfg: Config, run: seq<Move>, key: Key, view: PrView, row: Option<Row>,
                        base: nat, t0: Thread, t1: Thread, accepted: nat)
  {
    Exec(cfg, run).Some?
    && var s := Exec(cfg, run).value;
    && s.hub == map[key := view] && s.rows == TableOf(key, row)
    && (forall tid: nat | tid < base :: ThreadOf(s, tid) == Done)
    && ThreadOf(s, base) == t0 && ThreadOf(s, base + 1) == t1
    && (forall tid: nat | tid > base + 1 :: ThreadOf(s, tid) == Fresh)
    && AcceptedCount(s.log, key) == accepted && LostCount(s.log, key) == 0
  }

  /** An answer that fits the scene. */
  predicate Fits(key: Key, view: PrView, row: Option<Row>, e: Event) {
    && !FailsToRecord(e) && !IsMerge(e) && !e.UpdateLost? && !e.RowsListed? && !e.RowDeleted?
    && (e.PrRead? ==> e == PrRead(key, Some(view)))
    && (e.RowLooked? ==> e == RowLooked(key, Some(row.Some?)))
    && (e.HeadPicked? && e.landing.Some? ==>
          row.Some? && e == HeadPicked(key.repo, Some(Some(Landing(key, row.value)))))
    && (e.RowInserted? ==> row.None? && Approving(e, key))
    && (e.RowAdvanced? ==> row.Some? && e.key == key)
  }

  lemma FitsIsTruthful(s: State, key: Key, view: PrView, row: Option<Row>, e: Event)
    requires s.hub == map[key := view] && s.rows == TableOf(key, row) && Fits(key, view, row, e)
    ensures Truthful(s, e) && OnHub(s.hub, e) == s.hub
    ensures OnTable(s.rows, e)
            == TableOf(key, if e.RowInserted? then Some(Row(e.ticket, e.head, Queued, 0, e.now))
                            else if e.RowAdvanced? then Some(Row(row.value.ticket, e.head, e.status, e.attempt, e.now))
                            else row)
  {
    assert row.Some? ==> RepoKeys(s.rows, key.repo) == {key};
  }

  function RowAfter(row: Option<Row>, e: Event): Option<Row> {
    if e.RowInserted? then Some(Row(e.ticket, e.head, Queued, 0, e.now))
    else if e.RowAdvanced? && row.Some? then Some(Row(row.value.ticket, e.head, e.status, e.attempt, e.now))
    else row
  }

  /** One more step of the scene, of the first or the second of its two calls. */
  lemma Play(cfg: Config, run: seq<Move>, key: Key, view: PrView, row: Option<Row>, base: nat,
             t0: Thread, t1: Thread, accepted: nat, second: bool, e: Event, t: Thread)
    returns (run': seq<Move>)
    requires Scene(cfg, run, key, view, row, base, t0, t1, accepted) && Fits(key, view, row, e)
    requires Advance(cfg, if second then t1 else t0, e) == Some(t) && (e.RowInserted? ==> accepted == 0)
    ensures Scene(cfg, run', key, view, RowAfter(row, e), base, if second then t0 else t, if second then t else t1,
                  accepted + if AcceptedFor(e, key) then 1 else 0)
  {
    hide Advance, Truthful, AcceptedCount, LostCount, OnTable, OnHub, Own;
    var s, tid := Exec(cfg, run).value, if second then base + 1 else base;
    FitsIsTruthful(s, key, view, row, e);
    ExecSnoc(cfg, run, s, Act(tid, e));
    run' := run + [Act(tid, e)];
    CountsSnoc(s.log, Logged(tid, e), key);
    LogExplainsQueue(cfg, run);
    var s' := Exec(cfg, run').value;
    assert s'.log == s.log + [Logged(tid, e)] && s'.threads == s.threads[tid := t];
    forall other | other != tid
      ensures ThreadOf(s', other) == ThreadOf(s, other)
    {
    }
  }

  /** When the first of the two calls has ended and the second has not begun, the scene moves on. */
  lemma NextCalls(cfg: Config, run: seq<Move>, key: Key, view: PrView, row: Option<Row>, base: nat, accepted: nat)
    requires Scene(cfg, run, key, view, row, base, Done, Fresh, accepted)
    ensures Scene(cfg, run, key, view, row, base + 1, Fresh, Fresh, accepted)
  {
    hide Exec, AcceptedCount, LostCount, ThreadOf;
  }

  /** An open pull request behind its base. */
  predicate IsBehind(view: PrView) {
    !view.merged && view.state != "closed" && Classify(view.mergeable) == Behind
  }

  lemma NothingCounted(key: Key)
    ensures AcceptedCount([], key) == LostCount([], key) == 0
  {
  }

  lemma NothingDone(cfg: Config)
    ensures Exec(cfg, []) == Some(Initial)
  {
  }

  lemma HubMoveStep(cfg: Config, hub: map<Key, PrView>)
    ensures Enabled(cfg, Initial, HubMoves(hub)) && Step(cfg, Initial, HubMoves(hub)) == Initial.(hub := hub)
  {
    hide Advance, Truthful;
  }

  lemma Opening(cfg: Config, key: Key, view: PrView) returns (run: seq<Move>)
    ensures Scene(cfg, run, key, view, None, 0, Fresh, Fresh, 0)
  {
    hide Enabled, Step, Exec, AcceptedCount, LostCount;
    NothingCounted(key);
    NothingDone(cfg);
    HubMoveStep(cfg, map[key := view]);
    ExecSnoc(cfg, [], Initial, HubMoves(map[key := view]));
    run := [] + [HubMoves(map[key := view])];
  }

  /** An approval enters the queue; its kick ends at once because the queue cannot be read. */
  lemma ApprovalEnters(cfg: Config, key: Key, view: PrView, ticket: string) returns (run: seq<Move>)
    requires cfg.enabled && IsBehind(view)
    ensures Scene(cfg, run, key, view, Some(Row(ticket, view.head, Queued, 0, 0)), 1, Fresh, Fresh, 0)
  {
    hide Scene, AdvanceSweep, AdvancePark, Classify;
    run := Opening(cfg, key, view);
    var look, read := Thread(LookupTicket(key), {}), Thread(ReadApproved(key, ticket), {});
    var insert, pick := Thread(InsertRow(key, ticket, view.head), {}), Thread(PickHead(key.repo), {});
    run := Play(cfg, run, key, view, None, 0, Fresh, Fresh, 0, false, Called(Approval(key)), look);
    run := Play(cfg, run, key, view, None, 0, look, Fresh, 0, false, TicketLooked(key, Some(Some(ticket))), read);
    run := Play(cfg, run, key, view, None, 0, read, Fresh, 0, false, PrRead(key, Some(view)), insert);
    run := Play(cfg, run, key, view, None, 0, insert, Fresh, 0, false,
                RowInserted(key, ticket, view.head, 0, true), pick);
    var row := Some(Row(ticket, view.head, Queued, 0, 0));
    run := Play(cfg, run, key, view, row, 0, pick, Fresh, 0, false, HeadPicked(key.repo, None), Done);
    NextCalls(cfg, run, key, view, row, 0, 0);
  }

  /** A green event starts a call that picks the row, sees it behind and stands before its
      update-branch call. */
  lemma GreenReachesUpdate(cfg: Config, run0: seq<Move>, key: Key, view: PrView, row: Row, base: nat,
                           t0: Thread, t1: Thread, accepted: nat, second: bool)
    returns (run: seq<Move>)
    requires cfg.enabled && IsBehind(view) && row.attempt < cfg.maxCycles
    requires Scene(cfg, run0, key, view, Some(row), base, t0, t1, accepted)
    requires (if second then t1 else t0) == Fresh
    ensures var update := Thread(UpdateBranch(Landing(key, row), view.head), {});
            Scene(cfg, run, key, view, Some(row), base, if second then t0 else update,
                  if second then update else t1, accepted)
  {
    hide Scene, AdvanceSweep, AdvancePark, Classify;
    var l, r := Landing(key, row), Some(row);
    var look, pick := Thread(LookupGreen(key), {}), Thread(PickHead(key.repo), {});
    var read, update := Thread(ReadPr(l), {}), Thread(UpdateBranch(l, view.head), {});
    run := Play(cfg, run0, key, view, r, base, t0, t1, accepted, second, Called(GreenCi(key)), look);
    run := Play(cfg, run, key, view, r, base, if second then t0 else look, if second then look else t1,
                accepted, second, RowLooked(key, Some(true)), pick);
    run := Play(cfg, run, key, view, r, base, if second then t0 else pick, if second then pick else t1,
                accepted, second, HeadPicked(key.repo, Some(Some(l))), read);
    run := Play(cfg, run, key, view, r, base, if second then t0 else read, if second then read else t1,
                accepted, second, PrRead(key, Some(view)), update);
  }

  /** The row after an accepted and recorded update. */
  function Updated(row: Row, head: string): Row {
    Row(row.ticket, head, Updating, row.attempt + 1, 0)
  }

  /** One whole cycle of a single call. */
  lemma OneCycle(cfg: Config, run0: seq<Move>, key: Key, view: PrView, row: Row, base: nat) returns (run: seq<Move>)
    requires cfg.enabled && IsBehind(view) && row.attempt < cfg.maxCycles
    requires Scene(cfg, run0, key, view, Some(row), base, Fresh, Fresh, row.attempt)
    ensures Scene(cfg, run, key, view, Some(Updated(row, view.head)), base + 1, Fresh, Fresh, row.attempt + 1)
  {
    hide Scene, AdvanceEntry, AdvanceSweep, AdvancePark;
    var l, n := Landing(key, row), row.attempt;
    var update, owing := Thread(UpdateBranch(l, view.head), {}), Thread(Settle(l, Updating, view.head, n + 1), {});
    run := GreenReachesUpdate(cfg, run0, key, view, row, base, Fresh, Fresh, n, false);
    run := Play(cfg, run, key, view, Some(row), base, update, Fresh, n, false,
                BranchUpdated(key, view.head, Some(Accepted)), owing);
    run := Play(cfg, run, key, view, Some(row), base, owing, Fresh, n + 1, false,
                RowAdvanced(key, Updating, view.head, n + 1, 0, true), Done);
    NextCalls(cfg, run, key, view, Some(Updated(row, view.head)), base, n + 1);
  }

  /** Cycles one after the other, up to `n`. */
  lemma {:induction false} Cycles(cfg: Config, run0: seq<Move>, key: Key, view: PrView, row: Row, base: nat, n: nat)
    returns (run: seq<Move>, row': Row, base': nat)
    requires cfg.enabled && IsBehind(view) && row.attempt <= n <= cfg.maxCycles
    requires Scene(cfg, run0, key, view, Some(row), base, Fresh, Fresh, row.attempt)
    ensures row'.attempt == n && Scene(cfg, run, key, view, Some(row'), base', Fresh, Fresh, n)
    decreases n - row.attempt
  {
    hide Scene, IsBehind;
    if row.attempt == n {
      return run0, row, base;
    }
    run := OneCycle(cfg, run0, key, view, row, base);
    run, row', base' := Cycles(cfg, run, key, view, Updated(row, view.head), base + 1, n);
  }

  /** GitHub accepts the updates of two calls, and both record the same attempt. */
  lemma BothRecord(cfg: Config, run0: seq<Move>, key: Key, view: PrView, row: Row, base: nat, accepted: nat)
    returns (run: seq<Move>)
    requires var update := Thread(UpdateBranch(Landing(key, row), view.head), {});
             Scene(cfg, run0, key, view, Some(row), base, update, update, accepted)
    ensures Scene(cfg, run, key, view, Some(Updated(row, view.head)), base, Done, Done, accepted + 2)
  {
    hide Scene, AdvanceEntry, AdvanceSweep, AdvancePark;
    var l, next := Landing(key, row), Some(Updated(row, view.head));
    var update := Thread(UpdateBranch(l, view.head), {});
    var owing := Thread(Settle(l, Updating, view.head, row.attempt + 1), {});
    var taken := BranchUpdated(key, view.head, Some(Accepted));
    var recorded := RowAdvanced(key, Updating, view.head, row.attempt + 1, 0, true);
    run := Play(cfg, run0, key, view, Some(row), base, update, update, accepted, false, taken, owing);
    run := Play(cfg, run, key, view, Some(row), base, owing, update, accepted + 1, true, taken, owing);
    run := Play(cfg, run, key, view, Some(row), base, owing, owing, accepted + 2, false, recorded, Done);
    run := Play(cfg, run, key, view, next, base, Done, owing, accepted + 2, true, recorded, Done);
  }

  /** Serial calls are needed, whatever the budget: two kicks that overlap between reading the
      pull request and recording the update make GitHub accept one update more than the maximum,
      although nothing is lost and the row says that the maximum was reached. */
  lemma OverlappingKicksOverspend(cfg: Config, key: Key) returns (run: seq<Move>)
    requires cfg.enabled && cfg.maxCycles > 0
    ensures Exec(cfg, run).Some?
    ensures var s := Exec(cfg, run).value;
            && AllQuiet(s) && key in s.rows && s.rows[key].attempt == cfg.maxCycles
            && LostCount(s.log, key) == 0 && AcceptedCount(s.log, key) == cfg.maxCycles + 1
  {
    hide Advance, AcceptedCount, LostCount, Exec, ThreadOf;
    var v, last := PrView("", false, "open", "behind"), cfg.maxCycles - 1;
    run := ApprovalEnters(cfg, key, v, "");
    var row, base;
    run, row, base := Cycles(cfg, run, key, v, Row("", "", Queued, 0, 0), 1, last);
    var update := Thread(UpdateBranch(Landing(key, row), v.head), {});
    run := GreenReachesUpdate(cfg, run, key, v, row, base, Fresh, Fresh, last, false);
    run := GreenReachesUpdate(cfg, run, key, v, row, base, update, Fresh, last, true);
    run := BothRecord(cfg, run, key, v, row, base, last);
    var s := Exec(cfg, run).value;
    forall tid: nat
      ensures Quiet(ThreadOf(s, tid))
    {
      assert tid < base || tid == base || tid == base + 1 || tid > base + 1;
    }
  }

  /** When both calls have ended. */
  lemma NextTwoCalls(cfg: Config, run: seq<Move>, key: Key, view: PrView, row: Option<Row>, base: nat, accepted: nat)
    requires Scene(cfg, run, key, view, row, base, Done, Done, accepted)
    ensures Scene(cfg, run, key, view, row, base + 2, Fresh, Fresh, accepted)
  {
    hide Exec, AcceptedCount, LostCount, ThreadOf;
  }

  /** The row after a call gave up its stale update. */
  function PutBack(row: Row, head: string): Row {
    Row(row.ticket, head, AwaitingCi, row.attempt, 0)
  }

  /** The second call has an update accepted and recorded. */
  lemma SecondRecords(cfg: Config, run0: seq<Move>, key: Key, view: PrView, row: Row, base: nat, t0: Thread,
                      accepted: nat)
    returns (run: seq<Move>)
    requires Scene(cfg, run0, key, view, Some(row), base, t0, Thread(UpdateBranch(Landing(key, row), view.head), {}),
                   accepted)
    ensures Scene(cfg, run, key, view, Some(Updated(row, view.head)), base, t0, Done, accepted + 1)
  {
    hide Scene, AdvanceEntry, AdvanceSweep, AdvancePark;
    var l, n := Landing(key, row), row.attempt + 1;
    var update, owing := Thread(UpdateBranch(l, view.head), {}), Thread(Settle(l, Updating, view.head, n), {});
    run := Play(cfg, run0, key, view, Some(row), base, t0, update, accepted, true,
                BranchUpdated(key, view.head, Some(Accepted)), owing);
    run := Play(cfg, run, key, view, Some(row), base, t0, owing, accepted + 1, true,
                RowAdvanced(key, Updating, view.head, n, 0, true), Done);
  }

  /** GitHub calls the head of the first call's update stale, and its write takes back what the
      row says now. */
  lemma FirstGivesUp(cfg: Config, run0: seq<Move>, key: Key, view: PrView, row: Row, now: Row, base: nat, accepted: nat)
    returns (run: seq<Move>)
    requires now.ticket == row.ticket
    requires Scene(cfg, run0, key, view, Some(now), base, Thread(UpdateBranch(Landing(key, row), view.head), {}), Done,
                   accepted)
    ensures Scene(cfg, run, key, view, Some(PutBack(row, view.head)), base + 2, Fresh, Fresh, accepted)
  {
    hide Scene, AdvanceEntry, AdvanceSweep, AdvancePark;
    var l, n := Landing(key, row), row.attempt;
    var update, waiting := Thread(UpdateBranch(l, view.head), {}), Thread(Settle(l, AwaitingCi, view.head, n), {});
    run := Play(cfg, run0, key, view, Some(now), base, update, Done, accepted, false,
                BranchUpdated(key, view.head, Some(Stale)), waiting);
    run := Play(cfg, run, key, view, Some(now), base, waiting, Done, accepted, false,
                RowAdvanced(key, AwaitingCi, view.head, n, 0, true), Done);
    NextTwoCalls(cfg, run, key, view, Some(PutBack(row, view.head)), base, accepted);
  }

  /** One call stands before its update while another has one accepted and recorded; then the
      first one takes the record back. */
  lemma RecordTakenBack(cfg: Config, run0: seq<Move>, key: Key, view: PrView, row: Row, base: nat, accepted: nat)
    returns (run: seq<Move>)
    requires cfg.enabled && IsBehind(view) && row.attempt < cfg.maxCycles
    requires Scene(cfg, run0, key, view, Some(row), base, Fresh, Fresh, accepted)
    ensures Scene(cfg, run, key, view, Some(PutBack(row, view.head)), base + 2, Fresh, Fresh, accepted + 1)
  {
    hide Scene, IsBehind;
    var update := Thread(UpdateBranch(Landing(key, row), view.head), {});
    run := GreenReachesUpdate(cfg, run0, key, view, row, base, Fresh, Fresh, accepted, false);
    run := GreenReachesUpdate(cfg, run, key, view, row, base, update, Fresh, accepted, true);
    run := SecondRecords(cfg, run, key, view, row, base, update, accepted);
    run := FirstGivesUp(cfg, run, key, view, row, Updated(row, view.head), base, accepted + 1);
  }

  lemma {:induction false} TakenBackAgain(cfg: Config, key: Key, view: PrView, k: nat)
    returns (run: seq<Move>, row: Row, base: nat)
    requires cfg.enabled && IsBehind(view) && cfg.maxCycles > 0
    ensures row.attempt == 0 && Scene(cfg, run, key, view, Some(row), base, Fresh, Fresh, k)
  {
    hide Scene, IsBehind;
    if k == 0 {
      run := ApprovalEnters(cfg, key, view, "");
      row, base := Row("", view.head, Queued, 0, 0), 1;
    } else {
      run, row, base := TakenBackAgain(cfg, key, view, k - 1);
      run := RecordTakenBack(cfg, run, key, view, row, base, k - 1);
      row, base := PutBack(row, view.head), base + 2;
    }
  }

  /** Overlapping kicks know no bound at all: for every `k` there is a run after which GitHub has
      accepted `k` updates of one queued pull request, nothing is lost, nobody is at work, and
      the row says that none was made. */
  lemma OverlappingKicksAreUnbounded(cfg: Config, key: Key, k: nat) returns (run: seq<Move>)
    requires cfg.enabled && cfg.maxCycles > 0
    ensures Exec(cfg, run).Some?
    ensures var s := Exec(cfg, run).value;
            && AllQuiet(s) && key in s.rows && s.rows[key].attempt == 0
            && LostCount(s.log, key) == 0 && AcceptedCount(s.log, key) == k
  {
    hide Advance, AcceptedCount, LostCount, Exec, ThreadOf;
    var row, base;
    run, row, base := TakenBackAgain(cfg, key, PrView("", false, "open", "behind"), k);
    var s := Exec(cfg, run).value;
    forall tid: nat
      ensures Quiet(ThreadOf(s, tid))
    {
      assert tid < base || tid == base || tid == base + 1 || tid > base + 1;
    }
  }
}
