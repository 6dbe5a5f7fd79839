/** Safety of the merge coordinator over every interleaving of calls with an adversarial
    GitHub: what a merge must have been preceded by, and why a queue row may disappear. */
module LandingSafety {
  import opened Prelude
  import opened CheckGate
  import opened Storage
  import opened LandingProgram

  // ---- Evidence at the end of a call's own events ------------------------

  /** The call's last event is `e`. */
  predicate EndedWith(own: seq<Event>, e: Event) {
    own != [] && Last(own) == e
  }

  /** The last event is a read of `key` that found the pull request open, at `head`, and in
      the given mergeability class. */
  predicate JustRead(own: seq<Event>, key: Key, head: string, m: Mergeability) {
    && own != [] && Last(own).PrRead? && Last(own).key == key && Last(own).view.Some?
    && !IsGone(Last(own).view.value) && Last(own).view.value.head == head
    && Classify(Last(own).view.value.mergeable) == m
  }

  /** `advance_ready` has just read a settled green summary for exactly the head it read. */
  predicate GreenRead(cfg: Config, own: seq<Event>, key: Key, head: string) {
    && own != [] && Last(own).ChecksRead? && Last(own).repo == key.repo && Last(own).head == head
    && Last(own).summary.Some?
    && !Last(own).summary.value.anyPending && IsGreen(Last(own).summary.value, cfg.required)
    && JustRead(ButLast(own), key, head, Ready)
  }

  /** ... and has then, as its very next effect, marked the row as merging. */
  predicate ReadyToMerge(cfg: Config, own: seq<Event>, key: Key, head: string) {
    && own != [] && Last(own).RowAdvanced? && Last(own).key == key && Last(own).status == Merging
    && Last(own).head == head && Last(own).ok
    && GreenRead(cfg, ButLast(own), key, head)
  }

  /** Conflict with the base, update budget spent, or an update refused as a conflict. */
  predicate MustPark(cfg: Config, own: seq<Event>, l: Landing) {
    || (own != [] && Last(own).PrRead? && Last(own).key == l.key && Last(own).view.Some?
        && !IsGone(Last(own).view.value)
        && (Classify(Last(own).view.value.mergeable) == Dirty
            || (Classify(Last(own).view.value.mergeable) == Behind && l.row.attempt >= cfg.maxCycles)))
    || (own != [] && Last(own).BranchUpdated? && Last(own).key == l.key
        && Last(own).outcome == Some(BranchConflict))
  }

  predicate FieldDone(cfg: Config, own: seq<Event>, l: Landing) {
    EndedWith(own, FieldWritten(l.row.ticket, true)) && MustPark(cfg, ButLast(own), l)
  }

  /** The ticket already is in the needs-fixes state, with the reason written before that. */
  predicate MoveDone(cfg: Config, own: seq<Event>, l: Landing) {
    EndedWith(own, TicketMoved(l.row.ticket, cfg.needsFixes, true)) && FieldDone(cfg, ButLast(own), l)
  }

  predicate Touched(own: seq<Event>, key: Key) {
    own != [] && Last(own).PrTouched? && Last(own).key == key
  }

  /** The three tolerated GitHub writes have followed. */
  predicate Parked(cfg: Config, own: seq<Event>, l: Landing) {
    && |own| > 3 && Touched(own, l.key) && Touched(own[..|own| - 1], l.key) && Touched(own[..|own| - 2], l.key)
    && MoveDone(cfg, own[..|own| - 3], l)
  }

  predicate MergedByUs(cfg: Config, own: seq<Event>, key: Key) {
    own != [] && IsMerge(Last(own)) && Last(own).key == key
    && ReadyToMerge(cfg, ButLast(own), key, Last(own).head)
  }

  predicate SeenGone(own: seq<Event>, key: Key) {
    own != [] && Last(own).PrRead? && Last(own).key == key && Last(own).view.Some? && IsGone(Last(own).view.value)
  }

  /** The head it read has a settled summary that is not green. */
  predicate NotGreen(cfg: Config, own: seq<Event>, key: Key) {
    && own != [] && Last(own).ChecksRead? && Last(own).repo == key.repo && Last(own).summary.Some?
    && !Last(own).summary.value.anyPending && !IsGreen(Last(own).summary.value, cfg.required)
    && JustRead(ButLast(own), key, Last(own).head, Ready)
  }

  predicate RedEvent(own: seq<Event>, key: Key) {
    own == [Called(RedCi(key)), RowLooked(key, Some(true))]
  }

  /** The row a call took from the queue last. */
  function LastPick(own: seq<Event>): Option<Landing> {
    if own == [] then None
    else if Last(own).HeadPicked? then
      if Last(own).landing.Some? then Last(own).landing.value else None
    else LastPick(ButLast(own))
  }

  /** The row the call took from the queue is parked: the ticket is that of this row, and it is
      the update budget of this row that may be spent. */
  predicate ParkedPick(cfg: Config, own: seq<Event>, key: Key) {
    LastPick(own).Some? && LastPick(own).value.key == key && Parked(cfg, own, LastPick(own).value)
  }

  /** Every reason for which the coordinator may delete a row. */
  predicate Justified(cfg: Config, own: seq<Event>, key: Key) {
    || MergedByUs(cfg, own, key)
    || SeenGone(own, key)
    || NotGreen(cfg, own, key)
    || RedEvent(own, key)
    || ParkedPick(cfg, own, key)
  }

  /** Why a call stands before deleting the row `l` it works on. */
  predicate MayDrop(cfg: Config, own: seq<Event>, l: Landing) {
    MergedByUs(cfg, own, l.key) || SeenGone(own, l.key) || NotGreen(cfg, own, l.key) || Parked(cfg, own, l)
  }

  /** An approval event, a known ticket and an open pull request stand behind an insertion. */
  predicate ApprovedOpen(own: seq<Event>, key: Key, ticket: string, head: string) {
    && |own| == 3 && own[0] == Called(Approval(key)) && own[1] == TicketLooked(key, Some(Some(ticket)))
    && own[2].PrRead? && own[2].key == key && own[2].view.Some?
    && !own[2].view.value.merged && own[2].view.value.head == head
  }

  /** What a call standing at `t` must have done last. */
  ghost predicate Tail(cfg: Config, t: Thread, own: seq<Event>) {
    match t.pc
    case Idle => own == []
    case LookupTicket(key) => own == [Called(Approval(key))]
    case ReadApproved(key, ticket) => own == [Called(Approval(key)), TicketLooked(key, Some(Some(ticket)))]
    case InsertRow(key, ticket, head) => ApprovedOpen(own, key, ticket, head)
    case LookupRed(key) => own == [Called(RedCi(key))]
    case DropRed(key) => RedEvent(own, key)
    case SweepDrop(todo) => todo != [] && SeenGone(own, todo[0].key)
    case ReadPr(l) => EndedWith(own, HeadPicked(l.key.repo, Some(Some(l))))
    case UpdateBranch(l, head) => JustRead(own, l.key, head, Behind) && l.row.attempt < cfg.maxCycles
    case ReadChecks(l, head) => JustRead(own, l.key, head, Ready)
    case MarkMerging(l, head) => GreenRead(cfg, own, l.key, head)
    case CallMerge(l, head) => ReadyToMerge(cfg, own, l.key, head)
    case Drop(l) => MayDrop(cfg, own, l)
    case ParkField(l) => MustPark(cfg, own, l)
    case ParkMove(l) => FieldDone(cfg, own, l)
    case ParkLabel(l) => MoveDone(cfg, own, l)
    case ParkUnlabel(l) => Touched(own, l.key) && MoveDone(cfg, ButLast(own), l)
    case ParkComment(l) =>
      |own| > 2 && Touched(own, l.key) && Touched(own[..|own| - 1], l.key) && MoveDone(cfg, own[..|own| - 2], l)
    case _ => true
  }

  /** A picked head belongs to the repo that was asked for. */
  predicate HeadAgrees(e: Event) {
    e.HeadPicked? && e.landing.Some? && e.landing.value.Some? ==> e.landing.value.value.key.repo == e.repo
  }

  lemma TailStepPark(cfg: Config, t: Thread, own: seq<Event>, e: Event)
    requires (t.pc.ParkField? || t.pc.ParkMove?) && Tail(cfg, t, own) && Advance(cfg, t, e).Some?
    ensures Tail(cfg, Advance(cfg, t, e).value, own + [e])
  {
    hide AdvanceEntry, AdvanceSweep, AdvanceKick, MayDrop, MustPark, SeenGone, JustRead, GreenRead,
         ReadyToMerge, RedEvent, ApprovedOpen;
    var own' := own + [e];
    assert ButLast(own') == own && Last(own') == e;
  }

  lemma TailStepTouch(cfg: Config, t: Thread, own: seq<Event>, e: Event)
    requires (t.pc.ParkLabel? || t.pc.ParkUnlabel?) && Tail(cfg, t, own) && Advance(cfg, t, e).Some?
    ensures Tail(cfg, Advance(cfg, t, e).value, own + [e])
  {
    hide AdvanceEntry, AdvanceSweep, AdvanceKick, MayDrop, MustPark, FieldDone, SeenGone, JustRead,
         GreenRead, ReadyToMerge, RedEvent, ApprovedOpen;
    var own' := own + [e];
    assert ButLast(own') == own && Last(own') == e;
    assert t.pc.ParkUnlabel? ==> own'[..|own'| - 1] == own && own'[..|own'| - 2] == ButLast(own);
  }

  lemma TailStepParked(cfg: Config, t: Thread, own: seq<Event>, e: Event)
    requires t.pc.ParkComment? && Tail(cfg, t, own) && Advance(cfg, t, e).Some?
    ensures Tail(cfg, Advance(cfg, t, e).value, own + [e])
  {
    hide AdvanceEntry, AdvanceSweep, AdvanceKick, MustPark, FieldDone, MoveDone, SeenGone, JustRead, GreenRead,
         ReadyToMerge, RedEvent, ApprovedOpen, MergedByUs, NotGreen;
    var own' := own + [e];
    assert own'[..|own'| - 1] == own && own'[..|own'| - 2] == own[..|own| - 1]
           && own'[..|own'| - 3] == own[..|own| - 2];
    assert !e.Crashed? ==> Parked(cfg, own', t.pc.l);
  }

  lemma TailStepKick(cfg: Config, t: Thread, own: seq<Event>, e: Event)
    requires !t.pc.Idle? && !t.pc.Stopped? && !InPark(t.pc) && !InEntry(t.pc) && !InSweep(t.pc)
    requires Tail(cfg, t, own) && Advance(cfg, t, e).Some? && HeadAgrees(e)
    ensures Tail(cfg, Advance(cfg, t, e).value, own + [e])
  {
    hide AdvanceEntry, AdvanceSweep, AdvancePark, Parked, IsGreen, FieldDone, MoveDone, ApprovedOpen, RedEvent;
    var own' := own + [e];
    assert ButLast(own') == own && Last(own') == e;
  }

  lemma TailStepStart(cfg: Config, t: Thread, own: seq<Event>, e: Event)
    requires t.pc.Idle? || InEntry(t.pc) || InSweep(t.pc)
    requires Tail(cfg, t, own) && Advance(cfg, t, e).Some?
    ensures Tail(cfg, Advance(cfg, t, e).value, own + [e])
  {
    hide AdvanceKick, AdvancePark, MayDrop, MustPark, FieldDone, MoveDone, Parked, MergedByUs, NotGreen,
         GreenRead, ReadyToMerge, JustRead;
    var own' := own + [e];
    assert Last(own') == e;
  }

  /** One step keeps the evidence. */
  lemma TailStep(cfg: Config, t: Thread, own: seq<Event>, e: Event)
    requires Tail(cfg, t, own) && Advance(cfg, t, e).Some? && HeadAgrees(e)
    ensures Tail(cfg, Advance(cfg, t, e).value, own + [e])
  {
    hide Tail, AdvanceEntry, AdvanceSweep, AdvancePark, AdvanceKick;
    if t.pc.ParkComment? {
      TailStepParked(cfg, t, own, e);
    } else if t.pc.ParkLabel? || t.pc.ParkUnlabel? {
      TailStepTouch(cfg, t, own, e);
    } else if InPark(t.pc) {
      TailStepPark(cfg, t, own, e);
    } else if t.pc.Idle? || InEntry(t.pc) || InSweep(t.pc) {
      TailStepStart(cfg, t, own, e);
    } else {
      TailStepKick(cfg, t, own, e);
    }
  }

  /** In every reachable state the evidence for each call's program point is in the log. */
  lemma {:induction false} EvidenceHolds(cfg: Config, run: seq<Move>, tid: nat)
    requires Exec(cfg, run).Some?
    ensures var s := Exec(cfg, run).value; Tail(cfg, ThreadOf(s, tid), Own(s.log, tid))
  {
    hide Tail, Advance, Enabled, Step, Own, ThreadOf;
    if run == [] {
      NothingYet(cfg, tid);
    } else {
      EvidenceHolds(cfg, ButLast(run), tid);
      var s, move := Exec(cfg, ButLast(run)).value, Last(run);
      StepThreads(cfg, s, move, tid);
      if move.Act? {
        OwnSnoc(s.log, Logged(move.tid, move.event), tid);
        if tid == move.tid {
          ActorAdvances(cfg, s, move);
          PicksAgree(cfg, s, move);
          TailStep(cfg, ThreadOf(s, tid), Own(s.log, tid), move.event);
        }
      }
    }
  }

  lemma NothingYet(cfg: Config, tid: nat)
    ensures Tail(cfg, ThreadOf(Initial, tid), Own(Initial.log, tid))
  {
  }

  lemma PicksAgree(cfg: Config, s: State, move: Move)
    requires Enabled(cfg, s, move) && move.Act?
    ensures HeadAgrees(move.event)
  {
    hide Advance;
  }

  // ---- Who may be merged --------------------------------------------------

  /** An approval of `key` has put it in the queue at some point: the inserting call began as one,
      found a ticket for it and then read the pull request as not merged. */
  ghost predicate WasApproved(log: seq<Logged>, key: Key) {
    exists i :: 0 <= i < |log| && ApprovedAt(log, i, key)
  }

  predicate ApprovedAt(log: seq<Logged>, i: nat, key: Key)
    requires i < |log|
  {
    var e := log[i].event;
    e.RowInserted? && e.ok && e.key == key && ApprovedOpen(Own(log[..i], log[i].tid), key, e.ticket, e.head)
  }

  function WorkingOn(pc: Pc): Option<Key> {
    match Working(pc)
    case None => None
    case Some(l) => Some(l.key)
  }

  /** A call only works on what it picked from the queue, until it picks again. */
  lemma WorkComesFromPick(cfg: Config, t: Thread, e: Event)
    requires Advance(cfg, t, e).Some?
    ensures var l := Working(Advance(cfg, t, e).value.pc);
            l.Some? ==> if e.HeadPicked? then e.landing == Some(l) else l == Working(t.pc)
  {
    hide IsGreen, Classify, ReposOf;
  }

  /** ... so the row a call works on is the last one it took from the queue. */
  lemma {:induction false} WorkIsLastPick(cfg: Config, run: seq<Move>, tid: nat)
    requires Exec(cfg, run).Some?
    ensures var s := Exec(cfg, run).value; var l := Working(ThreadOf(s, tid).pc);
            l.Some? ==> LastPick(Own(s.log, tid)) == l
  {
    hide Advance, Enabled, Step, Own, ThreadOf, Working;
    if run == [] {
      assert Working(Fresh.pc) == None by { FreshIsIdle(); }
      InitiallyFresh(cfg, tid);
    } else {
      WorkIsLastPick(cfg, ButLast(run), tid);
      var s, move := Exec(cfg, ButLast(run)).value, Last(run);
      StepThreads(cfg, s, move, tid);
      if move.Act? {
        OwnSnoc(s.log, Logged(move.tid, move.event), tid);
        if tid == move.tid {
          ActorAdvances(cfg, s, move);
          WorkComesFromPick(cfg, ThreadOf(s, tid), move.event);
          assert ButLast(Own(s.log, tid) + [move.event]) == Own(s.log, tid);
        }
      }
    }
  }

  lemma FreshIsIdle()
    ensures Working(Fresh.pc) == None
  {
  }

  /** Call `tid` took `l` from the queue when it was the head. */
  ghost predicate TookHead(log: seq<Logged>, tid: nat, l: Landing) {
    exists i :: 0 <= i < |log| && TookAt(log, i, tid, l)
  }

  ghost predicate TookAt(log: seq<Logged>, i: nat, tid: nat, l: Landing)
    requires i < |log|
  {
    && log[i].tid == tid && log[i].event.HeadPicked? && log[i].event.landing == Some(Some(l))
    && IsHead(Replay(log[..i]), l.key.repo, Some(l))
  }

  /** What a call took from the queue last was the oldest row of its repo at that moment, with
      the ticket and the attempt count that the queue had. */
  lemma {:induction false} PicksAreHeads(cfg: Config, run: seq<Move>, tid: nat)
    requires Exec(cfg, run).Some?
    ensures var s := Exec(cfg, run).value; var l := LastPick(Own(s.log, tid));
            l.Some? ==> TookHead(s.log, tid, l.value)
  {
    hide Advance, Truthful, Own, IsHead, Replay, OnTable, OnHub;
    if run == [] {
      OwnOfNothing(tid);
    } else {
      PicksAreHeads(cfg, ButLast(run), tid);
      var s, s', move := Exec(cfg, ButLast(run)).value, Exec(cfg, run).value, Last(run);
      if move.Act? {
        assert s'.log == s.log + [Logged(move.tid, move.event)];
        OwnSnoc(s.log, Logged(move.tid, move.event), tid);
        var own := Own(s.log, tid);
        assert ButLast(own + [move.event]) == own;
        if tid == move.tid && move.event.HeadPicked? {
          if LastPick(own + [move.event]).Some? {
            LogExplainsQueue(cfg, ButLast(run));
            PickedIsHead(s, move.event);
            assert s'.log[..|s.log|] == s.log;
            assert TookAt(s'.log, |s.log|, tid, move.event.landing.value.value);
          }
        } else if LastPick(own).Some? {
          var i :| 0 <= i < |s.log| && TookAt(s.log, i, tid, LastPick(own).value);
          assert s'.log[..i] == s.log[..i];
          assert TookAt(s'.log, i, tid, LastPick(own).value);
        }
      }
    }
  }

  lemma OwnOfNothing(tid: nat)
    ensures LastPick(Own([], tid)) == None
  {
  }

  lemma PickedIsHead(s: State, e: Event)
    requires Truthful(s, e) && e.HeadPicked? && e.landing.Some? && e.landing.value.Some?
    ensures var l := e.landing.value.value; IsHead(s.rows, l.key.repo, Some(l))
  {
  }

  /** A row only enters the queue at the end of an approval. */
  lemma InsertionIsApproval(cfg: Config, run: seq<Move>, s: State, move: Move, key: Key)
    requires Exec(cfg, run) == Some(s) && Enabled(cfg, s, move) && move.Act?
    requires key !in s.rows && key in Step(cfg, s, move).rows
    ensures var e := move.event;
            e.RowInserted? && e.ok && e.key == key && ApprovedOpen(Own(s.log, move.tid), key, e.ticket, e.head)
  {
    hide ApprovedOpen, Own, Exec;
    EvidenceHolds(cfg, run, move.tid);
    StepThreads(cfg, s, move, move.tid);
    InsertsFrom(cfg, ThreadOf(s, move.tid), move.event);
  }

  lemma InsertsFrom(cfg: Config, t: Thread, e: Event)
    requires Advance(cfg, t, e).Some? && e.RowInserted?
    ensures t.pc == InsertRow(e.key, e.ticket, e.head)
  {
    hide IsGreen, Classify, ReposOf;
  }

  /** Queue rows, and the rows calls work on, all stem from approvals. */
  lemma {:induction false} OnlyApproved(cfg: Config, run: seq<Move>)
    requires Exec(cfg, run).Some?
    ensures var s := Exec(cfg, run).value;
            && (forall k | k in s.rows :: WasApproved(s.log, k))
            && (forall tid | WorkingOn(ThreadOf(s, tid).pc).Some? ::
                  WasApproved(s.log, WorkingOn(ThreadOf(s, tid).pc).value))
  {
    hide Advance, Own, ApprovedOpen;
    var s' := Exec(cfg, run).value;
    if run != [] {
      OnlyApproved(cfg, ButLast(run));
      var s, move := Exec(cfg, ButLast(run)).value, Last(run);
      if move.Act? {
        forall k | WasApproved(s.log, k)
          ensures WasApproved(s'.log, k)
        {
          var i :| 0 <= i < |s.log| && ApprovedAt(s.log, i, k);
          assert s'.log[..i] == s.log[..i];
          assert ApprovedAt(s'.log, i, k);
        }
        forall k | k in s'.rows
          ensures WasApproved(s'.log, k)
        {
          if k !in s.rows {
            InsertionIsApproval(cfg, ButLast(run), s, move, k);
            assert s'.log[..|s.log|] == s.log;
            assert ApprovedAt(s'.log, |s.log|, k);
          }
        }
        WorkComesFromPick(cfg, ThreadOf(s, move.tid), move.event);
      }
      forall tid | WorkingOn(ThreadOf(s', tid).pc).Some?
        ensures WasApproved(s'.log, WorkingOn(ThreadOf(s', tid).pc).value)
      {
        assert move.HubMoves? || tid != move.tid ==> ThreadOf(s', tid) == ThreadOf(s, tid);
      }
    }
  }

  /** Merge safety, for every merge in every interleaving, also one whose answer is lost: the
      pull request had been enqueued by an approval; it is open and merged at exactly its current
      head; and the same call's three latest effects are reading this head as open and ready,
      reading a settled green summary of exactly this head, and marking the row as merging. */
  lemma MergesAreSafe(cfg: Config, run: seq<Move>, tid: nat, key: Key, head: string)
    requires run != [] && Exec(cfg, run).Some?
    requires Last(run) == Act(tid, MergeCalled(key, head, Some(Merged))) || Last(run) == Act(tid, MergeLost(key, head))
    ensures Exec(cfg, ButLast(run)).Some?
    ensures var s := Exec(cfg, ButLast(run)).value;
            && WasApproved(s.log, key)
            && key in s.hub && s.hub[key].head == head && !IsGone(s.hub[key])
            && ReadyToMerge(cfg, Own(s.log, tid), key, head)
  {
    hide ReadyToMerge, Own, WasApproved, Advance;
    var s := Exec(cfg, ButLast(run)).value;
    EvidenceHolds(cfg, ButLast(run), tid);
    OnlyApproved(cfg, ButLast(run));
    MergesFrom(cfg, ThreadOf(s, tid), Last(run).event);
  }

  lemma MergesFrom(cfg: Config, t: Thread, e: Event)
    requires Advance(cfg, t, e).Some? && (e.MergeCalled? || e.MergeLost?)
    ensures t.pc.CallMerge? && t.pc.l.key == e.key && t.pc.head == e.head
  {
    hide IsGreen, Classify, ReposOf;
  }

  /** The gates agree: the summary a merge rests on is one the feedback loop calls green, and not
      one it would send back for fixes. */
  lemma MergesAreGreenToTheFeedbackLoop(cfg: Config, run: seq<Move>, tid: nat, key: Key, head: string)
    requires run != [] && Exec(cfg, run).Some?
    requires Last(run) == Act(tid, MergeCalled(key, head, Some(Merged))) || Last(run) == Act(tid, MergeLost(key, head))
    ensures Exec(cfg, ButLast(run)).Some?
    ensures var own := Own(Exec(cfg, ButLast(run)).value.log, tid);
            && |own| > 1 && own[|own| - 2].ChecksRead? && own[|own| - 2].head == head
            && own[|own| - 2].summary.Some?
            && VerdictOf(own[|own| - 2].summary.value, cfg.required) == Green
            && !RequiredFailed(own[|own| - 2].summary.value, cfg.required)
  {
    hide Exec, Own, IsGreen, RequiredFailed, VerdictOf, WasApproved;
    MergesAreSafe(cfg, run, tid, key, head);
    var own := Own(Exec(cfg, ButLast(run)).value.log, tid);
    assert Last(ButLast(own)) == own[|own| - 2];
    VerdictMeaning(own[|own| - 2].summary.value, cfg.required);
  }

  /** No pull request is merged by the coordinator after it has been merged by anyone, in
      particular never twice. */
  lemma {:induction false} MergedStaysMerged(cfg: Config, run: seq<Move>, i: nat, key: Key)
    requires Exec(cfg, run).Some? && i <= |run|
    requires Exec(cfg, run[..i]).Some? ==>
               key in Exec(cfg, run[..i]).value.hub && Exec(cfg, run[..i]).value.hub[key].merged
    ensures var s := Exec(cfg, run).value; key in s.hub && s.hub[key].merged
    ensures forall head ::
              var s := Exec(cfg, run).value;
              !Truthful(s, MergeCalled(key, head, Some(Merged))) && !Truthful(s, MergeLost(key, head))
    decreases |run|
  {
    hide Advance;
    if i == |run| {
      assert run[..i] == run;
    } else {
      assert ButLast(run)[..i] == run[..i];
      MergedStaysMerged(cfg, ButLast(run), i, key);
    }
  }

  // ---- Why rows disappear -------------------------------------------------

  /** Every deletion is justified by what the deleting call has just seen or done. */
  lemma DeletionsAreJustified(cfg: Config, run: seq<Move>, tid: nat, key: Key)
    requires run != [] && Exec(cfg, run).Some? && Last(run) == Act(tid, RowDeleted(key, true))
    ensures Exec(cfg, ButLast(run)).Some?
    ensures var s := Exec(cfg, ButLast(run)).value; var own := Own(s.log, tid);
            && Justified(cfg, own, key)
            && (LastPick(own).Some? ==> TookHead(s.log, tid, LastPick(own).value))
  {
    hide Justified, MayDrop, Own, LastPick, TookHead, Advance;
    var s := Exec(cfg, ButLast(run)).value;
    EvidenceHolds(cfg, ButLast(run), tid);
    WorkIsLastPick(cfg, ButLast(run), tid);
    PicksAreHeads(cfg, ButLast(run), tid);
    DeletesFrom(cfg, ThreadOf(s, tid), Own(s.log, tid), Last(run).event);
  }

  lemma DeletesFrom(cfg: Config, t: Thread, own: seq<Event>, e: Event)
    requires Advance(cfg, t, e).Some? && e.RowDeleted? && Tail(cfg, t, own)
    requires Working(t.pc).Some? ==> LastPick(own) == Working(t.pc)
    ensures Justified(cfg, own, e.key)
  {
    hide MergedByUs, SeenGone, NotGreen, RedEvent, Parked, MustPark, ApprovedOpen, LastPick;
  }

  ghost predicate DeletedAt(cfg: Config, run: seq<Move>, j: nat, key: Key) {
    && j < |run| && run[j].Act? && run[j].event == RowDeleted(key, true)
    && Exec(cfg, run[..j]).Some?
    && var s := Exec(cfg, run[..j]).value; var own := Own(s.log, run[j].tid);
       && Justified(cfg, own, key)
       && (LastPick(own).Some? ==> TookHead(s.log, run[j].tid, LastPick(own).value))
  }

  /** Only a deletion takes a row away. */
  lemma OnlyDeletionRemoves(cfg: Config, s: State, move: Move, key: Key)
    requires Enabled(cfg, s, move) && key in s.rows && key !in Step(cfg, s, move).rows
    ensures move.Act? && move.event == RowDeleted(key, true)
  {
    hide Advance;
  }

  /** No landing is silently lost: if a row was in the queue after `i` steps of a run and is
      missing at its end, some step in between deleted it for one of the five reasons. */
  lemma {:induction false} NothingSilentlyLost(cfg: Config, run: seq<Move>, i: nat, key: Key)
    requires Exec(cfg, run).Some? && i <= |run|
    requires Exec(cfg, run[..i]).Some? && key in Exec(cfg, run[..i]).value.rows
    requires key !in Exec(cfg, run).value.rows
    ensures exists j :: i <= j < |run| && DeletedAt(cfg, run, j, key)
    decreases |run|
  {
    hide Advance, Enabled, Step, Own, Justified;
    assert run[..|run|] == run;
    var prior := ButLast(run);
    assert prior[..i] == run[..i];
    var s := Exec(cfg, prior).value;
    if key in s.rows {
      OnlyDeletionRemoves(cfg, s, Last(run), key);
      DeletionsAreJustified(cfg, run, Last(run).tid, key);
      assert DeletedAt(cfg, run, |run| - 1, key);
    } else {
      NothingSilentlyLost(cfg, prior, i, key);
      var j :| i <= j < |prior| && DeletedAt(cfg, prior, j, key);
      assert prior[..j] == run[..j];
      assert DeletedAt(cfg, run, j, key);
    }
  }

  /** An effect that fails never leads to a deletion: the call either ends its kick or moves
      on to another row, and the queue is as it was. */
  lemma FailuresKeepTheRow(cfg: Config, t: Thread, e: Event, table: Table)
    requires Advance(cfg, t, e).Some? && IsFailure(e)
    ensures OnTable(table, e) == table
    ensures var pc := Advance(cfg, t, e).value.pc; pc.Stopped? || pc.PickNext? || pc.SweepRead?
  {
  }

  /** Switched off, the coordinator has no effect at all. */
  lemma {:induction false} DisabledDoesNothing(cfg: Config, run: seq<Move>)
    requires !cfg.enabled && Exec(cfg, run).Some?
    ensures var s := Exec(cfg, run).value;
            && s.rows == map[]
            && (forall i :: 0 <= i < |s.log| ==> s.log[i].event.Called?)
            && (forall tid :: ThreadOf(s, tid) == Fresh || ThreadOf(s, tid) == Done)
  {
    if run != [] {
      DisabledDoesNothing(cfg, ButLast(run));
      var s := Exec(cfg, ButLast(run)).value;
      var s' := Exec(cfg, run).value;
      forall tid
        ensures ThreadOf(s', tid) == Fresh || ThreadOf(s', tid) == Done
      {
        assert ThreadOf(s, tid) == Fresh || ThreadOf(s, tid) == Done;
      }
    }
  }
}
