/** The merge coordinator as a transition system: what a call does next after each answer it
    gets, and what any number of concurrent calls do to the shared queue and to GitHub.

    A call is a `Thread`: a program point with the values it still needs. Each step of a call
    is one effect (a store statement, a GitHub call or a tracker call) with its answer, an
    `Event`; everything between two effects is local. Another call, or GitHub itself, may act
    between any two events. */
module LandingProgram {
  import opened Prelude
  import opened CheckGate
  import opened Storage

  datatype Config = Config(enabled: bool, required: seq<string>, maxCycles: nat, needsFixes: string)

  /** What `GET /pulls/{n}` tells the coordinator. */
  datatype PrView = PrView(head: string, merged: bool, state: string, mergeable: string)

  /** Merged or closed: nothing is left to land. */
  predicate IsGone(v: PrView) {
    v.merged || v.state == "closed"
  }

  datatype UpdateOutcome = Accepted | Stale | BranchConflict

  datatype MergeOutcome = Merged | NotMergeable | ShaMismatch

  datatype Mergeability = Ready | Behind | Dirty | Wait

  function Classify(mergeable: string): Mergeability {
    if mergeable == "behind" then Behind
    else if mergeable == "dirty" then Dirty
    else if mergeable == "draft" || mergeable == "unknown" then Wait
    else Ready
  }

  /** The four entry points. */
  datatype Call = Approval(key: Key) | GreenCi(key: Key) | RedCi(key: Key) | Boot

  /** One effect with its answer; `None` and `ok == false` are error returns. */
  datatype Event =
    | Called(call: Call)
    | TicketLooked(key: Key, found: Option<Option<string>>)
    | RowInserted(key: Key, ticket: string, head: string, now: int, ok: bool)
    | RowLooked(key: Key, present: Option<bool>)
    | RowsListed(landings: Option<seq<Landing>>)
    | HeadPicked(repo: string, landing: Option<Option<Landing>>)
    | RowAdvanced(key: Key, status: Status, head: string, attempt: nat, now: int, ok: bool)
    | RowDeleted(key: Key, ok: bool)
    | PrRead(key: Key, view: Option<PrView>)
    | ChecksRead(repo: string, head: string, summary: Option<Summary>)
    | BranchUpdated(key: Key, head: string, outcome: Option<UpdateOutcome>)
    | MergeCalled(key: Key, head: string, merge: Option<MergeOutcome>)
    | UpdateLost(key: Key, head: string)   // an error to the caller, but GitHub took the update
    | MergeLost(key: Key, head: string)    // an error to the caller, but GitHub merged
    | FieldWritten(ticket: string, ok: bool)
    | TicketMoved(ticket: string, state: string, ok: bool)
    | PrTouched(key: Key, ok: bool)   // a label or comment call, tolerated when it fails
    | Crashed

  datatype Pc =
    | Idle
    | Stopped
    // enqueue_on_approval
    | LookupTicket(key: Key)
    | ReadApproved(key: Key, ticket: string)
    | InsertRow(key: Key, ticket: string, head: string)
    // on_ci_green, on_ci_red
    | LookupGreen(key: Key)
    | LookupRed(key: Key)
    | DropRed(key: Key)
    // reconcile_on_boot; `todo[0]` is the landing under inspection
    | ListRows
    | SweepRead(todo: seq<Landing>)
    | SweepDrop(todo: seq<Landing>)
    | SweepRearm(todo: seq<Landing>, head: string)
    // kick: a named repo, or any repo still to be kicked after a boot sweep
    | PickHead(repo: string)
    | PickNext
    // advance_one, advance_behind, advance_ready
    | ReadPr(l: Landing)
    | UpdateBranch(l: Landing, head: string)
    | ReadChecks(l: Landing, head: string)
    | MarkMerging(l: Landing, head: string)
    | CallMerge(l: Landing, head: string)
    | Settle(l: Landing, status: Status, head: string, attempt: nat)
    | Drop(l: Landing)
    // park
    | ParkField(l: Landing)
    | ParkMove(l: Landing)
    | ParkLabel(l: Landing)
    | ParkUnlabel(l: Landing)
    | ParkComment(l: Landing)

  /** `rest` holds the repos a boot call still has to kick. */
  datatype Thread = Thread(pc: Pc, rest: set<string>)

  const Fresh: Thread := Thread(Idle, {})
  const Done: Thread := Thread(Stopped, {})

  /** Where a call goes when the kick it is in ends. */
  function KickEnd(rest: set<string>): Thread {
    if rest == {} then Done else Thread(PickNext, rest)
  }

  function ReposOf(ls: seq<Landing>): set<string> {
    set i | 0 <= i < |ls| :: ls[i].key.repo
  }

  /** Where a boot sweep goes after the first landing of `todo`. */
  function SweepOn(todo: seq<Landing>, rest: set<string>): Thread
    requires todo != []
  {
    if |todo| == 1 then KickEnd(rest) else Thread(SweepRead(todo[1..]), rest)
  }

  function Entry(cfg: Config, call: Call): Thread {
    if !cfg.enabled then Done
    else match call
      case Approval(key) => Thread(LookupTicket(key), {})
      case GreenCi(key) => Thread(LookupGreen(key), {})
      case RedCi(key) => Thread(LookupRed(key), {})
      case Boot => Thread(ListRows, {})
  }

  /** `advance_one` after it has read the pull request. */
  function AfterRead(cfg: Config, l: Landing, v: PrView): Pc {
    if IsGone(v) then Drop(l)
    else match Classify(v.mergeable)
      case Dirty => ParkField(l)
      case Behind => if l.row.attempt >= cfg.maxCycles then ParkField(l) else UpdateBranch(l, v.head)
      case Wait => Settle(l, AwaitingCi, v.head, l.row.attempt)
      case Ready => ReadChecks(l, v.head)
  }

  /** `kick` after it has asked for the head of a repo's queue. */
  function AfterPick(landing: Option<Option<Landing>>, rest: set<string>): Thread {
    match landing
    case Some(Some(l)) => Thread(ReadPr(l), rest)
    case _ => KickEnd(rest)
  }

  predicate InEntry(pc: Pc) {
    pc.LookupTicket? || pc.ReadApproved? || pc.InsertRow? || pc.LookupGreen? || pc.LookupRed? || pc.DropRed?
  }

  predicate InSweep(pc: Pc) {
    pc.ListRows? || pc.SweepRead? || pc.SweepDrop? || pc.SweepRearm?
  }

  predicate InPark(pc: Pc) {
    pc.ParkField? || pc.ParkMove? || pc.ParkLabel? || pc.ParkUnlabel? || pc.ParkComment?
  }

  /** `enqueue_on_approval`, `on_ci_green` and `on_ci_red` up to their kick. */
  function AdvanceEntry(t: Thread, e: Event): Option<Thread>
    requires InEntry(t.pc)
  {
    match t.pc
    case LookupTicket(key) =>
      if !(e.TicketLooked? && e.key == key) then None
      else (match e.found
            case Some(Some(ticket)) => Some(Thread(ReadApproved(key, ticket), {}))
            case _ => Some(Done))
    case ReadApproved(key, ticket) =>
      if !(e.PrRead? && e.key == key) then None
      else if e.view.None? || e.view.value.merged then Some(Done)
      else Some(Thread(InsertRow(key, ticket, e.view.value.head), {}))
    case InsertRow(key, ticket, head) =>
      if !(e.RowInserted? && e.key == key && e.ticket == ticket && e.head == head) then None
      else Some(if e.ok then Thread(PickHead(key.repo), {}) else Done)
    case LookupGreen(key) =>
      if !(e.RowLooked? && e.key == key) then None
      else Some(if e.present == Some(true) then Thread(PickHead(key.repo), {}) else Done)
    case LookupRed(key) =>
      if !(e.RowLooked? && e.key == key) then None
      else (match e.present
            case None => Some(Done)
            case Some(here) => Some(Thread(if here then DropRed(key) else PickHead(key.repo), {})))
    case DropRed(key) =>
      if !(e.RowDeleted? && e.key == key) then None
      else Some(if e.ok then Thread(PickHead(key.repo), {}) else Done)
  }

  /** `reconcile_on_boot` up to its kicks. */
  function AdvanceSweep(t: Thread, e: Event): Option<Thread>
    requires InSweep(t.pc)
  {
    match t.pc
    case ListRows =>
      if !e.RowsListed? then None
      else if e.landings.None? || e.landings.value == [] then Some(Done)
      else Some(Thread(SweepRead(e.landings.value), ReposOf(e.landings.value)))
    case SweepRead(todo) =>
      if !(todo != [] && e.PrRead? && e.key == todo[0].key) then None
      else (match e.view
            case None => Some(SweepOn(todo, t.rest))
            case Some(v) =>
              if IsGone(v) then Some(t.(pc := SweepDrop(todo)))
              else if v.head != todo[0].row.head then Some(t.(pc := SweepRearm(todo, v.head)))
              else Some(SweepOn(todo, t.rest)))
    case SweepDrop(todo) =>
      if !(todo != [] && e.RowDeleted? && e.key == todo[0].key) then None
      else Some(if e.ok then SweepOn(todo, t.rest) else Done)
    case SweepRearm(todo, head) =>
      if !(todo != [] && e.RowAdvanced? && e.key == todo[0].key && e.status == AwaitingCi
           && e.head == head && e.attempt == todo[0].row.attempt) then None
      else Some(if e.ok then SweepOn(todo, t.rest) else Done)
  }

  /** `park`. */
  function AdvancePark(cfg: Config, t: Thread, e: Event): Option<Thread>
    requires InPark(t.pc)
  {
    match t.pc
    case ParkField(l) =>
      if !(e.FieldWritten? && e.ticket == l.row.ticket) then None
      else Some(if e.ok then t.(pc := ParkMove(l)) else KickEnd(t.rest))
    case ParkMove(l) =>
      if !(e.TicketMoved? && e.ticket == l.row.ticket && e.state == cfg.needsFixes) then None
      else Some(if e.ok then t.(pc := ParkLabel(l)) else KickEnd(t.rest))
    case ParkLabel(l) =>
      if !(e.PrTouched? && e.key == l.key) then None else Some(t.(pc := ParkUnlabel(l)))
    case ParkUnlabel(l) =>
      if !(e.PrTouched? && e.key == l.key) then None else Some(t.(pc := ParkComment(l)))
    case ParkComment(l) =>
      if !(e.PrTouched? && e.key == l.key) then None else Some(t.(pc := Drop(l)))
  }

  /** `kick`, `advance_one`, `advance_behind` and `advance_ready`. */
  function AdvanceKick(cfg: Config, t: Thread, e: Event): Option<Thread>
    requires !t.pc.Idle? && !t.pc.Stopped? && !InEntry(t.pc) && !InSweep(t.pc) && !InPark(t.pc)
  {
    match t.pc
    case PickHead(repo) =>
      if !(e.HeadPicked? && e.repo == repo) then None
      else Some(AfterPick(e.landing, t.rest))
    case PickNext =>
      if !(e.HeadPicked? && e.repo in t.rest) then None
      else Some(AfterPick(e.landing, t.rest - {e.repo}))
    case ReadPr(l) =>
      if !(e.PrRead? && e.key == l.key) then None
      else Some(if e.view.None? then KickEnd(t.rest) else t.(pc := AfterRead(cfg, l, e.view.value)))
    case UpdateBranch(l, head) =>
      if e == UpdateLost(l.key, head) then Some(KickEnd(t.rest))
      else if !(e.BranchUpdated? && e.key == l.key && e.head == head) then None
      else (match e.outcome
            case None => Some(KickEnd(t.rest))
            case Some(Accepted) => Some(t.(pc := Settle(l, Updating, head, l.row.attempt + 1)))
            case Some(Stale) => Some(t.(pc := Settle(l, AwaitingCi, head, l.row.attempt)))
            case Some(BranchConflict) => Some(t.(pc := ParkField(l))))
    case ReadChecks(l, head) =>
      if !(e.ChecksRead? && e.repo == l.key.repo && e.head == head) then None
      else (match e.summary
            case None => Some(KickEnd(t.rest))
            case Some(s) =>
              if s.anyPending then Some(t.(pc := Settle(l, AwaitingCi, head, l.row.attempt)))
              else if !IsGreen(s, cfg.required) then Some(t.(pc := Drop(l)))
              else Some(t.(pc := MarkMerging(l, head))))
    case MarkMerging(l, head) =>
      if !(e.RowAdvanced? && e.key == l.key && e.status == Merging
           && e.head == head && e.attempt == l.row.attempt) then None
      else Some(if e.ok then t.(pc := CallMerge(l, head)) else KickEnd(t.rest))
    case CallMerge(l, head) =>
      if e == MergeLost(l.key, head) then Some(KickEnd(t.rest))
      else if !(e.MergeCalled? && e.key == l.key && e.head == head) then None
      else (match e.merge
            case None => Some(KickEnd(t.rest))
            case Some(Merged) => Some(t.(pc := Drop(l)))
            case Some(_) => Some(t.(pc := Settle(l, AwaitingCi, head, l.row.attempt))))
    case Settle(l, status, head, attempt) =>
      if !(e.RowAdvanced? && e.key == l.key && e.status == status
           && e.head == head && e.attempt == attempt) then None
      else Some(KickEnd(t.rest))
    case Drop(l) =>
      if !(e.RowDeleted? && e.key == l.key) then None
      else Some(if e.ok then t.(pc := PickHead(l.key.repo)) else KickEnd(t.rest))
  }

  /** The thread after `e`, or None when `e` is not what the thread does next. */
  function Advance(cfg: Config, t: Thread, e: Event): Option<Thread> {
    if t.pc.Idle? then
      if e.Called? then Some(Entry(cfg, e.call)) else None
    else if t.pc.Stopped? then None
    else if e.Crashed? then Some(Done)
    else if InEntry(t.pc) then AdvanceEntry(t, e)
    else if InSweep(t.pc) then AdvanceSweep(t, e)
    else if InPark(t.pc) then AdvancePark(cfg, t, e)
    else AdvanceKick(cfg, t, e)
  }

  /** The landing a call is working on. */
  function Working(pc: Pc): Option<Landing> {
    match pc
    case ReadPr(l) => Some(l)
    case UpdateBranch(l, _) => Some(l)
    case ReadChecks(l, _) => Some(l)
    case MarkMerging(l, _) => Some(l)
    case CallMerge(l, _) => Some(l)
    case Settle(l, _, _, _) => Some(l)
    case Drop(l) => Some(l)
    case ParkField(l) => Some(l)
    case ParkMove(l) => Some(l)
    case ParkLabel(l) => Some(l)
    case ParkUnlabel(l) => Some(l)
    case ParkComment(l) => Some(l)
    case _ => None
  }

  /** The effect came back with an error. Label and comment calls are tolerated. */
  predicate IsFailure(e: Event) {
    match e
    case TicketLooked(_, found) => found.None?
    case PrRead(_, view) => view.None?
    case ChecksRead(_, _, summary) => summary.None?
    case BranchUpdated(_, _, outcome) => outcome.None?
    case MergeCalled(_, _, merge) => merge.None?
    case UpdateLost(_, _) => true
    case MergeLost(_, _) => true
    case FieldWritten(_, ok) => !ok
    case TicketMoved(_, _, ok) => !ok
    case _ => IsStoreFailure(e)
  }

  predicate IsStoreFailure(e: Event) {
    match e
    case RowInserted(_, _, _, _, ok) => !ok
    case RowLooked(_, present) => present.None?
    case RowsListed(landings) => landings.None?
    case HeadPicked(_, landing) => landing.None?
    case RowAdvanced(_, _, _, _, _, ok) => !ok
    case RowDeleted(_, ok) => !ok
    case _ => false
  }

  /** How many of these effects failed. */
  function Failures(events: seq<Event>): nat {
    if events == [] then 0 else Failures(ButLast(events)) + if IsFailure(Last(events)) then 1 else 0
  }

  function StoreFailures(events: seq<Event>): nat {
    if events == [] then 0 else StoreFailures(ButLast(events)) + if IsStoreFailure(Last(events)) then 1 else 0
  }

  lemma {:induction false} NoFailures(events: seq<Event>)
    ensures Failures(events) == 0 <==> forall i :: 0 <= i < |events| ==> !IsFailure(events[i])
  {
    hide IsFailure;
    if events != [] {
      NoFailures(ButLast(events));
      if Failures(events) == 0 {
        forall i | 0 <= i < |events|
          ensures !IsFailure(events[i])
        {
          assert i < |events| - 1 ==> !IsFailure(ButLast(events)[i]);
        }
      } else if Failures(ButLast(events)) > 0 {
        var i :| 0 <= i < |ButLast(events)| && IsFailure(ButLast(events)[i]);
        assert IsFailure(events[i]);
      }
    }
  }

  lemma FailuresSnoc(events: seq<Event>, e: Event)
    ensures Failures(events + [e]) == Failures(events) + if IsFailure(e) then 1 else 0
    ensures StoreFailures(events + [e]) == StoreFailures(events) + if IsStoreFailure(e) then 1 else 0
    ensures Turns(events + [e]) == Turns(events) + if EndsTurn(e) then 1 else 0
  {
    hide IsFailure, IsStoreFailure, EndsTurn;
    assert ButLast(events + [e]) == events;
  }

  /** The call turns to another landing, or is gone. */
  predicate EndsTurn(e: Event) {
    e.HeadPicked? || e.Crashed?
  }

  function Turns(events: seq<Event>): nat {
    if events == [] then 0 else Turns(ButLast(events)) + if EndsTurn(Last(events)) then 1 else 0
  }

  /** Where a fresh call stands after performing exactly `events`, if it can. */
  function Follow(cfg: Config, events: seq<Event>): Option<Thread> {
    if events == [] then Some(Fresh)
    else match Follow(cfg, ButLast(events))
      case None => None
      case Some(t) => Advance(cfg, t, Last(events))
  }

  // ---- Any number of concurrent calls -----------------------------------

  /** Who did it, and what was done. */
  datatype Logged = Logged(tid: nat, event: Event)

  datatype State = State(rows: Table, hub: map<Key, PrView>, threads: map<nat, Thread>, log: seq<Logged>)

  datatype Move =
    | Act(tid: nat, event: Event)
    | HubMoves(hub: map<Key, PrView>)   // pushes, human merges, closes, mergeability changes

  const Initial: State := State(map[], map[], map[], [])

  function ThreadOf(s: State, tid: nat): Thread {
    if tid in s.threads then s.threads[tid] else Fresh
  }

  /** What an effect does to the queue. */
  function OnTable(t: Table, e: Event): Table {
    match e
    case RowInserted(key, ticket, head, now, ok) => if ok then Enqueued(t, key, ticket, head, now) else t
    case RowAdvanced(key, status, head, attempt, now, ok) =>
      if ok then Advanced(t, key, status, head, attempt, now) else t
    case RowDeleted(key, ok) => if ok then Dequeued(t, key) else t
    case _ => t
  }

  /** GitHub merged, whether or not the caller learnt of it. */
  predicate IsMerge(e: Event) {
    (e.MergeCalled? && e.merge == Some(Merged)) || e.MergeLost?
  }

  function OnHub(hub: map<Key, PrView>, e: Event): map<Key, PrView> {
    if IsMerge(e) && e.key in hub then hub[e.key := hub[e.key].(merged := true, state := "closed")] else hub
  }

  /** What the effects of one undisturbed call make of the queue. */
  function OnAll(t: Table, events: seq<Event>): Table {
    if events == [] then t else OnTable(OnAll(t, ButLast(events)), Last(events))
  }

  lemma OnAllSnoc(t: Table, events: seq<Event>, e: Event)
    ensures OnAll(t, events + [e]) == OnTable(OnAll(t, events), e)
  {
    hide OnTable;
    assert ButLast(events + [e]) == events;
  }

  predicate CanMerge(hub: map<Key, PrView>, key: Key, head: string) {
    key in hub && !IsGone(hub[key]) && hub[key].head == head
  }

  /** Answers agree with the shared state at the moment of the call. GitHub's merge is a
      compare-and-set: it succeeds only on an open pull request whose head is the given commit.
      Check summaries and branch updates may answer anything. */
  ghost predicate Truthful(s: State, e: Event) {
    match e
    case RowLooked(key, Some(present)) => present == (key in s.rows)
    case RowsListed(Some(ls)) => IsListing(s.rows, ls)
    case HeadPicked(repo, Some(h)) => IsHead(s.rows, repo, h)
    case PrRead(key, Some(v)) => key in s.hub && s.hub[key] == v
    case MergeCalled(key, head, Some(Merged)) => CanMerge(s.hub, key, head)
    case MergeLost(key, head) => CanMerge(s.hub, key, head)
    case _ => true
  }

  /** GitHub may do anything except un-merge a pull request. */
  ghost predicate HubMay(hub: map<Key, PrView>, hub': map<Key, PrView>) {
    forall k | k in hub && hub[k].merged :: k in hub' && hub'[k].merged
  }

  ghost predicate Enabled(cfg: Config, s: State, move: Move) {
    match move
    case Act(tid, e) => Advance(cfg, ThreadOf(s, tid), e).Some? && Truthful(s, e)
    case HubMoves(hub) => HubMay(s.hub, hub)
  }

  function Step(cfg: Config, s: State, move: Move): State {
    match move
    case HubMoves(hub) => s.(hub := hub)
    case Act(tid, e) =>
      match Advance(cfg, ThreadOf(s, tid), e)
      case None => s
      case Some(t) => State(OnTable(s.rows, e), OnHub(s.hub, e), s.threads[tid := t], s.log + [Logged(tid, e)])
  }

  /** The state after a run from the empty queue; None when some step of it is impossible. */
  ghost function Exec(cfg: Config, run: seq<Move>): Option<State> {
    if run == [] then Some(Initial)
    else match Exec(cfg, ButLast(run))
      case None => None
      case Some(s) => if Enabled(cfg, s, Last(run)) then Some(Step(cfg, s, Last(run))) else None
  }

  /** The events of one call, in order. */
  function Own(log: seq<Logged>, tid: nat): seq<Event> {
    if log == [] then []
    else Own(ButLast(log), tid) + if Last(log).tid == tid then [Last(log).event] else []
  }

  /** The queue that a log of effects leaves behind. */
  function Replay(log: seq<Logged>): Table {
    if log == [] then map[] else OnTable(Replay(ButLast(log)), Last(log).event)
  }

  lemma OwnSnoc(log: seq<Logged>, x: Logged, tid: nat)
    ensures Own(log + [x], tid) == if x.tid == tid then Own(log, tid) + [x.event] else Own(log, tid)
  {
    assert ButLast(log + [x]) == log;
  }

  lemma FollowSnoc(cfg: Config, events: seq<Event>, e: Event)
    requires Follow(cfg, events).Some?
    ensures Follow(cfg, events + [e]) == Advance(cfg, Follow(cfg, events).value, e)
  {
    hide Advance;
    assert ButLast(events + [e]) == events;
  }

  /** The threads after one step: the acting one has advanced, the others stand still. */
  lemma StepThreads(cfg: Config, s: State, move: Move, tid: nat)
    requires Enabled(cfg, s, move)
    ensures Step(cfg, s, move).log == if move.Act? then s.log + [Logged(move.tid, move.event)] else s.log
    ensures Step(cfg, s, move).rows == if move.Act? then OnTable(s.rows, move.event) else s.rows
    ensures ThreadOf(Step(cfg, s, move), tid)
            == if move.Act? && tid == move.tid then Advance(cfg, ThreadOf(s, tid), move.event).value
               else ThreadOf(s, tid)
  {
    hide Advance, Truthful, OnTable, OnHub;
  }

  /** In every reachable state each call has done exactly what its program says, whatever the
      others did in between. */
  lemma {:induction false} CallsFollowTheProgram(cfg: Config, run: seq<Move>, tid: nat)
    requires Exec(cfg, run).Some?
    ensures var s := Exec(cfg, run).value; Follow(cfg, Own(s.log, tid)) == Some(ThreadOf(s, tid))
  {
    hide Advance, Enabled, Step, Follow, Own, ThreadOf;
    if run == [] {
      InitiallyFresh(cfg, tid);
    } else {
      CallsFollowTheProgram(cfg, ButLast(run), tid);
      var s, move := Exec(cfg, ButLast(run)).value, Last(run);
      StepThreads(cfg, s, move, tid);
      if move.Act? {
        OwnSnoc(s.log, Logged(move.tid, move.event), tid);
        if tid == move.tid {
          ActorAdvances(cfg, s, move);
          FollowSnoc(cfg, Own(s.log, tid), move.event);
        }
      }
    }
  }

  lemma InitiallyFresh(cfg: Config, tid: nat)
    ensures Follow(cfg, Own(Initial.log, tid)) == Some(ThreadOf(Initial, tid)) == Some(Fresh)
  {
  }

  lemma ActorAdvances(cfg: Config, s: State, move: Move)
    requires Enabled(cfg, s, move) && move.Act?
    ensures Advance(cfg, ThreadOf(s, move.tid), move.event).Some?
  {
    hide Advance;
  }

  /** ... and the queue is what the logged effects made of it. */
  lemma {:induction false} LogExplainsQueue(cfg: Config, run: seq<Move>)
    requires Exec(cfg, run).Some?
    ensures Exec(cfg, run).value.rows == Replay(Exec(cfg, run).value.log)
  {
    hide Advance, Enabled, Step, OnTable;
    if run != [] {
      LogExplainsQueue(cfg, ButLast(run));
      var s, move := Exec(cfg, ButLast(run)).value, Last(run);
      StepThreads(cfg, s, move, 0);
      if move.Act? {
        var log' := s.log + [Logged(move.tid, move.event)];
        assert ButLast(log') == s.log && Last(log') == Logged(move.tid, move.event);
      }
    }
  }
}
