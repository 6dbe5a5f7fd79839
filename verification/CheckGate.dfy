/** The check-run summary of a head commit and the gates read off it. */
module CheckGate {
  import opened Prelude

  /** One check run; `conclusion` is absent while the run is unfinished. */
  datatype CheckRun = CheckRun(name: string, conclusion: Option<string>)

  datatype Summary = Summary(failed: seq<string>, passed: seq<string>, anyPending: bool)

  /** The conclusions GitHub reports for a run that did not pass. */
  predicate IsFailed(conclusion: string) {
    conclusion == "failure" || conclusion == "cancelled"
    || conclusion == "timed_out" || conclusion == "action_required"
  }

  predicate AllPassed(s: Summary) {
    !s.anyPending && s.failed == [] && s.passed != []
  }

  predicate IsGreen(s: Summary, required: seq<string>) {
    if s.anyPending then false
    else if required == [] then AllPassed(s)
    else forall r | r in required :: r in s.passed && r !in s.failed
  }

  predicate RequiredFailed(s: Summary, required: seq<string>) {
    if required == [] then s.failed != []
    else exists r | r in required :: r in s.failed
  }

  function ToAsciiLower(s: string): (r: string)
    ensures |r| == |s|
  {
    seq(|s|, i requires 0 <= i < |s| =>
      if 'A' <= s[i] <= 'Z' then s[i] - 'A' + 'a' else s[i])
  }

  /** A run that finished with a failing (passing) conclusion. */
  predicate Fails(run: CheckRun) {
    run.conclusion.Some? && IsFailed(ToAsciiLower(run.conclusion.value))
  }

  predicate Passes(run: CheckRun) {
    run.conclusion.Some? && !IsFailed(ToAsciiLower(run.conclusion.value))
  }

  function NamesWhere(runs: seq<CheckRun>, keep: CheckRun -> bool): seq<string> {
    if runs == [] then []
    else NamesWhere(ButLast(runs), keep) + if keep(Last(runs)) then [Last(runs).name] else []
  }

  /** A name is selected exactly when some selected run carries it. */
  lemma {:induction false} NamesWhereMember(runs: seq<CheckRun>, keep: CheckRun -> bool, name: string)
    ensures name in NamesWhere(runs, keep) <==> exists i :: 0 <= i < |runs| && keep(runs[i]) && runs[i].name == name
  {
    if runs != [] {
      NamesWhereMember(ButLast(runs), keep, name);
      var prior := ButLast(runs);
      assert forall i :: 0 <= i < |prior| ==> prior[i] == runs[i];
      if name in NamesWhere(prior, keep) {
        var i :| 0 <= i < |prior| && keep(prior[i]) && prior[i].name == name;
        assert keep(runs[i]) && runs[i].name == name;
      }
      if keep(Last(runs)) && Last(runs).name == name {
        assert keep(runs[|runs| - 1]) && runs[|runs| - 1].name == name;
      }
    }
  }

  // ---- What counts as a failure, said of the runs themselves ---------------

  predicate IsLetterUp(upper: char, lower: char) {
    'A' <= upper <= 'Z' && lower as int == upper as int + 32
  }

  /** The same text, but for the case of ASCII letters. */
  predicate SameButCase(a: string, b: string) {
    |a| == |b| && forall i :: 0 <= i < |a| ==> a[i] == b[i] || IsLetterUp(a[i], b[i]) || IsLetterUp(b[i], a[i])
  }

  predicate FinishedBadly(run: CheckRun) {
    run.conclusion.Some?
    && var c := run.conclusion.value;
       SameButCase(c, "failure") || SameButCase(c, "cancelled") || SameButCase(c, "timed_out")
       || SameButCase(c, "action_required")
  }

  predicate FinishedWell(run: CheckRun) {
    run.conclusion.Some? && !FinishedBadly(run)
  }

  lemma LowerIs(c: string, word: string)
    requires forall i :: 0 <= i < |word| ==> !('A' <= word[i] <= 'Z')
    ensures ToAsciiLower(c) == word <==> SameButCase(c, word)
  {
    var l := ToAsciiLower(c);
    if SameButCase(c, word) {
      assert forall i :: 0 <= i < |word| ==> l[i] == word[i];
    }
    if l == word {
      forall i | 0 <= i < |c|
        ensures c[i] == word[i] || IsLetterUp(c[i], word[i])
      {
        assert l[i] == word[i];
      }
    }
  }

  lemma FailsMeans(run: CheckRun)
    ensures Fails(run) <==> FinishedBadly(run)
    ensures Passes(run) <==> FinishedWell(run)
  {
    hide SameButCase, ToAsciiLower;
    if run.conclusion.Some? {
      var c := run.conclusion.value;
      LowerIs(c, "failure");
      LowerIs(c, "cancelled");
      LowerIs(c, "timed_out");
      LowerIs(c, "action_required");
    }
  }

  ghost predicate Ended(runs: seq<CheckRun>, name: string, bad: bool) {
    exists i :: 0 <= i < |runs| && runs[i].name == name && if bad then FinishedBadly(runs[i]) else FinishedWell(runs[i])
  }

  /** The summary says of each name what the runs of that name say. */
  ghost predicate Sums(runs: seq<CheckRun>, s: Summary) {
    && (forall name: string :: name in s.failed <==> Ended(runs, name, true))
    && (forall name: string :: name in s.passed <==> Ended(runs, name, false))
    && (s.anyPending <==> exists i :: 0 <= i < |runs| && runs[i].conclusion.None?)
  }

  lemma NamesMean(runs: seq<CheckRun>, name: string)
    ensures name in NamesWhere(runs, Fails) <==> Ended(runs, name, true)
    ensures name in NamesWhere(runs, Passes) <==> Ended(runs, name, false)
  {
    hide Fails, Passes, FinishedBadly, FinishedWell, NamesWhere;
    NamesWhereMember(runs, Fails, name);
    NamesWhereMember(runs, Passes, name);
    forall i | 0 <= i < |runs|
      ensures Fails(runs[i]) <==> FinishedBadly(runs[i])
      ensures Passes(runs[i]) <==> FinishedWell(runs[i])
    {
      FailsMeans(runs[i]);
    }
  }

  /** Folds the runs of one commit: names split by outcome in listing order,
      and a flag for unfinished runs. */
  method Summarize(runs: seq<CheckRun>) returns (s: Summary)
    ensures s.failed == NamesWhere(runs, Fails)
    ensures s.passed == NamesWhere(runs, Passes)
    ensures Sums(runs, s)
  {
    var failed, passed, pending := [], [], false;
    var i := 0;
    assert runs[..0] == [];
    while i < |runs|
      invariant 0 <= i <= |runs|
      invariant failed == NamesWhere(runs[..i], Fails)
      invariant passed == NamesWhere(runs[..i], Passes)
      invariant pending <==> exists k :: 0 <= k < i && runs[k].conclusion.None?
    {
      assert ButLast(runs[..i + 1]) == runs[..i] && Last(runs[..i + 1]) == runs[i];
      match runs[i].conclusion {
        case None => pending := true;
        case Some(raw) =>
          if IsFailed(ToAsciiLower(raw)) {
            failed := failed + [runs[i].name];
          } else {
            passed := passed + [runs[i].name];
          }
      }
      i := i + 1;
    }
    assert runs[..|runs|] == runs;
    s := Summary(failed, passed, pending);
    forall name: string
      ensures name in failed <==> Ended(runs, name, true)
      ensures name in passed <==> Ended(runs, name, false)
    {
      NamesMean(runs, name);
    }
  }

  /** The gate, read off the runs: everything has finished and, of the required names, each one
      well and none badly; with no required names nothing has finished badly and something well. A
      gating failure is a run that finished badly, of a required name where there are any. */
  lemma GreenRuns(runs: seq<CheckRun>, s: Summary, required: seq<string>)
    requires Sums(runs, s)
    ensures IsGreen(s, required) <==>
            && (forall i :: 0 <= i < |runs| ==> runs[i].conclusion.Some?)
            && if required == []
               then (forall i :: 0 <= i < |runs| ==> !FinishedBadly(runs[i]))
                    && exists i :: 0 <= i < |runs| && FinishedWell(runs[i])
               else forall r | r in required :: Ended(runs, r, false) && !Ended(runs, r, true)
    ensures RequiredFailed(s, required) <==>
            exists i :: 0 <= i < |runs| && FinishedBadly(runs[i]) && (required == [] || runs[i].name in required)
  {
    hide FinishedBadly, FinishedWell;
    if required == [] && s.failed != [] {
      assert s.failed[0] in s.failed && Ended(runs, s.failed[0], true);
    }
    if required != [] && RequiredFailed(s, required) {
      var r :| r in required && r in s.failed;
      assert Ended(runs, r, true);
    }
    if i: nat :| i < |runs| && FinishedBadly(runs[i]) && (required == [] || runs[i].name in required) {
      assert Ended(runs, runs[i].name, true);
      assert runs[i].name in s.failed;
    }
    if required == [] {
      if i: nat :| i < |runs| && FinishedBadly(runs[i]) {
        assert Ended(runs, runs[i].name, true);
      }
      if s.passed != [] {
        assert s.passed[0] in s.passed && Ended(runs, s.passed[0], false);
      }
      if i: nat :| i < |runs| && FinishedWell(runs[i]) {
        assert Ended(runs, runs[i].name, false);
      }
    }
  }

  // ---- The three-way verdict of the feedback loop ---------------------

  datatype Verdict = Green | Pending | Red

  /** The order of tests in the feedback loop: pending suite, green, no gating failure, red. */
  function VerdictOf(s: Summary, required: seq<string>): Verdict {
    if s.anyPending then Pending
    else if IsGreen(s, required) then Green
    else if !RequiredFailed(s, required) then Pending
    else Red
  }

  /** What each verdict says about the suite: the two gates are never both open, green means
      every gating name passed and did not also fail, red hands the categorizer at least one
      failed name, and what the merge coordinator accepts for merging is exactly what the
      feedback loop calls green. */
  lemma VerdictMeaning(s: Summary, required: seq<string>)
    ensures !(IsGreen(s, required) && RequiredFailed(s, required))
    ensures VerdictOf(s, required) == Green <==> IsGreen(s, required)
    ensures required != [] ==>
              (VerdictOf(s, required) == Green <==>
               !s.anyPending && (set r | r in required) <= (set p | p in s.passed) - (set f | f in s.failed))
    ensures VerdictOf(s, required) == Red ==> s.failed != [] && !s.anyPending
    ensures VerdictOf(s, required) == Red <==> !s.anyPending && RequiredFailed(s, required)
  {
    if required != [] {
      var names, ok := set r | r in required, (set p | p in s.passed) - (set f | f in s.failed);
      if VerdictOf(s, required) == Green {
        assert forall r | r in names :: r in s.passed && r !in s.failed;
      }
      if !s.anyPending && names <= ok {
        forall r | r in required
          ensures r in s.passed && r !in s.failed
        {
          assert r in names;
        }
      }
    }
  }

  /** With a named gate, checks outside it change nothing, and asking for more names can only
      close the gate. */
  lemma GreenIgnoresOthersAndIsAntitone(s: Summary, s': Summary, required: seq<string>, more: seq<string>)
    requires required != [] && s.anyPending == s'.anyPending
    requires forall r | r in required :: (r in s.passed <==> r in s'.passed) && (r in s.failed <==> r in s'.failed)
    requires forall r | r in required :: r in more
    ensures IsGreen(s, required) <==> IsGreen(s', required)
    ensures RequiredFailed(s, required) <==> RequiredFailed(s', required)
    ensures IsGreen(s, more) ==> IsGreen(s, required)
  {
    if RequiredFailed(s, required) {
      var r :| r in required && r in s.failed;
      assert r in s'.failed;
    }
    if RequiredFailed(s', required) {
      var r :| r in required && r in s'.failed;
      assert r in s.failed;
    }
  }

  /** The empty gate is not below the named ones: adding the first required name can turn a
      suite green that was not, because other failures stop counting. */
  lemma FirstRequiredNameCanOpenTheGate()
    ensures var s := Summary(["lint"], ["build"], false);
            !IsGreen(s, []) && IsGreen(s, ["build"])
  {
  }

  // ---- Failure categories ---------------------------------------------

  /** A failure category. The check pattern is any predicate on check names. */
  datatype Category = Category(name: string, pattern: Option<string -> bool>, target: string, priority: int)

  predicate Hits(failed: seq<string>, c: Category) {
    c.pattern.Some? && exists n | n in failed :: c.pattern.value(n)
  }

  /** One failed check that the pattern takes is enough, wherever it is in the list. */
  lemma OneHitIsEnough(failed: seq<string>, c: Category, i: nat)
    requires i < |failed| && c.pattern.Some? && c.pattern.value(failed[i])
    ensures Hits(failed, c) && Hits([failed[i]], c)
    ensures !Hits([], c) && !Hits(failed, c.(pattern := None))
  {
    assert [failed[i]][0] == failed[i];
  }

  /** `k` is the leftmost category of highest priority among those that match. */
  ghost predicate IsBest(failed: seq<string>, cats: seq<Category>, k: nat) {
    k < |cats| && Hits(failed, cats[k])
    && (forall j :: 0 <= j < |cats| && Hits(failed, cats[j]) ==> cats[j].priority <= cats[k].priority)
    && (forall j :: 0 <= j < k && Hits(failed, cats[j]) ==> cats[j].priority < cats[k].priority)
  }

  /** `k` is the first category called "default", or, failing that, the first of lowest priority. */
  ghost predicate IsDefault(cats: seq<Category>, k: nat) {
    k < |cats|
    && if exists j :: 0 <= j < |cats| && cats[j].name == "default"
       then cats[k].name == "default" && forall j :: 0 <= j < k ==> cats[j].name != "default"
       else (forall j :: 0 <= j < |cats| ==> cats[k].priority <= cats[j].priority)
            && (forall j :: 0 <= j < k ==> cats[k].priority < cats[j].priority)
  }

  method DefaultCategory(cats: seq<Category>) returns (k: nat)
    requires cats != []
    ensures IsDefault(cats, k)
  {
    var i := 0;
    while i < |cats|
      invariant 0 <= i <= |cats|
      invariant forall j :: 0 <= j < i ==> cats[j].name != "default"
    {
      if cats[i].name == "default" {
        return i;
      }
      i := i + 1;
    }
    k := 0;
    i := 1;
    while i < |cats|
      invariant 1 <= i <= |cats| && k < i
      invariant forall j :: 0 <= j < i ==> cats[k].priority <= cats[j].priority
      invariant forall j :: 0 <= j < k ==> cats[k].priority < cats[j].priority
    {
      if cats[i].priority < cats[k].priority {
        k := i;
      }
      i := i + 1;
    }
  }

  /** Picks the index of the category that routes a red build. */
  method Categorize(failed: seq<string>, cats: seq<Category>) returns (k: nat)
    requires cats != []
    ensures k < |cats|
    ensures if exists j :: 0 <= j < |cats| && Hits(failed, cats[j])
            then IsBest(failed, cats, k)
            else IsDefault(cats, k)
  {
    var best: Option<nat> := None;
    var i := 0;
    while i < |cats|
      invariant 0 <= i <= |cats|
      invariant best.None? ==> forall j :: 0 <= j < i ==> !Hits(failed, cats[j])
      invariant best.Some? ==> best.value < i && IsBest(failed, cats[..i], best.value)
    {
      assert forall j :: 0 <= j < i ==> cats[..i][j] == cats[j];
      assert forall j :: 0 <= j < i + 1 ==> cats[..i + 1][j] == cats[j];
      if Hits(failed, cats[i]) {
        if best.Some? && cats[best.value].priority >= cats[i].priority {
        } else {
          best := Some(i);
        }
      }
      i := i + 1;
    }
    assert cats[..|cats|] == cats;
    if best.Some? {
      k := best.value;
    } else {
      k := DefaultCategory(cats);
    }
  }

  /** The selection is unique, so which category a red build gets is decided by the
      configuration alone. */
  lemma BestIsUnique(failed: seq<string>, cats: seq<Category>, j: nat, k: nat)
    ensures IsBest(failed, cats, j) && IsBest(failed, cats, k) ==> j == k
    ensures IsDefault(cats, j) && IsDefault(cats, k) ==> j == k
  {
  }
}
