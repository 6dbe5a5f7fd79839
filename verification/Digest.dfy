/** The failure digest: sanitizing, rendering within a byte budget, and the version gate. */
module Digest {
  import opened Prelude

  // ---- Bytes of a text -----------------------------------------------------

  /** Length of a character in UTF-8. */
  function CharBytes(c: char): (n: nat)
    ensures 1 <= n <= 4
  {
    if c < '\U{80}' then 1 else if c < '\U{800}' then 2 else if c < '\U{10000}' then 3 else 4
  }

  function Bytes(s: string): nat {
    if s == "" then 0 else CharBytes(s[0]) + Bytes(s[1..])
  }

  lemma {:induction false} BytesOfSum(a: string, b: string)
    ensures Bytes(a + b) == Bytes(a) + Bytes(b)
    decreases |a|
  {
    if a == "" {
      assert a + b == b;
    } else {
      assert (a + b)[0] == a[0] && (a + b)[1..] == a[1..] + b;
      BytesOfSum(a[1..], b);
    }
  }

  predicate IsAscii(s: string) {
    forall i :: 0 <= i < |s| ==> s[i] < '\U{80}'
  }

  lemma {:induction false} BytesOfAscii(s: string)
    requires IsAscii(s)
    ensures Bytes(s) == |s|
  {
    if s != "" {
      BytesOfAscii(s[1..]);
    }
  }

  /** A number in decimal. */
  function Dec(n: nat): (s: string)
    ensures s != "" && forall i :: 0 <= i < |s| ==> '0' <= s[i] <= '9'
  {
    var digit := [('0' as int + n % 10) as char];
    if n < 10 then digit else Dec(n / 10) + digit
  }

  /** The number a text of digits denotes. */
  function Denotes(s: string): int {
    if s == "" then 0 else Denotes(ButLast(s)) * 10 + (Last(s) as int - '0' as int)
  }

  lemma {:induction false} DecDenotes(n: nat)
    ensures Denotes(Dec(n)) == n && (Dec(n)[0] == '0' ==> n == 0)
    decreases n
  {
    var digit := [('0' as int + n % 10) as char];
    if n < 10 {
      assert ButLast(digit) == "";
    } else {
      DecDenotes(n / 10);
      assert ButLast(Dec(n)) == Dec(n / 10);
    }
  }

  function Pow10(k: nat): (p: nat)
    ensures p >= 1
  {
    if k == 0 then 1 else 10 * Pow10(k - 1)
  }

  lemma {:induction false} DecLength(n: nat, k: nat)
    requires k > 0
    ensures |Dec(n)| <= k <==> n < Pow10(k)
    decreases k
  {
    if n < 10 {
      assert Pow10(k) == 10 * Pow10(k - 1);
    } else if k > 1 {
      DecLength(n / 10, k - 1);
    }
  }

  // ---- Sanitizing ----------------------------------------------------------

  predicate IsControl(c: char) {
    c < ' ' || '\U{7F}' <= c <= '\U{9F}'
  }

  function Clean(s: string): (r: string)
    ensures |r| == |s|
  {
    seq(|s|, i requires 0 <= i < |s| => if IsControl(s[i]) then ' ' else s[i])
  }

  /** `replace` of every three backticks, left to right without overlap. */
  function Break(s: string): string {
    if s == "" then ""
    else if OccursAt(s, "```", 0) then "` ` `" + Break(s[3..])
    else [s[0]] + Break(s[1..])
  }

  function Sanitize(s: string): string {
    Break(Clean(s))
  }

  /** Three backticks in a row. */
  ghost predicate HasFence(s: string) {
    exists i: nat :: OccursAt(s, "```", i)
  }

  function RunLength(s: string): (n: nat)
    ensures n <= |s|
    ensures forall i :: 0 <= i < n ==> s[i] == '`'
    ensures n < |s| ==> s[n] != '`'
  {
    if s != "" && s[0] == '`' then 1 + RunLength(s[1..]) else 0
  }

  /** Some maximal run of backticks has length 5, 8, 11 and so on. */
  predicate HasStubbornRun(s: string)
    decreases |s|
  {
    s != ""
    && var n := RunLength(s);
       if n == 0 then HasStubbornRun(s[1..]) else (n >= 5 && n % 3 == 2) || HasStubbornRun(s[n..])
  }

  predicate TickAt(s: string, i: nat) {
    i < |s| && s[i] == '`'
  }

  lemma FenceIsThreeTicks(s: string, i: nat)
    ensures OccursAt(s, "```", i) <==> TickAt(s, i) && TickAt(s, i + 1) && TickAt(s, i + 2)
  {
    if i + 3 <= |s| {
      var w := s[i..i + 3];
      assert w[0] == s[i] && w[1] == s[i + 1] && w[2] == s[i + 2];
      assert TickAt(s, i) && TickAt(s, i + 1) && TickAt(s, i + 2) ==> w == "```";
    }
  }

  /** A fence cannot lie across a character that is no backtick. */
  lemma FenceAcross(a: string, b: string)
    requires a == "" || b == "" || a[|a| - 1] != '`' || b[0] != '`'
    ensures HasFence(a + b) <==> HasFence(a) || HasFence(b)
  {
    forall i: nat
      ensures OccursAt(a, "```", i) ==> OccursAt(a + b, "```", i)
      ensures OccursAt(b, "```", i) ==> OccursAt(a + b, "```", |a| + i)
      ensures OccursAt(a + b, "```", i) ==> OccursAt(a, "```", i) || (i >= |a| && OccursAt(b, "```", i - |a|))
    {
      FenceIsThreeTicks(a, i);
      FenceIsThreeTicks(a + b, i);
      FenceIsThreeTicks(a + b, |a| + i);
      FenceIsThreeTicks(b, i);
      if i >= |a| {
        FenceIsThreeTicks(b, i - |a|);
      }
    }
    if HasFence(a + b) {
      var i: nat :| OccursAt(a + b, "```", i);
      assert OccursAt(a, "```", i) || (i >= |a| && OccursAt(b, "```", i - |a|));
    }
    if HasFence(a) {
      var i: nat :| OccursAt(a, "```", i);
      assert OccursAt(a + b, "```", i);
    }
    if HasFence(b) {
      var i: nat :| OccursAt(b, "```", i);
      assert OccursAt(a + b, "```", |a| + i);
    }
  }

  lemma FewTicks(s: string)
    requires |s| < 3
    ensures !HasFence(s)
  {
  }

  function Ticks(n: nat): string {
    seq(n, _ => '`')
  }

  /** A run of at most two: nothing is broken. */
  lemma BrokenShort(k: nat, n: nat)
    requires k <= 1 && n < 3
    ensures HasFence(Ticks(k) + Break(Ticks(n))) <==> n == 2 && k == 1
  {
    hide Break, HasFence;
    ShortRun(n);
    var all := Ticks(k) + Ticks(n);
    if n == 2 && k == 1 {
      ThreeTicks(all);
    } else {
      FewTicks(all);
    }
  }

  lemma ThreeTicks(s: string)
    requires TickAt(s, 0) && TickAt(s, 1) && TickAt(s, 2)
    ensures HasFence(s)
  {
    FenceIsThreeTicks(s, 0);
  }

  /** A longer one: the first three are broken, and the last of these joins what follows. */
  lemma BrokenLong(k: nat, rest: string)
    requires k <= 1
    ensures HasFence(Ticks(k) + ("` ` `" + rest)) <==> HasFence(Ticks(1) + rest)
  {
    hide HasFence;
    var head, tail := Ticks(k) + "` ` ", Ticks(1) + rest;
    assert Ticks(k) + ("` ` `" + rest) == head + tail by {
      assert "` ` `" == "` ` " + Ticks(1);
      assert "` ` " + Ticks(1) + rest == "` ` " + tail;
      assert Ticks(k) + ("` ` " + tail) == head + tail;
    }
    FenceAcross(head, tail);
    NoFenceInHead(k);
  }

  lemma BrokenRunFirst(n: nat)
    ensures n > 0 ==> Break(Ticks(n)) != "" && Break(Ticks(n))[0] == '`'
  {
    hide Break;
    BreakKeepsFirst(Ticks(n));
  }

  /** What is left of a run of backticks still holds a fence, if `k <= 1` more stand before it. */
  lemma {:induction false} BrokenRun(k: nat, n: nat)
    requires k <= 1
    ensures HasFence(Ticks(k) + Break(Ticks(n))) <==> (n % 3 == 2 && (k == 1 || n >= 5))
    ensures n > 0 ==> Break(Ticks(n)) != "" && Break(Ticks(n))[0] == '`'
    decreases n
  {
    hide Break, HasFence, Ticks;
    BrokenRunFirst(n);
    if n < 3 {
      BrokenShort(k, n);
    } else {
      BreakTicks(n);
      BrokenLong(k, Break(Ticks(n - 3)));
      BrokenRun(1, n - 3);
    }
  }

  lemma BreakTicks(n: nat)
    requires n >= 3
    ensures Break(Ticks(n)) == "` ` `" + Break(Ticks(n - 3))
  {
    hide Break;
    BreakThree(Ticks(n));
    assert Ticks(n)[3..] == Ticks(n - 3);
  }

  lemma NoFenceInHead(k: nat)
    requires k <= 1
    ensures !HasFence(Ticks(k) + "` ` ")
  {
    var head := Ticks(k) + "` ` ";
    FenceAcross(Ticks(k) + "` ", "` ");
    assert head == Ticks(k) + "` " + "` ";
    FenceAcross(Ticks(k) + "`", " ");
    assert Ticks(k) + "` " == Ticks(k) + "`" + " ";
    FewTicks(Ticks(k) + "`");
    FewTicks(" ");
    FewTicks("` ");
  }

  lemma ShortRun(n: nat)
    requires n < 3
    ensures Break(Ticks(n)) == Ticks(n)
  {
    if n > 0 {
      assert Ticks(n)[1..] == Ticks(n - 1);
      ShortRun(n - 1);
      assert Ticks(n) == ['`'] + Ticks(n - 1);
    }
  }

  lemma RunThenText(n: nat, t: string, j: nat)
    requires (t == "" || t[0] != '`') && j <= n
    ensures (Ticks(n) + t)[j..] == Ticks(n - j) + t && Ticks(n)[j..] == Ticks(n - j)
    ensures n > 0 ==> Ticks(n)[0] == '`' && (Ticks(n) + t)[0] == '`'
    ensures forall i: nat :: TickAt(Ticks(n), i) <==> i < n
    ensures n > 0 ==> !TickAt(Ticks(n) + t, n)
    ensures forall i: nat :: i < n ==> TickAt(Ticks(n) + t, i)
  {
  }

  /** Breaking works run by run. */
  lemma {:induction false} BreakAfterRun(n: nat, t: string)
    requires t == "" || t[0] != '`'
    ensures Break(Ticks(n) + t) == Break(Ticks(n)) + Break(t)
    decreases n
  {
    hide Break, Ticks, TickAt;
    var s, run := Ticks(n) + t, Ticks(n);
    RunThenText(n, t, if n >= 3 then 3 else if n > 0 then 1 else 0);
    if n >= 3 {
      BreakThree(s);
      BreakThree(run);
      BreakAfterRun(n - 3, t);
      Associates(Break(Ticks(n - 3)), Break(t));
    } else if n > 0 {
      BreakOne(s);
      BreakOne(run);
      BreakAfterRun(n - 1, t);
      assert ['`'] + (Break(Ticks(n - 1)) + Break(t)) == ['`'] + Break(Ticks(n - 1)) + Break(t);
    } else {
      NoTicks();
      assert s == t;
      assert "" + Break(t) == Break(t);
    }
  }

  lemma NoTicks()
    ensures Ticks(0) == "" && Break("") == ""
  {
  }

  lemma BreakOne(s: string)
    requires !(TickAt(s, 0) && TickAt(s, 1) && TickAt(s, 2))
    ensures Break(s) == if s == "" then "" else [s[0]] + Break(s[1..])
  {
    FenceIsThreeTicks(s, 0);
  }

  lemma BreakThree(s: string)
    requires TickAt(s, 0) && TickAt(s, 1) && TickAt(s, 2)
    ensures Break(s) == "` ` `" + Break(s[3..])
  {
    FenceIsThreeTicks(s, 0);
  }

  lemma Associates(b: string, c: string)
    ensures "` ` `" + (b + c) == "` ` `" + b + c
  {
  }

  /** Breaking does not change what a text starts with. */
  lemma BreakKeepsFirst(s: string)
    ensures s == "" <==> Break(s) == ""
    ensures s != "" ==> Break(s)[0] == s[0]
  {
    FenceIsThreeTicks(s, 0);
  }

  /** Exactly when breaking leaves a fence behind. */
  lemma {:induction false} BreakLeavesFence(s: string)
    ensures HasFence(Break(s)) <==> HasStubbornRun(s)
    decreases |s|
  {
    var n := RunLength(s);
    if s == "" {
      FewTicks("");
    } else if n == 0 {
      FenceIsThreeTicks(s, 0);
      BreakLeavesFence(s[1..]);
      FenceAcross([s[0]], Break(s[1..]));
      FewTicks([s[0]]);
    } else {
      var t := s[n..];
      assert s == Ticks(n) + t;
      BreakAfterRun(n, t);
      BreakLeavesFence(t);
      BreakKeepsFirst(t);
      FenceAcross(Break(Ticks(n)), Break(t));
      BrokenRun(0, n);
      assert Ticks(0) + Break(Ticks(n)) == Break(Ticks(n));
    }
  }

  lemma {:induction false} CleanKeepsRuns(s: string)
    ensures RunLength(Clean(s)) == RunLength(s)
    decreases |s|
  {
    if s != "" {
      assert Clean(s)[1..] == Clean(s[1..]);
      CleanKeepsRuns(s[1..]);
    }
  }

  lemma {:induction false} CleanKeepsStubborn(s: string)
    ensures HasStubbornRun(Clean(s)) == HasStubbornRun(s)
    decreases |s|
  {
    if s != "" {
      CleanKeepsRuns(s);
      var n := RunLength(s);
      var k := if n == 0 then 1 else n;
      assert Clean(s)[k..] == Clean(s[k..]);
      CleanKeepsStubborn(s[k..]);
    }
  }

  /** The fence guard works exactly on the values without a stubborn run. */
  lemma SanitizeLeavesFence(s: string)
    ensures HasFence(Sanitize(s)) <==> HasStubbornRun(s)
  {
    BreakLeavesFence(Clean(s));
    CleanKeepsStubborn(s);
  }

  /** Five backticks come out with three of them in a row. */
  lemma FiveBackticksSurvive()
    ensures HasStubbornRun("`````") && HasFence(Sanitize("`````"))
  {
    var s := "`````";
    assert s == Ticks(5);
    RunOfTicks(5);
    SanitizeLeavesFence(s);
  }

  lemma {:induction false} RunOfTicks(n: nat)
    ensures RunLength(Ticks(n)) == n
  {
    if n > 0 {
      assert Ticks(n)[1..] == Ticks(n - 1);
      RunOfTicks(n - 1);
    }
  }

  lemma {:induction false} BreakHasNoControl(s: string)
    requires forall i :: 0 <= i < |s| ==> !IsControl(s[i])
    ensures forall i :: 0 <= i < |Break(s)| ==> !IsControl(Break(s)[i])
    decreases |s|
  {
    if s != "" {
      if OccursAt(s, "```", 0) {
        BreakHasNoControl(s[3..]);
      } else {
        BreakHasNoControl(s[1..]);
      }
    }
  }

  lemma SanitizeHasNoControl(s: string)
    ensures forall i :: 0 <= i < |Sanitize(s)| ==> !IsControl(Sanitize(s)[i])
  {
    BreakHasNoControl(Clean(s));
  }

  /** Control characters are those below the space and from delete up to U+009F. */
  lemma ControlCharacters(c: char)
    ensures IsControl(c) <==> c as int < 32 || 127 <= c as int < 160
  {
  }

  /** A value without control characters and without three backticks in a row stays as it is. */
  lemma SanitizeKeepsPlain(s: string)
    requires !HasFence(s) && forall i :: 0 <= i < |s| ==> !IsControl(s[i])
    ensures Sanitize(s) == s
  {
    assert Clean(s) == s;
    BreakKeepsPlain(s);
  }

  lemma {:induction false} BreakKeepsPlain(s: string)
    requires !HasFence(s)
    ensures Break(s) == s
    decreases |s|
  {
    if s != "" {
      assert !OccursAt(s, "```", 0);
      forall i: nat
        ensures !OccursAt(s[1..], "```", i)
      {
        FenceIsThreeTicks(s, i + 1);
        FenceIsThreeTicks(s[1..], i);
        assert !OccursAt(s, "```", i + 1);
      }
      BreakKeepsPlain(s[1..]);
    }
  }

  // ---- Rendering -----------------------------------------------------------

  datatype ArtifactUrls =
    ArtifactUrls(result: Option<string>, trace: Option<string>, video: Option<string>, a11y: Option<string>)

  datatype Failure = Failure(scenario: string, featureFile: Option<string>, step: Option<string>,
                             assertion: Option<string>, artifactUrls: Option<ArtifactUrls>)

  datatype Manifest = Manifest(schemaVersion: nat, bundle: Option<string>, failures: seq<Failure>, totalFailures: nat)

  function Line(title: string, value: Option<string>): string {
    match value
    case None => ""
    case Some(v) => title + Sanitize(v) + "\n"
  }

  function Present(values: seq<Option<string>>): seq<string> {
    if values == [] then []
    else (if values[0].Some? then [Sanitize(values[0].value)] else []) + Present(values[1..])
  }

  function Join(parts: seq<string>, separator: string): string {
    if parts == [] then ""
    else if |parts| == 1 then parts[0]
    else parts[0] + separator + Join(parts[1..], separator)
  }

  function ArtifactRefs(u: ArtifactUrls): string {
    Join(Present([u.result, u.trace, u.video, u.a11y]), " \U{B7} ")
  }

  function ArtifactLine(urls: Option<ArtifactUrls>): string {
    if urls.None? || ArtifactRefs(urls.value) == "" then ""
    else "   artifacts: " + ArtifactRefs(urls.value) + "\n"
  }

  /** One scenario, omitting absent fields. */
  function Block(n: nat, f: Failure): string {
    Dec(n) + ". \"" + Sanitize(f.scenario) + "\"\n"
    + Line("   feature:   ", f.featureFile)
    + Line("   step:      ", f.step)
    + Line("   assertion: ", f.assertion)
    + ArtifactLine(f.artifactUrls)
  }

  ghost predicate IsPlain(s: string) {
    !HasFence(s) && forall i :: 0 <= i < |s| ==> !IsControl(s[i])
  }

  /** A scenario as it reads, where no value needs a change: a line for each field there is, and
      the names of the artifacts there are. */
  lemma BlockReads(scenario: string, feature: string, step: string, why: string, trace: string, video: string)
    requires IsPlain(scenario) && IsPlain(feature) && IsPlain(step) && IsPlain(why) && IsPlain(trace) && IsPlain(video)
    ensures Block(3, Failure(scenario, Some(feature), Some(step), Some(why),
                             Some(ArtifactUrls(None, Some(trace), Some(video), None))))
         == "3. \"" + scenario + "\"\n" + ("   feature:   " + feature + "\n") + ("   step:      " + step + "\n")
            + ("   assertion: " + why + "\n") + ("   artifacts: " + (trace + " \U{B7} " + video) + "\n")
    ensures Block(3, Failure(scenario, None, None, None, None)) == "3. \"" + scenario + "\"\n"
  {
    hide Sanitize, HasFence;
    assert Dec(3) == "3";
    SanitizeKeepsPlain(scenario);
    SanitizeKeepsPlain(feature);
    SanitizeKeepsPlain(step);
    SanitizeKeepsPlain(why);
    SanitizeKeepsPlain(trace);
    SanitizeKeepsPlain(video);
    TwoRefs(trace, video);
    assert trace + " \U{B7} " + video != "";
  }

  lemma TwoRefs(trace: string, video: string)
    requires Sanitize(trace) == trace && Sanitize(video) == video
    ensures ArtifactRefs(ArtifactUrls(None, Some(trace), Some(video), None)) == trace + " \U{B7} " + video
  {
    hide Sanitize;
    PresentSkips(None, [Some(trace), Some(video), None]);
    PresentSkips(Some(trace), [Some(video), None]);
    PresentSkips(Some(video), [None]);
    var none: seq<Option<string>> := [];
    PresentSkips(None, none);
    assert [None] + [Some(trace), Some(video), None] == [None, Some(trace), Some(video), None];
    assert [Some(trace)] + [Some(video), None] == [Some(trace), Some(video), None];
    assert [Some(video)] + [None] == [Some(video), None] && [None] + none == [None];
    assert Present([None, Some(trace), Some(video), None]) == [trace, video];
    JoinTwo(trace, video, " \U{B7} ");
  }

  lemma JoinTwo(a: string, b: string, separator: string)
    ensures Join([a, b], separator) == a + separator + b
  {
    assert [a, b][1..] == [b];
  }

  lemma PresentSkips(value: Option<string>, rest: seq<Option<string>>)
    ensures Present([value] + rest) == (if value.Some? then [Sanitize(value.value)] else []) + Present(rest)
  {
    assert ([value] + rest)[1..] == rest;
  }

  /** The pieces around the scenarios: the total, and where the full artifacts are. */
  function Total(m: Manifest): nat {
    Max(m.totalFailures, |m.failures|)
  }

  function Header(m: Manifest): string {
    "harness reported " + Dec(Total(m)) + " failing scenario(s):\n\n"
  }

  function Footer(m: Manifest, runUrl: string): string {
    "(diagnostics from bridge.json " + "schema_version=" + Dec(m.schemaVersion) + "; full artifacts at "
    + (if runUrl == "" then "the CI run" else Sanitize(runUrl))
    + (if m.bundle.Some? then " (bundle '" + Sanitize(m.bundle.value) + "')" else "")
    + ")"
  }

  /** The first `k` scenarios, numbered from 1, each followed by a newline. */
  function Blocks(m: Manifest, k: nat): string
    requires k <= |m.failures|
  {
    if k == 0 then "" else Blocks(m, k - 1) + Block(k, m.failures[k - 1]) + "\n"
  }

  /** What stands in the digest for scenarios that are not in it. */
  function Marker(dropped: nat): string {
    if dropped == 0 then "" else "\U{2026}(" + Dec(dropped) + " more scenario(s) truncated)\n\n"
  }

  /** The digest that shows the first `k` scenarios and counts the others. */
  function Layout(m: Manifest, runUrl: string, k: nat): string
    requires k <= |m.failures|
  {
    Header(m) + Blocks(m, k) + Marker(Total(m) - k) + Footer(m, runUrl)
  }

  const MARKER_RESERVE: nat := 48

  /** Bytes of a digest up to and including scenario `k`, without its last newline, plus the
      footer and the reserve. */
  function Reserved(m: Manifest, runUrl: string, k: nat): nat
    requires 0 < k <= |m.failures|
  {
    Bytes(Header(m) + Blocks(m, k - 1)) + Bytes(Block(k, m.failures[k - 1])) + Bytes(Footer(m, runUrl)) + MARKER_RESERVE
  }

  /** How many scenarios are shown: at least one, and as many more as fit the budget. */
  ghost predicate IsCut(m: Manifest, runUrl: string, budget: nat, k: nat) {
    && k <= |m.failures|
    && (|m.failures| > 0 ==> k > 0)
    && (forall j :: 1 < j <= k ==> Reserved(m, runUrl, j) <= budget)
    && (forall j :: k < j <= |m.failures| && j > 1 ==> Reserved(m, runUrl, j) > budget)
  }

  lemma BlockGrows(m: Manifest, runUrl: string, k: nat)
    requires 0 < k < |m.failures|
    ensures Reserved(m, runUrl, k) < Reserved(m, runUrl, k + 1)
  {
    hide Header, Footer, Block, Bytes;
    var head, block := Header(m) + Blocks(m, k - 1), Block(k, m.failures[k - 1]);
    assert Header(m) + Blocks(m, k) == head + block + "\n";
    BytesOfSum(head + block, "\n");
    BytesOfSum(head, block);
    BytesOfNewline();
  }

  lemma BytesOfNewline()
    ensures Bytes("\n") == 1
  {
    BytesOfAscii("\n");
  }

  /** Past the first scenario that does not fit, none does. */
  lemma {:induction false} NothingFitsLater(m: Manifest, runUrl: string, budget: nat, k: nat, j: nat)
    requires 0 < k <= j <= |m.failures| && Reserved(m, runUrl, k) > budget
    ensures Reserved(m, runUrl, j) > budget
    decreases j
  {
    hide Reserved;
    if k < j {
      NothingFitsLater(m, runUrl, budget, k, j - 1);
      BlockGrows(m, runUrl, j - 1);
    }
  }

  lemma NoLargerCut(m: Manifest, runUrl: string, budget: nat, k: nat, l: nat)
    requires IsCut(m, runUrl, budget, k) && k < l <= |m.failures|
    ensures !IsCut(m, runUrl, budget, l)
  {
    hide Reserved;
    assert Reserved(m, runUrl, k + 1) > budget;
  }

  /** There is one such number: the budget determines the digest. */
  lemma CutIsUnique(m: Manifest, runUrl: string, budget: nat, k: nat, l: nat)
    requires IsCut(m, runUrl, budget, k) && IsCut(m, runUrl, budget, l)
    ensures k == l
  {
    hide Reserved;
    if k < l {
      NoLargerCut(m, runUrl, budget, k, l);
    } else if l < k {
      NoLargerCut(m, runUrl, budget, l, k);
    }
  }

  /** The greedy loop shows the scenarios of the cut and counts the others. */
  method BuildFailureDigest(m: Manifest, runUrl: string, budget: nat) returns (out: string, rendered: nat)
    ensures IsCut(m, runUrl, budget, rendered)
    ensures out == Layout(m, runUrl, rendered)
  {
    hide Header, Footer, Block, Bytes, Marker;
    var total := Max(m.totalFailures, |m.failures|);
    var header, footer := Header(m), Footer(m, runUrl);
    out := header;
    rendered := 0;
    assert header + Blocks(m, 0) == header;
    while rendered < |m.failures|
      invariant 0 <= rendered <= |m.failures|
      invariant out == header + Blocks(m, rendered)
      invariant forall j :: 1 < j <= rendered ==> Reserved(m, runUrl, j) <= budget
    {
      var block := Block(rendered + 1, m.failures[rendered]);
      if rendered > 0 && Bytes(out) + Bytes(block) + Bytes(footer) + MARKER_RESERVE > budget {
        assert Reserved(m, runUrl, rendered + 1) > budget;
        forall j | rendered < j <= |m.failures|
          ensures Reserved(m, runUrl, j) > budget
        {
          NothingFitsLater(m, runUrl, budget, rendered + 1, j);
        }
        break;
      }
      out := out + block;
      out := out + "\n";
      rendered := rendered + 1;
      assert out == header + Blocks(m, rendered);
    }
    var dropped := total - rendered;
    out := out + Marker(dropped);
    out := out + footer;
  }

  // ---- The byte budget -----------------------------------------------------

  lemma BytesOfMarker(dropped: nat)
    ensures Bytes(Marker(dropped)) == if dropped == 0 then 0 else 34 + |Dec(dropped)|
  {
    hide Bytes;
    if dropped > 0 {
      var head, tail := "\U{2026}(", " more scenario(s) truncated)\n\n";
      BytesOfSum(head, Dec(dropped));
      BytesOfSum(head + Dec(dropped), tail);
      BytesOfAscii(Dec(dropped));
      BytesOfAscii(tail);
      BytesOfEllipsis();
    } else {
      BytesOfAscii("");
    }
  }

  lemma BytesOfEllipsis()
    ensures Bytes("\U{2026}(") == 4
  {
    var s := "\U{2026}(";
    assert s[1..] == "(" && s[1..][1..] == "";
  }

  lemma BytesOfLayout(m: Manifest, runUrl: string, k: nat)
    requires k <= |m.failures|
    ensures Bytes(Layout(m, runUrl, k))
         == Bytes(Header(m) + Blocks(m, k)) + Bytes(Marker(Total(m) - k)) + Bytes(Footer(m, runUrl))
  {
    hide Header, Footer, Blocks, Marker, Bytes;
    var head, marker, footer := Header(m) + Blocks(m, k), Marker(Total(m) - k), Footer(m, runUrl);
    BytesOfSum(head + marker, footer);
    BytesOfSum(head, marker);
  }

  lemma BytesOfBlocks(m: Manifest, k: nat)
    requires 0 < k <= |m.failures|
    ensures Bytes(Header(m) + Blocks(m, k))
         == Bytes(Header(m) + Blocks(m, k - 1)) + Bytes(Block(k, m.failures[k - 1])) + 1
  {
    hide Header, Block, Bytes;
    var head, block := Header(m) + Blocks(m, k - 1), Block(k, m.failures[k - 1]);
    assert Header(m) + Blocks(m, k) == head + block + "\n";
    BytesOfSum(head + block, "\n");
    BytesOfSum(head, block);
    BytesOfNewline();
  }

  /** The reserve pays for the newline and the marker that are added after the check, as long as
      the number in the marker has at most 13 digits; more digits can cost one byte each. With at
      most one scenario shown there was no check, and the digest is just that scenario and what
      stands around it. */
  lemma DigestFitsBudget(m: Manifest, runUrl: string, budget: nat, k: nat)
    requires IsCut(m, runUrl, budget, k)
    ensures k >= 2 && Total(m) - k < Pow10(13) ==> Bytes(Layout(m, runUrl, k)) <= budget
    ensures k >= 2 ==> Bytes(Layout(m, runUrl, k)) <= budget + Max(0, |Dec(Total(m) - k)| - 13)
    ensures k <= 1 ==>
      Bytes(Layout(m, runUrl, k)) == Bytes(Header(m)) + (if k == 0 then 0 else Bytes(Block(1, m.failures[0])) + 1)
                                     + Bytes(Marker(Total(m) - k)) + Bytes(Footer(m, runUrl))
  {
    hide Header, Footer, Block, Marker, Bytes, Dec, Layout, Pow10;
    BytesOfLayout(m, runUrl, k);
    BytesOfMarker(Total(m) - k);
    DecLength(Total(m) - k, 13);
    assert Header(m) + Blocks(m, 0) == Header(m);
    if k > 0 {
      BytesOfBlocks(m, k);
    }
    if k >= 2 {
      assert Reserved(m, runUrl, k) <= budget;
    }
  }

  // ---- Fences in a digest --------------------------------------------------

  predicate NoTick(s: string) {
    forall i :: 0 <= i < |s| ==> s[i] != '`'
  }

  lemma NoTickNoFence(s: string)
    requires NoTick(s)
    ensures !HasFence(s)
  {
    forall i: nat
      ensures !OccursAt(s, "```", i)
    {
      FenceIsThreeTicks(s, i);
    }
  }

  predicate EndsPlain(s: string) {
    s == "" || s[|s| - 1] != '`'
  }

  /** A value between fixed texts: only the value can hold a fence. */
  lemma Wrapped(pre: string, v: string, post: string)
    requires NoTick(pre) && NoTick(post) && post != ""
    ensures HasFence(pre + v + post) <==> HasFence(v)
    ensures EndsPlain(pre + v + post)
  {
    NoTickNoFence(pre);
    NoTickNoFence(post);
    FenceAcross(pre, v);
    FenceAcross(pre + v, post);
  }

  lemma Appended(a: string, b: string)
    requires EndsPlain(a) && EndsPlain(b)
    ensures HasFence(a + b) <==> HasFence(a) || HasFence(b)
    ensures EndsPlain(a + b)
  {
    FenceAcross(a, b);
  }

  predicate Stubborn(value: Option<string>) {
    value.Some? && HasStubbornRun(value.value)
  }

  predicate AnyStubborn(values: seq<Option<string>>) {
    values != [] && (Stubborn(values[0]) || AnyStubborn(values[1..]))
  }

  function Refs(f: Failure): seq<Option<string>> {
    match f.artifactUrls
    case None => []
    case Some(u) => [u.result, u.trace, u.video, u.a11y]
  }

  /** The values of a scenario that are shown. */
  function Shown(f: Failure): seq<Option<string>> {
    [Some(f.scenario), f.featureFile, f.step, f.assertion] + Refs(f)
  }

  lemma LineFence(title: string, value: Option<string>)
    requires NoTick(title)
    ensures HasFence(Line(title, value)) <==> Stubborn(value)
    ensures EndsPlain(Line(title, value))
  {
    hide HasFence, HasStubbornRun;
    match value {
      case None => NoTickNoFence("");
      case Some(v) =>
        Wrapped(title, Sanitize(v), "\n");
        SanitizeLeavesFence(v);
    }
  }

  lemma {:induction false} JoinFence(values: seq<Option<string>>, separator: string)
    requires NoTick(separator) && separator != ""
    ensures HasFence(Join(Present(values), separator)) <==> AnyStubborn(values)
    decreases |values|
  {
    hide HasFence, HasStubbornRun, Sanitize;
    if values == [] {
      NoTickNoFence("");
    } else {
      JoinFence(values[1..], separator);
      if values[0].Some? {
        var first, rest := Sanitize(values[0].value), Present(values[1..]);
        SanitizeLeavesFence(values[0].value);
        assert Present(values) == [first] + rest && Present(values)[1..] == rest;
        if rest == [] {
          NoTickNoFence("");
        } else {
          NoTickNoFence("");
          Wrapped("", first, separator);
          assert "" + first + separator == first + separator;
          FenceAcross(first + separator, Join(rest, separator));
        }
      } else {
        assert Present(values) == Present(values[1..]);
      }
    }
  }

  lemma ArtifactLineFence(f: Failure)
    ensures HasFence(ArtifactLine(f.artifactUrls)) <==> AnyStubborn(Refs(f))
    ensures EndsPlain(ArtifactLine(f.artifactUrls))
  {
    hide HasFence, AnyStubborn;
    NoTickNoFence("");
    if f.artifactUrls.None? {
      NothingStubborn();
    } else {
      JoinFence(Refs(f), " \U{B7} ");
      Wrapped("   artifacts: ", ArtifactRefs(f.artifactUrls.value), "\n");
    }
  }

  lemma NothingStubborn()
    ensures !AnyStubborn([])
  {
  }

  lemma ConsStubborn(a: Option<string>, rest: seq<Option<string>>)
    ensures AnyStubborn([a] + rest) <==> Stubborn(a) || AnyStubborn(rest)
  {
    assert ([a] + rest)[1..] == rest;
  }

  lemma FourAndMore(a: Option<string>, b: Option<string>, c: Option<string>, d: Option<string>,
                    rest: seq<Option<string>>)
    ensures AnyStubborn([a, b, c, d] + rest)
       <==> Stubborn(a) || Stubborn(b) || Stubborn(c) || Stubborn(d) || AnyStubborn(rest)
  {
    hide Stubborn;
    ConsStubborn(d, rest);
    ConsStubborn(c, [d] + rest);
    ConsStubborn(b, [c, d] + rest);
    ConsStubborn(a, [b, c, d] + rest);
    assert [c] + ([d] + rest) == [c, d] + rest && [b] + ([c, d] + rest) == [b, c, d] + rest;
    assert [a] + ([b, c, d] + rest) == [a, b, c, d] + rest;
  }

  lemma DecHasNoTick(n: nat)
    ensures NoTick(Dec(n))
  {
    assert forall i :: 0 <= i < |Dec(n)| ==> '0' <= Dec(n)[i] <= '9';
  }

  lemma BlockFence(n: nat, f: Failure)
    ensures HasFence(Block(n, f)) <==> AnyStubborn(Shown(f))
    ensures EndsPlain(Block(n, f))
  {
    hide HasFence, HasStubbornRun, AnyStubborn, Sanitize, Line, ArtifactLine, Dec, EndsPlain, NoTick;
    DecHasNoTick(n);
    var pre := Dec(n) + ". \"";
    assert NoTick(pre) by { PlainSum(Dec(n), ". \""); }
    assert NoTick("\"\n") by { PlainSum("", ""); }
    var title := pre + Sanitize(f.scenario) + "\"\n";
    Wrapped(pre, Sanitize(f.scenario), "\"\n");
    SanitizeLeavesFence(f.scenario);
    PlainTitles();
    LineFence("   feature:   ", f.featureFile);
    LineFence("   step:      ", f.step);
    LineFence("   assertion: ", f.assertion);
    ArtifactLineFence(f);
    Appended(title, Line("   feature:   ", f.featureFile));
    Appended(title + Line("   feature:   ", f.featureFile), Line("   step:      ", f.step));
    Appended(title + Line("   feature:   ", f.featureFile) + Line("   step:      ", f.step),
             Line("   assertion: ", f.assertion));
    Appended(title + Line("   feature:   ", f.featureFile) + Line("   step:      ", f.step)
             + Line("   assertion: ", f.assertion), ArtifactLine(f.artifactUrls));
    FourAndMore(Some(f.scenario), f.featureFile, f.step, f.assertion, Refs(f));
  }

  lemma PlainSum(a: string, b: string)
    ensures NoTick(a) && NoTick(b) ==> NoTick(a + b)
    ensures NoTick(". \"") && NoTick("\"\n")
  {
  }

  lemma PlainTitles()
    ensures NoTick("   feature:   ") && NoTick("   step:      ") && NoTick("   assertion: ")
  {
  }

  /** Some shown value of the first `k` scenarios has a stubborn run. */
  predicate StubbornUpTo(m: Manifest, k: nat)
    requires k <= |m.failures|
  {
    k > 0 && (StubbornUpTo(m, k - 1) || AnyStubborn(Shown(m.failures[k - 1])))
  }

  lemma {:induction false} BlocksFence(m: Manifest, k: nat)
    requires k <= |m.failures|
    ensures HasFence(Blocks(m, k)) <==> StubbornUpTo(m, k)
    ensures EndsPlain(Blocks(m, k))
  {
    hide HasFence, AnyStubborn, Block, Shown;
    if k == 0 {
      NoTickNoFence("");
    } else {
      BlocksFence(m, k - 1);
      BlockFence(k, m.failures[k - 1]);
      Appended(Blocks(m, k - 1), Block(k, m.failures[k - 1]));
      NoTickNoFence("\n");
      Appended(Blocks(m, k - 1) + Block(k, m.failures[k - 1]), "\n");
    }
  }

  lemma HeaderFence(m: Manifest)
    ensures !HasFence(Header(m)) && EndsPlain(Header(m))
  {
    DecHasNoTick(Total(m));
    NoTickNoFence(Header(m));
  }

  lemma MarkerFence(dropped: nat)
    ensures !HasFence(Marker(dropped)) && EndsPlain(Marker(dropped))
  {
    DecHasNoTick(dropped);
    NoTickNoFence(Marker(dropped));
  }

  lemma FooterFence(m: Manifest, runUrl: string)
    ensures HasFence(Footer(m, runUrl)) <==> HasStubbornRun(runUrl) || Stubborn(m.bundle)
  {
    hide HasFence, HasStubbornRun, Sanitize, Dec;
    DecHasNoTick(m.schemaVersion);
    var pre := "(diagnostics from bridge.json " + "schema_version=" + Dec(m.schemaVersion) + "; full artifacts at ";
    PlainFooter(m.schemaVersion);
    var where := if runUrl == "" then "the CI run" else Sanitize(runUrl);
    assert HasFence(where) <==> HasStubbornRun(runUrl) by {
      SanitizeLeavesFence(runUrl);
      EmptyIsNotStubborn();
      NoTickNoFence("the CI run");
    }
    if m.bundle.Some? {
      var v := Sanitize(m.bundle.value);
      SanitizeLeavesFence(m.bundle.value);
      Wrapped(pre, where, " (bundle '");
      NoTickNoFence("");
      Wrapped("", v, "'))");
      assert "" + v + "'))" == v + "'))";
      FenceAcross(pre + where + " (bundle '", v + "'))");
      assert Footer(m, runUrl) == (pre + where + " (bundle '") + (v + "'))");
    } else {
      Wrapped(pre, where, ")");
      assert Footer(m, runUrl) == pre + where + ")";
    }
  }

  lemma PlainFooter(version: nat)
    ensures NoTick("(diagnostics from bridge.json " + "schema_version=" + Dec(version) + "; full artifacts at ")
    ensures NoTick(" (bundle '")
  {
    DecHasNoTick(version);
    var pre, title, tail := "(diagnostics from bridge.json ", "schema_version=", "; full artifacts at ";
    assert NoTick(pre) && NoTick(title) && NoTick(tail);
    PlainSum(pre, title);
    var head := pre + title;
    PlainSum(head, Dec(version));
    PlainSum(head + Dec(version), tail);
  }

  lemma EmptyIsNotStubborn()
    ensures !HasStubbornRun("")
  {
  }

  /** Exactly when a digest holds three backticks in a row: when a value it shows has a stubborn
      run. */
  lemma DigestFence(m: Manifest, runUrl: string, k: nat)
    requires k <= |m.failures|
    ensures HasFence(Layout(m, runUrl, k))
       <==> StubbornUpTo(m, k) || HasStubbornRun(runUrl) || Stubborn(m.bundle)
  {
    hide HasFence, HasStubbornRun, Header, Blocks, Marker, Footer, StubbornUpTo;
    var marker := Marker(Total(m) - k);
    HeaderFence(m);
    BlocksFence(m, k);
    MarkerFence(Total(m) - k);
    FooterFence(m, runUrl);
    Appended(Header(m), Blocks(m, k));
    Appended(Header(m) + Blocks(m, k), marker);
    FenceAcross(Header(m) + Blocks(m, k) + marker, Footer(m, runUrl));
  }

  // ---- The version gate ----------------------------------------------------

  const SUPPORTED_VERSION: nat := 2

  /** The manifest file: not JSON, or a document whose version may be missing or no unsigned
      64-bit number and whose other fields may not fit. */
  datatype Document = NotJson | Document(version: Option<nat>, bundle: Option<string>, failures: Option<seq<Failure>>)

  datatype Gate = Ingest(manifest: Manifest) | IngestForward(manifest: Manifest) | Fallback

  /** `as u32` wraps; the field itself must fit. */
  function ParseManifest(doc: Document, maxFailures: nat): Gate {
    if doc.NotJson? || doc.version.None? then Fallback
    else
      var wrapped := doc.version.value % (U32_MAX + 1);
      if doc.failures.None? || doc.version.value > U32_MAX then Fallback
      else
        var all := doc.failures.value;
        var m := Manifest(doc.version.value, doc.bundle, all[..Min(|all|, maxFailures)], |all|);
        if wrapped == SUPPORTED_VERSION then Ingest(m)
        else if wrapped > SUPPORTED_VERSION then IngestForward(m)
        else Fallback
  }

  /** The wrap never decides: the outcome is that of the version as written, and what is ingested
      still knows how many scenarios there were. */
  lemma GateMeaning(doc: Document, maxFailures: nat)
    requires doc.Document?
    ensures var g := ParseManifest(doc, maxFailures);
      && (g.Ingest? <==> doc.failures.Some? && doc.version == Some(2))
      && (g.IngestForward? <==> doc.failures.Some? && doc.version.Some? && 2 < doc.version.value <= U32_MAX)
      && (!g.Fallback? ==> Total(g.manifest) == |doc.failures.value| && |g.manifest.failures| <= maxFailures
                           && g.manifest.failures <= doc.failures.value
                           && |g.manifest.failures| == (if |doc.failures.value| <= maxFailures then |doc.failures.value|
                                                        else maxFailures)
                           && g.manifest.totalFailures == |doc.failures.value|
                           && Some(g.manifest.schemaVersion) == doc.version && g.manifest.bundle == doc.bundle)
  {
  }

  /** From the file to the digest: scenarios shown plus the number in the marker make the number
      of failures in the file, whichever of the two caps dropped them. */
  lemma NoFailureUncounted(doc: Document, maxFailures: nat, runUrl: string, budget: nat, k: nat)
    requires doc.Document? && !ParseManifest(doc, maxFailures).Fallback?
    requires IsCut(ParseManifest(doc, maxFailures).manifest, runUrl, budget, k)
    ensures var m := ParseManifest(doc, maxFailures).manifest;
      && k + (Total(m) - k) == |doc.failures.value|
      && (Total(m) - k > 0 <==> Marker(Total(m) - k) != "")
      && forall i :: 0 <= i < k ==> m.failures[i] == doc.failures.value[i]
  {
    GateMeaning(doc, maxFailures);
  }
}
