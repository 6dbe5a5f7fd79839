/** The Markdown subset that is converted for Jira: inline spans and block splitting. */
module Markdown {
  import opened Prelude

  // ---- Inline spans --------------------------------------------------------

  datatype Inline = Plain(text: string) | Code(text: string) | Link(text: string, url: string)
                  | Strong(text: string) | Em(text: string)

  /** The text a node was written as. */
  function PrintNode(n: Inline): string {
    match n
    case Plain(t) => t
    case Code(t) => "`" + t + "`"
    case Link(t, u) => "[" + t + "](" + u + ")"
    case Strong(t) => "**" + t + "**"
    case Em(t) => "*" + t + "*"
  }

  function Print(nodes: seq<Inline>): string {
    if nodes == [] then "" else PrintNode(nodes[0]) + Print(nodes[1..])
  }

  /** `find_after`: the leftmost occurrence of `needle` at or after `from`. */
  function FindAfter(s: string, from: nat, needle: string): (r: Option<nat>)
    requires needle != ""
    ensures r.Some? ==> from <= r.value && OccursAt(s, needle, r.value)
    ensures forall j: nat | from <= j && (r.Some? ==> j < r.value) :: !OccursAt(s, needle, j)
    decreases |s| - from
  {
    if from + |needle| > |s| then None
    else if s[from..from + |needle|] == needle then Some(from)
    else FindAfter(s, from + 1, needle)
  }

  predicate CharAt(s: string, i: nat, c: char) {
    i < |s| && s[i] == c
  }

  /** A span that starts at some position: its node, and the position right behind it. */
  datatype Span = Span(node: Inline, next: nat)

  function CodeAt(s: string, i: nat): Option<Span> {
    if !CharAt(s, i, '`') then None
    else match FindAfter(s, i + 1, "`")
      case None => None
      case Some(end) => Some(Span(Code(s[i + 1..end]), end + 1))
  }

  function LinkAt(s: string, i: nat): Option<Span> {
    if !CharAt(s, i, '[') then None
    else match FindAfter(s, i + 1, "]")
      case None => None
      case Some(close) =>
        if !CharAt(s, close + 1, '(') then None
        else match FindAfter(s, close + 2, ")")
          case None => None
          case Some(paren) => Some(Span(Link(s[i + 1..close], s[close + 2..paren]), paren + 1))
  }

  function StrongAt(s: string, i: nat): Option<Span> {
    if !(CharAt(s, i, '*') && CharAt(s, i + 1, '*')) then None
    else match FindAfter(s, i + 2, "**")
      case None => None
      case Some(end) => Some(Span(Strong(s[i + 2..end]), end + 2))
  }

  /** Emphasis is not next to another star and has a body. */
  function EmAt(s: string, i: nat): Option<Span> {
    if !CharAt(s, i, '*') then None
    else match FindAfter(s, i + 1, "*")
      case None => None
      case Some(end) =>
        if (i > 0 && CharAt(s, i - 1, '*')) || CharAt(s, end + 1, '*') || end == i + 1 then None
        else Some(Span(Em(s[i + 1..end]), end + 1))
  }

  /** The span that starts at `i`, by precedence: code, link, bold, emphasis. */
  function SpanAt(s: string, i: nat): Option<Span> {
    if CodeAt(s, i).Some? then CodeAt(s, i)
    else if LinkAt(s, i).Some? then LinkAt(s, i)
    else if StrongAt(s, i).Some? then StrongAt(s, i)
    else EmAt(s, i)
  }

  /** The leftmost occurrence, when what lies before it does not begin the needle. */
  lemma FindsFirst(s: string, from: nat, needle: string, at: nat)
    requires needle != "" && from <= at && OccursAt(s, needle, at)
    requires forall j :: from <= j < at ==> s[j] != needle[0]
    ensures FindAfter(s, from, needle) == Some(at)
  {
    forall j: nat | from <= j < at
      ensures !OccursAt(s, needle, j)
    {
      assert j + |needle| <= |s| ==> s[j..j + |needle|][0] == s[j];
    }
  }

  /** No `mark` stands between two positions. */
  predicate Free(s: string, from: nat, end: nat, mark: char) {
    end <= |s| && forall j :: from <= j < end ==> s[j] != mark
  }

  /** Backticks around a text without one make code, whatever stands around them. */
  lemma CodeIsRead(s: string, i: nat, end: nat)
    requires i < end < |s| && s[i] == s[end] == '`' && Free(s, i + 1, end, '`')
    ensures SpanAt(s, i) == Some(Span(Code(s[i + 1..end]), end + 1))
  {
    hide FindAfter;
    FindsFirst(s, i + 1, "`", end);
  }

  /** A text and a target in their brackets, without their closing marks in them, make a link. */
  lemma LinkIsRead(s: string, i: nat, close: nat, paren: nat)
    requires i < close && close + 2 <= paren < |s|
    requires s[i] == '[' && s[close] == ']' && s[close + 1] == '(' && s[paren] == ')'
    requires Free(s, i + 1, close, ']') && Free(s, close + 2, paren, ')')
    ensures SpanAt(s, i) == Some(Span(Link(s[i + 1..close], s[close + 2..paren]), paren + 1))
  {
    hide FindAfter;
    FindsFirst(s, i + 1, "]", close);
    FindsFirst(s, close + 2, ")", paren);
  }

  /** Two stars on each side of a text without stars make bold. */
  lemma StrongIsRead(s: string, i: nat, end: nat)
    requires i + 2 <= end && end + 1 < |s| && s[i] == s[i + 1] == s[end] == s[end + 1] == '*'
    requires Free(s, i + 2, end, '*')
    ensures SpanAt(s, i) == Some(Span(Strong(s[i + 2..end]), end + 2))
  {
    hide FindAfter;
    assert s[end..end + 2] == "**";
    FindsFirst(s, i + 2, "**", end);
  }

  /** One star on each side makes emphasis, unless another star is next to it. */
  lemma EmIsRead(s: string, i: nat, end: nat)
    requires i + 1 < end < |s| && s[i] == s[end] == '*' && Free(s, i + 1, end, '*')
    ensures SpanAt(s, i) == if (i > 0 && s[i - 1] == '*') || (end + 1 < |s| && s[end + 1] == '*') then None
                            else Some(Span(Em(s[i + 1..end]), end + 1))
  {
    hide FindAfter;
    assert s[i + 1] != '*';
    FindsFirst(s, i + 1, "*", end);
  }

  /** Nothing else starts a span. */
  lemma OnlyMarksStart(s: string, i: nat)
    requires i < |s| && s[i] != '`' && s[i] != '[' && s[i] != '*'
    ensures SpanAt(s, i) == None
  {
  }

  ghost predicate Covers(s: string, i: nat, sp: Span) {
    && i < sp.next <= |s| && PrintNode(sp.node) == s[i..sp.next] && !sp.node.Plain?
    && (sp.node.Em? ==> sp.node.text != "")
  }

  lemma CodeCovers(s: string, i: nat)
    requires CodeAt(s, i).Some?
    ensures Covers(s, i, CodeAt(s, i).value)
  {
    hide FindAfter;
    var end := FindAfter(s, i + 1, "`").value;
    assert s[end..end + 1] == "`";
    assert s[i..end + 1] == [s[i]] + s[i + 1..end] + s[end..end + 1];
  }

  /** The text of a link, put together from its slices. */
  lemma LinkSlices(s: string, i: nat, close: nat, paren: nat)
    requires i < close && close + 2 <= paren < |s|
    requires s[i] == '[' && s[close] == ']' && s[close + 1] == '(' && s[paren] == ')'
    ensures s[i..paren + 1] == "[" + s[i + 1..close] + "](" + s[close + 2..paren] + ")"
  {
    SliceJoin(s, i, i + 1, paren + 1);
    SliceJoin(s, i + 1, close, paren + 1);
    SliceJoin(s, close, close + 2, paren + 1);
    SliceJoin(s, close + 2, paren, paren + 1);
    assert s[i..i + 1] == "[" && s[paren..paren + 1] == ")";
    assert s[close..close + 2] == "](";
    FiveParts("[", s[i + 1..close], "](", s[close + 2..paren], ")");
  }

  lemma SliceJoin(s: string, a: nat, b: nat, c: nat)
    requires a <= b <= c <= |s|
    ensures s[a..c] == s[a..b] + s[b..c]
  {
  }

  lemma FiveParts(a: string, b: string, c: string, d: string, e: string)
    ensures a + (b + (c + (d + e))) == a + b + c + d + e
  {
    assert a + (b + (c + (d + e))) == a + b + (c + (d + e));
    assert a + b + (c + (d + e)) == a + b + c + (d + e);
  }

  lemma FirstOf(s: string, at: nat, needle: string)
    requires OccursAt(s, needle, at) && needle != ""
    ensures at < |s| && s[at] == needle[0]
  {
    assert s[at..at + |needle|][0] == s[at];
  }

  lemma LinkCovers(s: string, i: nat)
    requires LinkAt(s, i).Some?
    ensures Covers(s, i, LinkAt(s, i).value)
  {
    hide FindAfter, OccursAt;
    var close := FindAfter(s, i + 1, "]").value;
    var paren := FindAfter(s, close + 2, ")").value;
    FirstOf(s, close, "]");
    FirstOf(s, paren, ")");
    LinkSlices(s, i, close, paren);
  }

  lemma StrongCovers(s: string, i: nat)
    requires StrongAt(s, i).Some?
    ensures Covers(s, i, StrongAt(s, i).value)
  {
    hide FindAfter;
    var end := FindAfter(s, i + 2, "**").value;
    assert s[end..end + 2] == "**" && s[i..i + 2] == "**";
    assert s[i..end + 2] == s[i..i + 2] + s[i + 2..end] + s[end..end + 2];
  }

  lemma EmCovers(s: string, i: nat)
    requires EmAt(s, i).Some?
    ensures Covers(s, i, EmAt(s, i).value)
  {
    hide FindAfter;
    var end := FindAfter(s, i + 1, "*").value;
    assert s[end..end + 1] == "*";
    assert s[i..end + 1] == [s[i]] + s[i + 1..end] + s[end..end + 1];
  }

  /** A span is written exactly as the text it covers. */
  lemma SpanCovers(s: string, i: nat)
    requires SpanAt(s, i).Some?
    ensures Covers(s, i, SpanAt(s, i).value)
  {
    hide CodeAt, LinkAt, StrongAt, EmAt, Covers;
    if CodeAt(s, i).Some? {
      CodeCovers(s, i);
    } else if LinkAt(s, i).Some? {
      LinkCovers(s, i);
    } else if StrongAt(s, i).Some? {
      StrongCovers(s, i);
    } else {
      EmCovers(s, i);
    }
  }

  /** No span starts anywhere in `[from, to)`. */
  ghost predicate NoSpan(s: string, from: nat, to: nat) {
    forall i: nat | from <= i < to :: SpanAt(s, i).None?
  }

  /** `nodes` is the inline reading of `s` from `off` on: reading left to right, a position at
      which a span starts gives that span, and a maximal run of positions at which none starts
      gives one plain node. */
  ghost predicate IsReading(s: string, off: nat, nodes: seq<Inline>)
    decreases |nodes|
  {
    off <= |s|
    && if nodes == [] then off == |s|
       else if nodes[0].Plain? then
         var t := nodes[0].text;
         && t != "" && OccursAt(s, t, off) && NoSpan(s, off, off + |t|)
         && (|nodes| > 1 ==> !nodes[1].Plain?)
         && IsReading(s, off + |t|, nodes[1..])
       else
         && SpanAt(s, off).Some? && SpanAt(s, off).value.node == nodes[0]
         && IsReading(s, SpanAt(s, off).value.next, nodes[1..])
  }

  /** Written out again, a reading is the text it was read from. */
  lemma {:induction false} ReadingPrints(s: string, off: nat, nodes: seq<Inline>)
    requires IsReading(s, off, nodes)
    ensures Print(nodes) == s[off..]
    decreases |nodes|
  {
    hide SpanAt, PrintNode, Print, OccursAt;
    if nodes == [] {
      assert Print([]) == "" by { PrintsNothing(); }
    } else {
      var next := FirstNode(s, off, nodes);
      ReadingPrints(s, next, nodes[1..]);
      PrintsFirst(nodes);
      SliceJoin(s, off, next, |s|);
    }
  }

  lemma PrintsNothing()
    ensures Print([]) == ""
  {
  }

  lemma PrintsFirst(nodes: seq<Inline>)
    requires nodes != []
    ensures Print(nodes) == PrintNode(nodes[0]) + Print(nodes[1..])
  {
    hide PrintNode;
  }

  /** The first node of a reading prints as what it covers, and the rest is read behind it. */
  lemma FirstNode(s: string, off: nat, nodes: seq<Inline>) returns (next: nat)
    requires IsReading(s, off, nodes) && nodes != []
    ensures off <= next <= |s| && PrintNode(nodes[0]) == s[off..next] && IsReading(s, next, nodes[1..])
  {
    hide SpanAt;
    if nodes[0].Plain? {
      next := off + |nodes[0].text|;
    } else {
      SpanCovers(s, off);
      next := SpanAt(s, off).value.next;
    }
  }

  /** No plain or emphasis node is empty, and no two plain nodes are neighbours. */
  ghost predicate Tidy(nodes: seq<Inline>) {
    && (forall i :: 0 <= i < |nodes| && (nodes[i].Plain? || nodes[i].Em?) ==> nodes[i].text != "")
    && (forall i :: 0 <= i < |nodes| - 1 ==> !(nodes[i].Plain? && nodes[i + 1].Plain?))
  }

  lemma {:induction false} ReadingIsTidy(s: string, off: nat, nodes: seq<Inline>)
    requires IsReading(s, off, nodes)
    ensures Tidy(nodes)
    decreases |nodes|
  {
    hide SpanAt;
    if nodes != [] {
      var next := if nodes[0].Plain? then off + |nodes[0].text| else SpanAt(s, off).value.next;
      if !nodes[0].Plain? {
        SpanCovers(s, off);
      }
      ReadingIsTidy(s, next, nodes[1..]);
      forall i | 0 <= i < |nodes|
        ensures nodes[i].Plain? || nodes[i].Em? ==> nodes[i].text != ""
        ensures i < |nodes| - 1 ==> !(nodes[i].Plain? && nodes[i + 1].Plain?)
      {
        if i > 0 {
          assert nodes[i] == nodes[1..][i - 1];
          assert i < |nodes| - 1 ==> nodes[i + 1] == nodes[1..][i];
        }
      }
    }
  }

  /** A text has only one reading. */
  lemma {:induction false} ReadingIsUnique(s: string, off: nat, a: seq<Inline>, b: seq<Inline>)
    requires IsReading(s, off, a) && IsReading(s, off, b)
    ensures a == b
    decreases |a|
  {
    hide SpanAt;
    if SpanAt(s, off).Some? {
      SpanCovers(s, off);
    }
    if a != [] && b != [] {
      if a[0].Plain? {
        var ta, tb := a[0].text, b[0].text;
        assert SpanAt(s, off).None?;
        RunIsMaximal(s, off, a);
        RunIsMaximal(s, off, b);
        assert |ta| == |tb|;
        ReadingIsUnique(s, off + |ta|, a[1..], b[1..]);
      } else {
        ReadingIsUnique(s, SpanAt(s, off).value.next, a[1..], b[1..]);
      }
      assert a == [a[0]] + a[1..] && b == [b[0]] + b[1..];
    }
  }

  /** A plain node ends where the text ends or the next span starts. */
  lemma RunIsMaximal(s: string, off: nat, nodes: seq<Inline>)
    requires IsReading(s, off, nodes) && nodes != [] && nodes[0].Plain?
    ensures var end := off + |nodes[0].text|; end == |s| || SpanAt(s, end).Some?
  {
    hide SpanAt;
    if |nodes| > 1 {
      assert nodes[1..][0] == nodes[1];
    }
  }

  // ---- The parser ----------------------------------------------------------

  function FlushText(out: seq<Inline>, slice: string): seq<Inline> {
    if slice == "" then out else out + [Plain(slice)]
  }

  /** What has been read up to `off` can be completed by any reading of the rest. */
  ghost predicate Completes(s: string, out: seq<Inline>, off: nat) {
    forall tail | IsReading(s, off, tail) :: IsReading(s, 0, out + tail)
  }

  /** A run of plain text, then a span, then a reading of what follows. */
  lemma RunThenSpan(s: string, textStart: nat, i: nat, tail: seq<Inline>)
    requires textStart <= i && NoSpan(s, textStart, i) && SpanAt(s, i).Some?
    requires i < SpanAt(s, i).value.next <= |s| && !SpanAt(s, i).value.node.Plain?
    requires IsReading(s, SpanAt(s, i).value.next, tail)
    ensures IsReading(s, textStart, FlushText([], s[textStart..i]) + ([SpanAt(s, i).value.node] + tail))
  {
    hide SpanAt;
    var slice, from := s[textStart..i], [SpanAt(s, i).value.node] + tail;
    assert from[1..] == tail;
    assert IsReading(s, i, from);
    var all := FlushText([], slice) + from;
    if slice != "" {
      assert all[0] == Plain(slice) && all[1..] == from && |from| > 0;
    } else {
      assert all == from;
    }
  }

  lemma CompletesWithSpan(s: string, out: seq<Inline>, textStart: nat, i: nat)
    requires Completes(s, out, textStart) && textStart <= i && NoSpan(s, textStart, i) && SpanAt(s, i).Some?
    ensures i < SpanAt(s, i).value.next <= |s|
    ensures Completes(s, FlushText(out, s[textStart..i]) + [SpanAt(s, i).value.node], SpanAt(s, i).value.next)
  {
    hide SpanAt, IsReading, NoSpan;
    SpanCovers(s, i);
    var slice, sp := s[textStart..i], SpanAt(s, i).value;
    var out' := FlushText(out, slice) + [sp.node];
    forall tail | IsReading(s, sp.next, tail)
      ensures IsReading(s, 0, out' + tail)
    {
      RunThenSpan(s, textStart, i, tail);
      assert out' + tail == out + (FlushText([], slice) + ([sp.node] + tail));
    }
  }

  lemma CompletesAtEnd(s: string, out: seq<Inline>, textStart: nat)
    requires Completes(s, out, textStart) && textStart <= |s| && NoSpan(s, textStart, |s|)
    ensures IsReading(s, 0, FlushText(out, s[textStart..]))
  {
    hide SpanAt;
    var slice := s[textStart..];
    var tail := FlushText([], slice);
    assert IsReading(s, |s|, []);
    assert slice != "" ==> tail[1..] == [] && OccursAt(s, slice, textStart);
    assert IsReading(s, textStart, tail);
    assert out + tail == FlushText(out, s[textStart..]);
  }

  method ParseInlines(s: string) returns (out: seq<Inline>)
    ensures IsReading(s, 0, out)
    ensures Print(out) == s && Tidy(out)
  {
    hide IsReading, SpanAt;
    out := [];
    var i, textStart := 0, 0;
    assert forall tail: seq<Inline> :: [] + tail == tail;
    while i < |s|
      invariant 0 <= textStart <= i <= |s|
      invariant Completes(s, out, textStart) && NoSpan(s, textStart, i)
      decreases |s| - i
    {
      var span := NextSpan(s, i);
      if span.Some? {
        CompletesWithSpan(s, out, textStart, i);
        out := FlushText(out, s[textStart..i]) + [span.value.node];
        i := span.value.next;
        textStart := i;
      } else {
        i := i + 1;
      }
    }
    CompletesAtEnd(s, out, textStart);
    out := FlushText(out, s[textStart..]);
    ReadingPrints(s, 0, out);
    ReadingIsTidy(s, 0, out);
    assert s[0..] == s;
  }

  /** The four tests of the parser at one cursor position, in their order. */
  method NextSpan(s: string, i: nat) returns (r: Option<Span>)
    requires i < |s|
    ensures r == SpanAt(s, i)
  {
    hide FindAfter;
    var c := s[i];
    if c == '`' {
      var end := FindAfter(s, i + 1, "`");
      if end.Some? {
        return Some(Span(Code(s[i + 1..end.value]), end.value + 1));
      }
    }
    if c == '[' {
      var close := FindAfter(s, i + 1, "]");
      if close.Some? && close.value + 1 < |s| && s[close.value + 1] == '(' {
        var paren := FindAfter(s, close.value + 2, ")");
        if paren.Some? {
          return Some(Span(Link(s[i + 1..close.value], s[close.value + 2..paren.value]), paren.value + 1));
        }
      }
    }
    if c == '*' && i + 1 < |s| && s[i + 1] == '*' {
      var end := FindAfter(s, i + 2, "**");
      if end.Some? {
        return Some(Span(Strong(s[i + 2..end.value]), end.value + 2));
      }
    }
    if c == '*' {
      var end := FindAfter(s, i + 1, "*");
      if end.Some? {
        var beforeOk := i == 0 || s[i - 1] != '*';
        var afterOk := end.value + 1 >= |s| || s[end.value + 1] != '*';
        var body := s[i + 1..end.value];
        if beforeOk && afterOk && body != "" {
          return Some(Span(Em(body), end.value + 1));
        }
      }
    }
    r := None;
  }

  // ---- Blocks --------------------------------------------------------------

  predicate IsBlank(line: string) {
    TrimStart(line) == ""
  }

  predicate IsFence(line: string) {
    OccursAt(TrimStart(line), "```", 0)
  }

  /** After these lines a fenced block is open: their number of fence lines is odd. */
  predicate InFence(lines: seq<string>) {
    lines != [] && (InFence(ButLast(lines)) != IsFence(Last(lines)))
  }

  /** The lines that must survive: all but the blank ones outside fences. */
  function Kept(lines: seq<string>): seq<string> {
    if lines == [] then []
    else Kept(ButLast(lines))
         + if InFence(ButLast(lines)) || IsFence(Last(lines)) || !IsBlank(Last(lines)) then [Last(lines)] else []
  }

  function Flatten(blocks: seq<seq<string>>): seq<string> {
    if blocks == [] then [] else Flatten(ButLast(blocks)) + Last(blocks)
  }

  /** A fence line and lines inside the fence. */
  predicate OpenFence(b: seq<string>) {
    b != [] && IsFence(b[0]) && forall i :: 0 < i < |b| ==> !IsFence(b[i])
  }

  /** ... closed by another fence line. */
  predicate ClosedFence(b: seq<string>) {
    |b| > 1 && OpenFence(ButLast(b)) && IsFence(Last(b))
  }

  /** A run of lines that are neither blank nor fences. */
  predicate TextBlock(b: seq<string>) {
    b != [] && forall i :: 0 <= i < |b| ==> !IsFence(b[i]) && !IsBlank(b[i])
  }

  predicate IsBlock(b: seq<string>) {
    TextBlock(b) || ClosedFence(b)
  }

  ghost predicate AllBlocks(blocks: seq<seq<string>>) {
    forall i :: 0 <= i < |blocks| ==> IsBlock(blocks[i])
  }

  lemma FlattenSnoc(blocks: seq<seq<string>>, b: seq<string>)
    ensures Flatten(blocks + [b]) == Flatten(blocks) + b
    ensures AllBlocks(blocks) && IsBlock(b) ==> AllBlocks(blocks + [b])
  {
    hide IsBlock;
    assert ButLast(blocks + [b]) == blocks;
  }

  /** What one more line does to the fence state and to the lines that survive. */
  lemma LineStep(lines: seq<string>, i: nat)
    requires i < |lines|
    ensures InFence(lines[..i + 1]) == (InFence(lines[..i]) != IsFence(lines[i]))
    ensures Kept(lines[..i + 1]) == Kept(lines[..i])
      + if InFence(lines[..i]) || IsFence(lines[i]) || !IsBlank(lines[i]) then [lines[i]] else []
  {
    hide IsFence, IsBlank;
    var upTo := lines[..i + 1];
    assert ButLast(upTo) == lines[..i] && Last(upTo) == lines[i];
  }

  /** The block under construction grows by a line or is closed by one. */
  lemma BlockStep(buf: seq<string>, line: string)
    ensures IsFence(line) ==> OpenFence([line])
    ensures IsFence(line) && OpenFence(buf) ==> IsBlock(buf + [line])
    ensures !IsFence(line) && OpenFence(buf) ==> OpenFence(buf + [line])
    ensures !IsFence(line) && !IsBlank(line) && (buf == [] || TextBlock(buf)) ==> TextBlock(buf + [line])
  {
    hide IsFence, IsBlank;
    assert ButLast(buf + [line]) == buf;
  }

  predicate CutBefore(lines: seq<string>, n: nat)
    requires n <= |lines|
  {
    n == 0 || IsBlank(lines[n - 1]) || IsFence(lines[n - 1])
  }

  predicate CutAfter(lines: seq<string>, n: nat)
    requires n <= |lines|
  {
    n == |lines| || IsBlank(lines[n]) || IsFence(lines[n])
  }

  /** The block is a stretch of the document; a text block ends only at blank lines, at fences
      and at the ends of the document. */
  predicate StandsAt(lines: seq<string>, b: seq<string>, at: nat) {
    && at + |b| <= |lines| && b == lines[at..at + |b|]
    && (TextBlock(b) ==> CutBefore(lines, at) && CutAfter(lines, at + |b|))
  }

  /** The blocks stand one after the other, before line `end`. */
  predicate Placed(lines: seq<string>, out: seq<seq<string>>, starts: seq<nat>, end: nat) {
    && |starts| == |out| && (forall i :: 0 <= i < |out| ==> StandsAt(lines, out[i], starts[i]))
    && (forall i :: 0 <= i < |out| - 1 ==> starts[i] + |out[i]| <= starts[i + 1])
    && (out != [] ==> Last(starts) + |Last(out)| <= end)
  }

  lemma PlacedNext(lines: seq<string>, out: seq<seq<string>>, starts: seq<nat>, b: seq<string>, at: nat)
    requires Placed(lines, out, starts, at) && StandsAt(lines, b, at)
    ensures Placed(lines, out + [b], starts + [at], at + |b|)
  {
    hide StandsAt;
  }

  lemma PlacedLater(lines: seq<string>, out: seq<seq<string>>, starts: seq<nat>, end: nat, later: nat)
    requires Placed(lines, out, starts, end) && end <= later
    ensures Placed(lines, out, starts, later)
  {
    hide StandsAt;
  }

  /** What is kept back before line `i` is the stretch right before it, and begins at a cut. */
  predicate Buffered(lines: seq<string>, buf: seq<string>, inFence: bool, i: nat) {
    |buf| <= i <= |lines| && buf == lines[i - |buf|..i] && (inFence || CutBefore(lines, i - |buf|))
  }

  lemma BufferStands(lines: seq<string>, buf: seq<string>, inFence: bool, i: nat)
    requires Buffered(lines, buf, inFence, i) && CutAfter(lines, i) && (inFence ==> OpenFence(buf))
    ensures StandsAt(lines, buf, i - |buf|)
  {
    if inFence {
      assert IsFence(buf[0]);
    }
  }

  lemma FenceStands(lines: seq<string>, buf: seq<string>, i: nat)
    requires Buffered(lines, buf, true, i) && i < |lines| && OpenFence(buf)
    ensures StandsAt(lines, buf + [lines[i]], i - |buf|)
  {
    assert IsFence((buf + [lines[i]])[0]);
    assert lines[i - |buf|..i + 1] == buf + [lines[i]];
  }

  lemma BufferGrows(lines: seq<string>, buf: seq<string>, inFence: bool, i: nat)
    requires Buffered(lines, buf, inFence, i) && i < |lines|
    ensures Buffered(lines, buf + [lines[i]], inFence, i + 1) && Buffered(lines, [lines[i]], true, i + 1)
    ensures IsBlank(lines[i]) || IsFence(lines[i]) ==> Buffered(lines, [], false, i + 1) && CutAfter(lines, i)
  {
    assert lines[i - |buf|..i + 1] == buf + [lines[i]] && lines[i..i + 1] == [lines[i]];
  }

  lemma NothingBuffered(lines: seq<string>)
    ensures Buffered(lines, [], false, 0) && Placed(lines, [], [], 0) && CutAfter(lines, |lines|)
  {
    hide IsBlank, IsFence, StandsAt;
  }

  /** Splits a document, given by its lines, into blocks. No line is lost, moved or doubled
      except that blank lines outside fences go, every block is of one kind and a stretch of the
      document, and a blank line or a fence, and nothing else, ends a text block; only a fence
      still open at the end of the document makes a last block without a closing line. */
  method SplitBlocks(lines: seq<string>) returns (out: seq<seq<string>>, ghost starts: seq<nat>)
    ensures Flatten(out) == Kept(lines)
    ensures forall i :: 0 <= i < |out| ==> IsBlock(out[i]) || (i == |out| - 1 && InFence(lines) && OpenFence(out[i]))
    ensures Placed(lines, out, starts, |lines|)
  {
    hide IsFence, IsBlank, InFence, Kept, Flatten, OpenFence, ClosedFence, TextBlock;
    hide Placed, StandsAt, Buffered, CutAfter, CutBefore;
    out, starts := [], [];
    var buf: seq<string>, inFence := [], false;
    var i := 0;
    EmptyDocument();
    NothingBuffered(lines);
    assert lines[..0] == [];
    while i < |lines|
      invariant 0 <= i <= |lines|
      invariant inFence == InFence(lines[..i])
      invariant Flatten(out) + buf == Kept(lines[..i])
      invariant AllBlocks(out)
      invariant if inFence then OpenFence(buf) else buf == [] || TextBlock(buf)
      invariant |buf| <= i && Buffered(lines, buf, inFence, i) && Placed(lines, out, starts, i - |buf|)
    {
      var line := lines[i];
      LineStep(lines, i);
      BlockStep(buf, line);
      BufferGrows(lines, buf, inFence, i);
      ghost var at := i - |buf|;
      PlacedLater(lines, out, starts, at, i);
      PlacedLater(lines, out, starts, at, i + 1);
      if IsFence(line) {
        if inFence {
          FlattenSnoc(out, buf + [line]);
          FenceStands(lines, buf, i);
          PlacedNext(lines, out, starts, buf + [line], at);
          out, starts := out + [buf + [line]], starts + [at];
          buf := [];
          inFence := false;
        } else {
          if buf != [] {
            FlattenSnoc(out, buf);
            BufferStands(lines, buf, false, i);
            PlacedNext(lines, out, starts, buf, at);
            out, starts := out + [buf], starts + [at];
          }
          buf := [line];
          inFence := true;
        }
      } else if inFence {
        buf := buf + [line];
      } else if IsBlank(line) {
        if buf != [] {
          FlattenSnoc(out, buf);
          BufferStands(lines, buf, false, i);
          PlacedNext(lines, out, starts, buf, at);
          PlacedLater(lines, out + [buf], starts + [at], i, i + 1);
          out, starts := out + [buf], starts + [at];
          buf := [];
        }
      } else {
        buf := buf + [line];
      }
      i := i + 1;
    }
    assert lines[..|lines|] == lines;
    ghost var at := i - |buf|;
    PlacedLater(lines, out, starts, at, |lines|);
    if buf != [] {
      FlattenSnoc(out, buf);
      BufferStands(lines, buf, inFence, i);
      PlacedNext(lines, out, starts, buf, at);
      out, starts := out + [buf], starts + [at];
    }
  }

  lemma EmptyDocument()
    ensures Kept([]) == Flatten([]) && !InFence([])
  {
  }

  /** The code lines of a block that starts with a fence, up to the closing fence. */
  method FencedBody(block: seq<string>) returns (body: Option<seq<string>>)
    ensures body.Some? <==> block != [] && IsFence(block[0])
    ensures ClosedFence(block) ==> body == Some(block[1..|block| - 1])
    ensures OpenFence(block) ==> body == Some(block[1..])
  {
    hide IsFence;
    if ClosedFence(block) {
      assert ButLast(block)[0] == block[0];
    }
    if block == [] || !IsFence(block[0]) {
      return None;
    }
    var i := 1;
    while i < |block| && !IsFence(block[i])
      invariant 1 <= i <= |block|
      invariant forall k :: 0 < k < i ==> !IsFence(block[k])
    {
      i := i + 1;
    }
    body := Some(block[1..i]);
    if ClosedFence(block) {
      assert forall k :: 0 < k < |block| - 1 ==> ButLast(block)[k] == block[k];
      assert Last(block) == block[|block| - 1];
      assert i == |block| - 1;
    }
    if OpenFence(block) {
      assert block[1..i] == block[1..];
    }
  }
}
