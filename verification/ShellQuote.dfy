/** Quoting of command-line values, against the word rules of a POSIX shell. */
module ShellQuote {
  import opened Prelude

  // ---- What a shell reads --------------------------------------------------

  datatype Mode = Bare | Single | Double

  /** Characters that, unquoted, do more than stand for themselves: operators, expansions,
      pattern characters and line breaks. */
  predicate IsSpecial(c: char) {
    c in "|&;<>()$`*?[]{}~!\n\r"
  }

  function Push(word: Option<string>, c: char): Option<string> {
    match word
    case None => Some([c])
    case Some(w) => Some(w + [c])
  }

  function Flush(word: Option<string>): seq<string> {
    match word
    case None => []
    case Some(w) => [w]
  }

  function Prefixed(words: seq<string>, rest: Option<seq<string>>): Option<seq<string>> {
    match rest
    case None => None
    case Some(r) => Some(words + r)
  }

  lemma PrefixedTwice(u: seq<string>, v: seq<string>, rest: Option<seq<string>>)
    ensures Prefixed(u, Prefixed(v, rest)) == Prefixed(u + v, rest)
    ensures Prefixed(u, Some([])) == Some(u)
  {
    assert u + [] == u;
    if rest.Some? {
      assert u + (v + rest.value) == u + v + rest.value;
    }
  }

  /** The words of a command line: splitting at blanks, backslash (section 2.2.1 of the IEEE Std
      1003.1 Shell Command Language), single quotes (2.2.2), double quotes (2.2.3) and token
      recognition (2.3). `word` is the word being read, if one has begun. The result is None
      where the text is not a list of literal words: an unfinished quote, a NUL, a comment, or
      an unquoted character that calls for an operator or an expansion. */
  function Lex(mode: Mode, word: Option<string>, s: string): Option<seq<string>>
    decreases |s|
  {
    if s == "" then
      if mode.Bare? then Some(Flush(word)) else None
    else if s[0] == '\0' then None
    else match mode
      case Bare => LexBare(word, s)
      case Single =>
        if s[0] == '\'' then Lex(Bare, word, s[1..]) else Lex(Single, Push(word, s[0]), s[1..])
      case Double => LexDouble(word, s)
  }

  function LexBare(word: Option<string>, s: string): Option<seq<string>>
    requires s != ""
    decreases |s|, 0
  {
    var begun := Some(if word.Some? then word.value else "");
    if s[0] == ' ' || s[0] == '\t' then Prefixed(Flush(word), Lex(Bare, None, s[1..]))
    else if s[0] == '\'' then Lex(Single, begun, s[1..])
    else if s[0] == '\"' then Lex(Double, begun, s[1..])
    else if s[0] == '\\' then
      if |s| == 1 || s[1] == '\0' then None
      else if s[1] == '\n' then Lex(Bare, word, s[2..])
      else Lex(Bare, Push(word, s[1]), s[2..])
    else if IsSpecial(s[0]) || (s[0] == '#' && word.None?) then None
    else Lex(Bare, Push(word, s[0]), s[1..])
  }

  function LexDouble(word: Option<string>, s: string): Option<seq<string>>
    requires s != ""
    decreases |s|, 0
  {
    if s[0] == '\"' then Lex(Bare, word, s[1..])
    else if s[0] == '$' || s[0] == '`' then None
    else if s[0] == '\\' && |s| > 1 && s[1] == '\n' then Lex(Double, word, s[2..])
    else if s[0] == '\\' && |s| > 1 && s[1] in "$`\"\\" then Lex(Double, Push(word, s[1]), s[2..])
    else Lex(Double, Push(word, s[0]), s[1..])
  }

  function Words(s: string): Option<seq<string>> {
    Lex(Bare, None, s)
  }

  /** A line cannot carry a NUL. */
  lemma {:induction false} NoWordHasNul(mode: Mode, word: Option<string>, s: string)
    requires '\0' in s
    ensures Lex(mode, word, s) == None
    decreases |s|
  {
    if s[0] != '\0' {
      assert '\0' in s[1..];
      var begun := Some(if word.Some? then word.value else "");
      NoWordHasNul(Bare, None, s[1..]);
      NoWordHasNul(Bare, word, s[1..]);
      NoWordHasNul(Single, begun, s[1..]);
      NoWordHasNul(Double, begun, s[1..]);
      NoWordHasNul(mode, Push(word, s[0]), s[1..]);
      if |s| > 1 && s[1] != '\0' {
        assert '\0' in s[2..];
        NoWordHasNul(mode, word, s[2..]);
        NoWordHasNul(mode, Push(word, s[1]), s[2..]);
      }
    }
  }

  /** Text that lexes on its own keeps its words when a blank and more text follow. */
  lemma {:induction false} LexThenBlank(mode: Mode, word: Option<string>, a: string, b: string)
    requires Lex(mode, word, a).Some?
    ensures Lex(mode, word, a + " " + b) == Prefixed(Lex(mode, word, a).value, Words(b))
    decreases |a|
  {
    var all := a + " " + b;
    if a == "" {
      assert all[1..] == b;
    } else {
      assert all[0] == a[0] && all[1..] == a[1..] + " " + b;
      if |a| > 1 {
        assert all[1] == a[1] && all[2..] == a[2..] + " " + b;
      }
      var begun := Some(if word.Some? then word.value else "");
      match mode {
        case Bare =>
          if a[0] == ' ' || a[0] == '\t' {
            LexThenBlank(Bare, None, a[1..], b);
            PrefixedTwice(Flush(word), Lex(Bare, None, a[1..]).value, Words(b));
          } else if a[0] == '\'' {
            LexThenBlank(Single, begun, a[1..], b);
          } else if a[0] == '\"' {
            LexThenBlank(Double, begun, a[1..], b);
          } else if a[0] == '\\' {
            LexThenBlank(Bare, if a[1] == '\n' then word else Push(word, a[1]), a[2..], b);
          } else {
            LexThenBlank(Bare, Push(word, a[0]), a[1..], b);
          }
        case Single =>
          LexThenBlank(if a[0] == '\'' then Bare else Single,
                       if a[0] == '\'' then word else Push(word, a[0]), a[1..], b);
        case Double =>
          if a[0] == '\"' {
            LexThenBlank(Bare, word, a[1..], b);
          } else if a[0] == '\\' && |a| > 1 && a[1] == '\n' {
            LexThenBlank(Double, word, a[2..], b);
          } else if a[0] == '\\' && |a| > 1 && a[1] in "$`\"\\" {
            LexThenBlank(Double, Push(word, a[1]), a[2..], b);
          } else {
            LexThenBlank(Double, Push(word, a[0]), a[1..], b);
          }
      }
    }
  }

  // ---- What is written -----------------------------------------------------

  predicate IsSafe(c: char) {
    'a' <= c <= 'z' || 'A' <= c <= 'Z' || '0' <= c <= '9' || c == '-' || c == '_' || c == '/' || c == '.' || c == '='
  }

  predicate AllSafe(s: string) {
    forall i :: 0 <= i < |s| ==> IsSafe(s[i])
  }

  /** `replace` of every single quote by the four characters that close the quote, write an
      escaped quote and reopen it. */
  function ReplaceQuotes(s: string): string {
    if s == "" then ""
    else (if s[0] == '\'' then "'\\''" else [s[0]]) + ReplaceQuotes(s[1..])
  }

  function ShellEscape(s: string): string {
    if AllSafe(s) then s else "'" + ReplaceQuotes(s) + "'"
  }

  function Joined(word: Option<string>, s: string): Option<string> {
    if s == "" then word else Some((if word.Some? then word.value else "") + s)
  }

  lemma JoinedStep(word: Option<string>, s: string)
    requires s != ""
    ensures Joined(Push(word, s[0]), s[1..]) == Joined(word, s)
  {
    var w := if word.Some? then word.value else "";
    assert w + s == w + [s[0]] + s[1..];
    assert "" + [s[0]] == [s[0]];
    if s[1..] == "" {
      assert s == [s[0]];
    }
  }

  /** Safe text stands for itself. */
  lemma {:induction false} LexSafe(word: Option<string>, s: string)
    requires AllSafe(s)
    ensures Lex(Bare, word, s) == Some(Flush(Joined(word, s)))
    decreases |s|
  {
    if s != "" {
      hide Joined;
      LexSafe(Push(word, s[0]), s[1..]);
      JoinedStep(word, s);
      SafeIsOrdinary(s[0]);
    }
  }

  lemma SafeIsOrdinary(c: char)
    requires IsSafe(c)
    ensures !IsSpecial(c) && c !in " \t'\"\\#\0"
  {
  }

  /** Inside single quotes the rewritten text reads as the text. */
  lemma {:induction false} LexQuoted(w: string, s: string)
    requires '\0' !in s
    ensures Lex(Single, Some(w), ReplaceQuotes(s) + "'") == Some([w + s])
    decreases |s|
  {
    var all := ReplaceQuotes(s) + "'";
    if s == "" {
      assert all == "'" && all[1..] == "" && w + s == w;
    } else {
      assert s[0] in s && '\0' !in s[1..];
      var rest := ReplaceQuotes(s[1..]) + "'";
      LexQuoted(w + [s[0]], s[1..]);
      assert w + [s[0]] + s[1..] == w + s;
      if s[0] == '\'' {
        assert all == "'\\''" + rest;
        QuoteInside(w, rest);
      } else {
        assert all == [s[0]] + rest && all[1..] == rest;
      }
    }
  }

  /** Closing the quote, an escaped quote, and opening it again adds one quote to the word. */
  lemma QuoteInside(w: string, rest: string)
    ensures Lex(Single, Some(w), "'\\''" + rest) == Lex(Single, Some(w + "'"), rest)
  {
    var a, b, c := "'\\''" + rest, "\\''" + rest, "'" + rest;
    assert a[0] == '\'' && a[1..] == b;
    assert b[0] == '\\' && b[1] == '\'' && b[2..] == c;
    assert c[0] == '\'' && c[1..] == rest;
    assert Lex(Single, Some(w), a) == Lex(Bare, Some(w), b);
    assert Lex(Bare, Some(w), b) == LexBare(Some(w), b) == Lex(Bare, Some(w + "'"), c);
    assert Lex(Bare, Some(w + "'"), c) == LexBare(Some(w + "'"), c) == Lex(Single, Some(w + "'"), rest);
  }

  lemma {:induction false} ReplaceKeepsNul(s: string)
    requires '\0' in s
    ensures '\0' in ReplaceQuotes(s)
    decreases |s|
  {
    if s[0] != '\0' {
      ReplaceKeepsNul(s[1..]);
    }
  }

  /** The value a quoted text reads back to: the text itself, except that the empty text is no
      word at all, and a NUL cannot be passed. */
  lemma EscapeRoundTrip(s: string)
    ensures Words(ShellEscape(s)) == if '\0' in s then None else if s == "" then Some([]) else Some([s])
    ensures Words(ShellEscape(s)) == Some([s]) <==> s != "" && '\0' !in s
  {
    hide Lex, ReplaceQuotes;
    if AllSafe(s) {
      LexSafe(None, s);
      assert "" + s == s;
      assert '\0' !in s by {
        assert forall i :: 0 <= i < |s| ==> IsSafe(s[i]);
      }
    } else {
      var q := ReplaceQuotes(s) + "'";
      var e := ShellEscape(s);
      assert e == "'" + q && e[1..] == q;
      if '\0' in s {
        ReplaceKeepsNul(s);
        assert '\0' in e;
        NoWordHasNul(Bare, None, e);
      } else {
        OpensQuote(q);
        LexQuoted("", s);
        assert "" + s == s;
      }
    }
  }

  lemma OpensQuote(q: string)
    ensures Words("'" + q) == Lex(Single, Some(""), q)
  {
    var e := "'" + q;
    assert e[0] == '\'' && e[1..] == q;
    assert Words(e) == LexBare(None, e);
  }

  // ---- Command lines -------------------------------------------------------

  /** What a flag with an optional value adds to the words of a command. */
  function FlagWords(flag: string, value: Option<string>): Option<seq<string>> {
    match value
    case None => Some([])
    case Some(v) => if '\0' in v then None else Some(if v == "" then [flag] else [flag, v])
  }

  predicate IsFlag(flag: string) {
    flag != "" && AllSafe(flag)
  }

  /** A flag and its quoted value, appended to a command, add just these words. */
  lemma FlagLexes(cmd: string, flag: string, value: string)
    requires Words(cmd).Some? && IsFlag(flag)
    ensures Words(cmd + " " + flag + " " + ShellEscape(value))
         == Prefixed(Words(cmd).value, FlagWords(flag, Some(value)))
  {
    hide Lex, ShellEscape, AllSafe;
    var rest := flag + " " + ShellEscape(value);
    assert cmd + " " + flag + " " + ShellEscape(value) == cmd + " " + rest;
    LexThenBlank(Bare, None, cmd, rest);
    LexSafe(None, flag);
    assert "" + flag == flag;
    LexThenBlank(Bare, None, flag, ShellEscape(value));
    EscapeRoundTrip(value);
    PrefixedTwice([flag], [], None);
    assert [flag] + [value] == [flag, value];
  }

  datatype Flavor = ClaudeCode | Codex

  datatype CliAgent = CliAgent(command: string, model: Option<string>, flavor: Flavor)

  function SessionFlag(flavor: Flavor): string {
    match flavor
    case ClaudeCode => "--resume"
    case Codex => "--thread"
  }

  /** The words of a base command with the model and the session appended. */
  ghost predicate HasWords(cmd: string, base: string, modelFlag: Option<seq<string>>,
                           sessionFlag: Option<seq<string>>)
  {
    Words(base).Some? ==>
      Words(cmd) == if modelFlag.None? || sessionFlag.None? then None
                    else Some(Words(base).value + modelFlag.value + sessionFlag.value)
  }

  lemma FlagsAreSafe()
    ensures IsFlag("--model") && IsFlag("--resume") && IsFlag("--thread") && IsFlag("--session")
  {
  }

  /** A text with a NUL stays unreadable whatever is appended. */
  lemma NulStays(cmd: string, more: string)
    requires '\0' in cmd
    ensures Words(cmd + more) == None
  {
    hide Lex;
    NoWordHasNul(Bare, None, cmd + more);
  }

  /** Appends a flag with an optional value to a command line. */
  method PushFlag(cmd: string, flag: string, value: Option<string>) returns (r: string)
    requires IsFlag(flag)
    ensures Words(cmd).Some? ==> Words(r) == Prefixed(Words(cmd).value, FlagWords(flag, value))
    ensures '\0' in cmd || (value.Some? && '\0' in value.value) ==> '\0' in r
  {
    hide Lex, AllSafe;
    r := cmd;
    if Words(cmd).Some? {
      PrefixedTwice(Words(cmd).value, [], None);
    }
    if value.Some? {
      r := r + " " + flag + " " + ShellEscape(value.value);
      if Words(cmd).Some? {
        FlagLexes(cmd, flag, value.value);
      }
      if '\0' in value.value {
        EscapeKeepsNul(value.value);
      }
    }
  }

  lemma EscapeKeepsNul(s: string)
    requires '\0' in s
    ensures '\0' in ShellEscape(s)
  {
    hide ReplaceQuotes;
    ReplaceKeepsNul(s);
  }

  lemma TwoFlags(base: string, mid: string, cmd: string, model: Option<seq<string>>, session: Option<seq<string>>)
    requires Words(base).Some? ==> Words(mid) == Prefixed(Words(base).value, model)
    requires Words(mid).Some? ==> Words(cmd) == Prefixed(Words(mid).value, session)
    requires model.None? ==> Words(cmd) == None
    ensures HasWords(cmd, base, model, session)
  {
    hide Words;
  }

  /** The subprocess command line of the CLI backend. */
  method BuildCommandLine(agent: CliAgent, priorSession: Option<string>) returns (cmd: string)
    ensures HasWords(cmd, agent.command, FlagWords("--model", agent.model),
                     FlagWords(if agent.flavor.Codex? then "--thread" else "--resume", priorSession))
  {
    hide Words, IsFlag, HasWords;
    FlagsAreSafe();
    var mid := PushFlag(agent.command, "--model", agent.model);
    cmd := PushFlag(mid, SessionFlag(agent.flavor), priorSession);
    if '\0' in mid {
      NulStays(cmd, "");
      assert cmd + "" == cmd;
    }
    TwoFlags(agent.command, mid, cmd, FlagWords("--model", agent.model),
             FlagWords(SessionFlag(agent.flavor), priorSession));
  }

  datatype OpenCodeAgent = OpenCodeAgent(command: string, model: Option<string>)

  predicate IsPending(id: string) {
    OccursAt(id, "pending-", 0)
  }

  /** The session a backend really knows: placeholder ids are none. */
  function RealSession(id: Option<string>): Option<string> {
    if id.Some? && IsPending(id.value) then None else id
  }

  /** The subprocess command line of the OpenCode backend. */
  method BuildOpenCodeLine(agent: OpenCodeAgent, sessionId: Option<string>) returns (cmd: string)
    ensures HasWords(cmd, agent.command, FlagWords("--model", agent.model),
                     FlagWords("--session", RealSession(sessionId)))
    ensures RealSession(sessionId).None? <==>
              sessionId.None? || (|sessionId.value| >= 8 && sessionId.value[..8] == "pending-")
    ensures RealSession(sessionId).Some? ==> RealSession(sessionId) == sessionId
  {
    hide Words, IsFlag, HasWords;
    FlagsAreSafe();
    var mid := PushFlag(agent.command, "--model", agent.model);
    cmd := PushFlag(mid, "--session", RealSession(sessionId));
    if '\0' in mid {
      NulStays(cmd, "");
      assert cmd + "" == cmd;
    }
    TwoFlags(agent.command, mid, cmd, FlagWords("--model", agent.model),
             FlagWords("--session", RealSession(sessionId)));
  }
}
