/** A way to write field maps as text and read them back, so that what LinearFields expects of the
    JSON library can be met. */
module MarkerCodec {
  import opened Prelude
  import opened LinearFields

  /** A text with its end marked: each character behind a dot, then a semicolon. */
  function Quoted(s: string): string {
    if s == "" then ";" else ['.', s[0]] + Quoted(s[1..])
  }

  /** Reads a quoted text off the front; the rest comes with it. */
  function Unquote(t: string): (r: Option<(string, string)>)
    ensures r.Some? ==> |r.value.1| < |t|
  {
    if t == "" then None
    else if t[0] == ';' then Some(("", t[1..]))
    else if t[0] != '.' || |t| == 1 then None
    else match Unquote(t[2..])
      case None => None
      case Some(p) => Some(([t[1]] + p.0, p.1))
  }

  lemma {:induction false} UnquoteQuoted(s: string, rest: string)
    ensures Unquote(Quoted(s) + rest) == Some((s, rest))
    decreases |s|
  {
    var t := Quoted(s) + rest;
    if s == "" {
      assert t[0] == ';' && t[1..] == rest;
    } else {
      assert t[0] == '.' && t[1] == s[0] && t[2..] == Quoted(s[1..]) + rest;
      UnquoteQuoted(s[1..], rest);
      assert [s[0]] + s[1..] == s;
    }
  }

  function Strokes(n: nat): string {
    seq(n, _ => '1')
  }

  function WriteValue(v: Value): string {
    match v
    case Null => "0"
    case Number(n) => "n" + Quoted(Strokes(n))
    case Text(s) => "t" + Quoted(s)
  }

  function ReadValue(t: string): (r: Option<(Value, string)>)
    ensures r.Some? ==> |r.value.1| < |t|
  {
    if t == "" then None
    else if t[0] == '0' then Some((Null, t[1..]))
    else match Unquote(t[1..])
      case None => None
      case Some(p) =>
        if t[0] == 't' then Some((Text(p.0), p.1))
        else if t[0] == 'n' && IsDouble(|p.0|) then Some((Number(|p.0|), p.1))
        else None
  }

  lemma ReadWritten(v: Value, rest: string)
    ensures ReadValue(WriteValue(v) + rest) == Some((v, rest))
  {
    hide Unquote, Quoted;
    var t := WriteValue(v) + rest;
    match v {
      case Null => assert t[0] == '0' && t[1..] == rest;
      case Number(n) =>
        assert t[0] == 'n' && t[1..] == Quoted(Strokes(n)) + rest;
        UnquoteQuoted(Strokes(n), rest);
      case Text(s) =>
        assert t[0] == 't' && t[1..] == Quoted(s) + rest;
        UnquoteQuoted(s, rest);
    }
  }

  /** The entries one after the other, in some order. */
  ghost function WriteEntries(m: FieldMap): string
    decreases |m|
  {
    if m == map[] then ""
    else
      var key :| key in m;
      FewerEntries(m, key);
      Quoted(key) + WriteValue(m[key]) + WriteEntries(m - {key})
  }

  lemma FewerEntries(m: FieldMap, key: string)
    requires key in m
    ensures |m - {key}| < |m|
  {
    assert (m - {key}).Keys == m.Keys - {key};
    SubsetSize((m - {key}).Keys, m.Keys);
    assert |(m - {key}).Keys| == |m - {key}| && |m.Keys| == |m|;
  }

  function ReadEntries(t: string): Option<FieldMap>
    decreases |t|
  {
    if t == "" then Some(map[])
    else match Unquote(t)
      case None => None
      case Some(k) =>
        match ReadValue(k.1)
        case None => None
        case Some(v) =>
          match ReadEntries(v.1)
          case None => None
          case Some(m) => Some(m[k.0 := v.0])
  }

  lemma {:induction false} EntriesRoundTrip(m: FieldMap)
    ensures ReadEntries(WriteEntries(m)) == Some(m)
    decreases |m|
  {
    hide Unquote, ReadValue, Quoted, WriteValue;
    if m != map[] {
      var key, tail := FirstEntry(m);
      FewerEntries(m, key);
      EntriesRoundTrip(m - {key});
      EntryAhead(key, m[key], tail);
      assert (m - {key})[key := m[key]] == m;
    }
  }

  /** The entry that is written first. */
  lemma FirstEntry(m: FieldMap) returns (key: string, tail: string)
    requires m != map[]
    ensures key in m && tail == WriteEntries(m - {key})
    ensures WriteEntries(m) == Quoted(key) + WriteValue(m[key]) + tail
  {
    key :| key in m && WriteEntries(m) == Quoted(key) + WriteValue(m[key]) + WriteEntries(m - {key});
    tail := WriteEntries(m - {key});
  }

  lemma EntryAhead(key: string, v: Value, tail: string)
    ensures var t := Quoted(key) + WriteValue(v) + tail;
      ReadEntries(t) == match ReadEntries(tail)
                        case None => None
                        case Some(m) => Some(m[key := v])
  {
    hide Unquote, ReadValue, WriteValue;
    var t := Quoted(key) + WriteValue(v) + tail;
    assert t == Quoted(key) + (WriteValue(v) + tail);
    UnquoteQuoted(key, WriteValue(v) + tail);
    ReadWritten(v, tail);
    assert t != "" by {
      assert Quoted(key) != "";
    }
  }

  /** The library in question. */
  ghost function Library(): Json {
    Json(m => "{" + WriteEntries(m) + "}", s => if IsObject(s) then ReadEntries(s[1..|s| - 1]) else None)
  }

  /** What is expected of the JSON library can be met. */
  lemma FaithfulIsMet()
    ensures Faithful(Library())
  {
    hide ReadEntries, WriteEntries;
    var json := Library();
    forall m
      ensures IsObject(json.write(m)) && json.read(json.write(m)) == Some(m)
    {
      var s := json.write(m);
      assert s == "{" + WriteEntries(m) + "}";
      assert s[1..|s| - 1] == WriteEntries(m);
      EntriesRoundTrip(m);
    }
  }
}
