/** Custom fields kept in one marker comment of an issue, as a key-value store. */
module LinearFields {
  import opened Prelude

  // ---- The marker codec ----------------------------------------------------

  /** The bits of a finite 64-bit float: its eleven exponent bits are not all ones. */
  predicate IsDouble(b: nat) {
    b <= U64_MAX && b / 0x10_0000_0000_0000 % 0x800 != 0x7FF
  }

  type Double = b: nat | IsDouble(b)

  datatype Value = Null | Number(n: Double) | Text(s: string)

  type FieldMap = map<string, Value>

  /** The JSON library: writing a field map under the marker key, and reading it back. */
  datatype Json = Json(write: FieldMap -> string, read: string -> Option<FieldMap>)

  predicate IsObject(s: string) {
    |s| >= 2 && s[0] == '{' && s[|s| - 1] == '}'
  }

  /** What is expected of it. The module MarkerCodec has a library that meets this. */
  ghost predicate Faithful(json: Json) {
    && (forall m :: IsObject(json.write(m)) && json.read(json.write(m)) == Some(m))
    && json.read("") == None
  }

  function StripOpening(s: string): string {
    if OccursAt(s, "```json", 0) then TrimStart(s[7..])
    else if OccursAt(s, "```", 0) then TrimStart(s[3..])
    else s
  }

  function StripCodeFence(s: string): string {
    var out := StripOpening(s);
    if EndsWith(out, "```") then TrimEnd(out[..|out| - 3]) else out
  }

  function EncodeMarker(json: Json, m: FieldMap): string {
    json.write(m)
  }

  function DecodeMarker(json: Json, body: string): Option<FieldMap> {
    json.read(StripCodeFence(TrimEnd(TrimStart(body))))
  }

  lemma ObjectIsPlain(s: string)
    requires IsObject(s)
    ensures TrimStart(s) == s && TrimEnd(s) == s && StripCodeFence(s) == s
    ensures TrimStart("\n" + s) == s && TrimEnd(s + "\n") == s
  {
    assert ("\n" + s)[1..] == s;
    assert ButLast(s + "\n") == s;
    NotThere(s, "```json", 0, 0);
    NotThere(s, "```", 0, 0);
    if |s| >= 3 {
      NotThere(s, "```", |s| - 3, 2);
      assert s[|s| - 3..|s|] == s[|s| - 3..];
    }
  }

  lemma NotThere(s: string, part: string, at: nat, k: nat)
    requires at + k < |s| && k < |part| && s[at + k] != part[k]
    ensures !OccursAt(s, part, at)
  {
    if at + |part| <= |s| {
      assert s[at..at + |part|][k] == s[at + k];
    }
  }

  /** What was written is read back, also when someone wrapped it in a code fence. */
  lemma DecodeEncode(json: Json, m: FieldMap)
    requires Faithful(json)
    ensures DecodeMarker(json, EncodeMarker(json, m)) == Some(m)
    ensures DecodeMarker(json, "```json\n" + EncodeMarker(json, m) + "\n```") == Some(m)
    ensures DecodeMarker(json, "```\n" + EncodeMarker(json, m) + "\n```") == Some(m)
  {
    hide Faithful, StripCodeFence, TrimStart, TrimEnd;
    var s := json.write(m);
    assert IsObject(s) && json.read(s) == Some(m) by {
      FaithfulTo(json, m);
    }
    ObjectIsPlain(s);
    Fenced("```json\n", s);
    Fenced("```\n", s);
  }

  lemma FaithfulTo(json: Json, m: FieldMap)
    requires Faithful(json)
    ensures IsObject(json.write(m)) && json.read(json.write(m)) == Some(m)
  {
  }

  lemma Fenced(opening: string, s: string)
    requires IsObject(s) && (opening == "```json\n" || opening == "```\n")
    ensures StripCodeFence(TrimEnd(TrimStart(opening + s + "\n```"))) == s
  {
    hide EndsWith, StripOpening;
    var body := opening + s + "\n```";
    FencedOpening(opening, s);
    assert TrimStart(body) == body && TrimEnd(body) == body by {
      assert body[0] == '`' && Last(body) == '`';
    }
    Suffixed(s + "\n", "```");
    assert s + "\n" + "```" == s + "\n```";
    ObjectIsPlain(s);
  }

  lemma Suffixed(s: string, suffix: string)
    ensures EndsWith(s + suffix, suffix) && (s + suffix)[..|s + suffix| - |suffix|] == s
  {
  }

  lemma Prefixed(prefix: string, s: string)
    ensures OccursAt(prefix + s, prefix, 0) && (prefix + s)[|prefix|..] == s
  {
  }

  lemma FencedOpening(opening: string, s: string)
    requires IsObject(s) && (opening == "```json\n" || opening == "```\n")
    ensures StripOpening(opening + s + "\n```") == s + "\n```"
  {
    hide TrimStart;
    var mid := s + "\n```";
    AfterNewline(mid);
    assert opening + s + "\n```" == opening + mid;
    if opening == "```json\n" {
      assert opening + mid == "```json" + ("\n" + mid);
      Prefixed("```json", "\n" + mid);
    } else {
      assert opening + mid == "```" + ("\n" + mid);
      assert (opening + mid)[3] == '\n';
      NotThere(opening + mid, "```json", 0, 3);
      Prefixed("```", "\n" + mid);
    }
  }

  lemma AfterNewline(s: string)
    requires s != "" && !IsSpace(s[0])
    ensures TrimStart("\n" + s) == s
  {
    assert ("\n" + s)[1..] == s;
  }

  // ---- The comments of an issue --------------------------------------------

  datatype Comment = Comment(id: nat, body: Option<string>)

  function BodyOf(c: Comment): string {
    if c.body.Some? then c.body.value else ""
  }

  predicate IsMarker(json: Json, c: Comment) {
    DecodeMarker(json, BodyOf(c)).Some?
  }

  /** Only the first hundred comments are listed. */
  const WINDOW: nat := 100

  function Listed(cs: seq<Comment>): seq<Comment> {
    if |cs| <= WINDOW then cs else cs[..WINDOW]
  }

  lemma ListedIsFirstHundred(cs: seq<Comment>)
    ensures Listed(cs) <= cs && |Listed(cs)| == if |cs| < 100 then |cs| else 100
  {
  }

  function FirstMarker(json: Json, cs: seq<Comment>): (r: Option<nat>)
    ensures r.Some? ==> r.value < |cs| && IsMarker(json, cs[r.value])
    ensures r.Some? ==> forall i :: 0 <= i < r.value ==> !IsMarker(json, cs[i])
    ensures r.None? ==> forall i :: 0 <= i < |cs| ==> !IsMarker(json, cs[i])
  {
    if cs == [] then None
    else if IsMarker(json, cs[0]) then Some(0)
    else
      var rest := FirstMarker(json, cs[1..]);
      if rest.None? then None
      else Some(rest.value + 1)
  }

  /** `load_marker_comment`: which listed comment is the marker. */
  function Load(json: Json, cs: seq<Comment>): Option<nat> {
    FirstMarker(json, Listed(cs))
  }

  /** The field map a reader sees. */
  function Visible(json: Json, cs: seq<Comment>): FieldMap {
    match Load(json, cs)
    case None => map[]
    case Some(i) => DecodeMarker(json, BodyOf(Listed(cs)[i])).value
  }

  function Get(m: FieldMap, key: string): Value {
    if key in m then m[key] else Null
  }

  function Updated(m: FieldMap, key: string, value: Value): FieldMap {
    if value.Null? then m - {key} else m[key := value]
  }

  /** Reading after writing, for all keys. */
  lemma UpdatedGet(m: FieldMap, key: string, value: Value, other: string)
    ensures Get(Updated(m, key, value), other) == if other == key then value else Get(m, other)
  {
  }

  /** The `fields` that a fetched issue exposes: the first listed body that decodes. */
  function NormalizedFields(json: Json, nodes: seq<Comment>): FieldMap {
    if nodes == [] then map[]
    else if nodes[0].body.Some? && DecodeMarker(json, nodes[0].body.value).Some?
    then DecodeMarker(json, nodes[0].body.value).value
    else NormalizedFields(json, nodes[1..])
  }

  function Chosen(json: Json, nodes: seq<Comment>): FieldMap {
    match FirstMarker(json, nodes)
    case None => map[]
    case Some(i) => DecodeMarker(json, BodyOf(nodes[i])).value
  }

  lemma {:induction false} NormalizedIsChosen(json: Json, nodes: seq<Comment>)
    requires json.read("") == None
    ensures NormalizedFields(json, nodes) == Chosen(json, nodes)
    decreases |nodes|
  {
    hide DecodeMarker;
    if nodes != [] {
      NormalizedIsChosen(json, nodes[1..]);
      if nodes[0].body.None? {
        EmptyIsNoMarker(json);
      }
    }
  }

  lemma EmptyIsNoMarker(json: Json)
    requires json.read("") == None
    ensures DecodeMarker(json, "").None?
  {
    assert StripOpening("") == "";
  }

  /** A single field read and the fields of the fetched issue agree, whatever the library does but
      read a field map from nothing. */
  lemma ReadersAgree(json: Json, cs: seq<Comment>, key: string)
    requires json.read("") == None
    ensures Get(Visible(json, cs), key) == Get(NormalizedFields(json, Listed(cs)), key)
  {
    hide DecodeMarker, NormalizedFields, FirstMarker;
    NormalizedIsChosen(json, Listed(cs));
  }

  // ---- Writes --------------------------------------------------------------

  predicate DistinctIds(cs: seq<Comment>) {
    forall i, j :: 0 <= i < j < |cs| ==> cs[i].id != cs[j].id
  }

  /** `commentUpdate`. */
  function UpdateBody(cs: seq<Comment>, id: nat, body: string): seq<Comment> {
    seq(|cs|, i requires 0 <= i < |cs| => if cs[i].id == id then Comment(id, Some(body)) else cs[i])
  }

  /** `commentCreate`: the tracker chooses the id and where the comment is listed. */
  function InsertAt(cs: seq<Comment>, at: nat, c: Comment): seq<Comment>
    requires at <= |cs|
  {
    cs[..at] + [c] + cs[at..]
  }

  /** A new comment's id and place. */
  datatype Place = Place(id: nat, at: nat)

  predicate Fits(cs: seq<Comment>, p: Place) {
    p.at <= |cs| && forall i :: 0 <= i < |cs| ==> cs[i].id != p.id
  }

  /** Storing a field map in the comment found by an earlier load, or in a new one. */
  function Stored(json: Json, cs: seq<Comment>, found: Option<nat>, m: FieldMap, p: Place): seq<Comment>
    requires Fits(cs, p)
  {
    match found
    case Some(id) => UpdateBody(cs, id, EncodeMarker(json, m))
    case None => InsertAt(cs, p.at, Comment(p.id, Some(EncodeMarker(json, m))))
  }

  function FoundId(json: Json, cs: seq<Comment>): Option<nat> {
    match Load(json, cs)
    case None => None
    case Some(i) => Some(Listed(cs)[i].id)
  }

  /** A whole write that the tracker takes. */
  function AfterWrite(json: Json, cs: seq<Comment>, key: string, value: Value, p: Place): seq<Comment>
    requires Fits(cs, p)
  {
    Stored(json, cs, FoundId(json, cs), Updated(Visible(json, cs), key, value), p)
  }

  function Users(json: Json, cs: seq<Comment>): seq<Comment> {
    if cs == [] then []
    else (if IsMarker(json, cs[0]) then [] else [cs[0]]) + Users(json, cs[1..])
  }

  function Markers(json: Json, cs: seq<Comment>): nat {
    if cs == [] then 0 else (if IsMarker(json, cs[0]) then 1 else 0) + Markers(json, cs[1..])
  }

  lemma {:induction false} Concat(json: Json, a: seq<Comment>, b: seq<Comment>)
    ensures Users(json, a + b) == Users(json, a) + Users(json, b)
    ensures Markers(json, a + b) == Markers(json, a) + Markers(json, b)
    decreases |a|
  {
    hide IsMarker;
    if a == [] {
      assert a + b == b;
    } else {
      assert (a + b)[1..] == a[1..] + b;
      Concat(json, a[1..], b);
    }
  }

  lemma One(json: Json, c: Comment)
    ensures Users(json, [c]) == if IsMarker(json, c) then [] else [c]
    ensures Markers(json, [c]) == if IsMarker(json, c) then 1 else 0
  {
    hide IsMarker;
    assert [c][1..] == [];
  }

  /** Replacing a comment in place by a marker. */
  lemma ReplaceCounts(json: Json, cs: seq<Comment>, i: nat, c: Comment)
    requires i < |cs| && IsMarker(json, cs[i]) && IsMarker(json, c)
    ensures Users(json, cs[i := c]) == Users(json, cs) && Markers(json, cs[i := c]) == Markers(json, cs)
  {
    hide IsMarker, Users, Markers;
    SplitAt(cs, i);
    CountAround(json, cs[..i], cs[i], cs[i + 1..]);
    CountAround(json, cs[..i], c, cs[i + 1..]);
    assert cs[i := c] == cs[..i] + ([c] + cs[i + 1..]);
  }

  lemma InsertCounts(json: Json, cs: seq<Comment>, at: nat, c: Comment)
    requires at <= |cs| && IsMarker(json, c)
    ensures Users(json, InsertAt(cs, at, c)) == Users(json, cs)
    ensures Markers(json, InsertAt(cs, at, c)) == Markers(json, cs) + 1
  {
    hide IsMarker, Users, Markers;
    CountAround(json, cs[..at], c, cs[at..]);
    Concat(json, cs[..at], cs[at..]);
    assert cs == cs[..at] + cs[at..];
    assert InsertAt(cs, at, c) == cs[..at] + ([c] + cs[at..]);
    assert [] + Users(json, cs[at..]) == Users(json, cs[at..]);
  }

  lemma UpdateIsReplace(cs: seq<Comment>, i: nat, body: string)
    requires DistinctIds(cs) && i < |cs|
    ensures UpdateBody(cs, cs[i].id, body) == cs[i := Comment(cs[i].id, Some(body))]
  {
  }

  /** Every taken write keeps the ids apart and the comments of others as they are; it adds a
      marker exactly when it found none. */
  lemma WriteKeepsUsers(json: Json, cs: seq<Comment>, key: string, value: Value, p: Place)
    requires Faithful(json) && DistinctIds(cs) && Fits(cs, p)
    ensures var after := AfterWrite(json, cs, key, value, p);
      && DistinctIds(after)
      && Users(json, after) == Users(json, cs)
      && Markers(json, after) == Markers(json, cs) + if Load(json, cs).None? then 1 else 0
  {
    hide Faithful, Users, Markers, FirstMarker, DecodeMarker, Visible, Updated;
    var m := Updated(Visible(json, cs), key, value);
    DecodeEncode(json, m);
    match Load(json, cs) {
      case Some(i) =>
        assert Listed(cs)[i] == cs[i];
        UpdateIsReplace(cs, i, EncodeMarker(json, m));
        ReplaceCounts(json, cs, i, Comment(cs[i].id, Some(EncodeMarker(json, m))));
      case None =>
        InsertCounts(json, cs, p.at, Comment(p.id, Some(EncodeMarker(json, m))));
    }
  }

  lemma {:induction false} NoMarkers(json: Json, cs: seq<Comment>)
    ensures Markers(json, cs) == 0 <==> forall i :: 0 <= i < |cs| ==> !IsMarker(json, cs[i])
    decreases |cs|
  {
    hide IsMarker;
    if cs != [] {
      NoMarkers(json, cs[1..]);
      forall i | 0 <= i < |cs|
        ensures Markers(json, cs) == 0 ==> !IsMarker(json, cs[i])
      {
        assert i > 0 ==> cs[i] == cs[1..][i - 1];
      }
      if forall i :: 0 <= i < |cs| ==> !IsMarker(json, cs[i]) {
        forall i | 0 <= i < |cs[1..]|
          ensures !IsMarker(json, cs[1..][i])
        {
          assert cs[1..][i] == cs[i + 1];
        }
      }
    }
  }

  /** An issue has no marker that listing does not show. */
  predicate InWindow(json: Json, cs: seq<Comment>) {
    Load(json, cs).Some? || Markers(json, cs) == 0
  }

  /** Exactly when a write makes a second marker: when there is one that is not listed. */
  lemma DuplicateIff(json: Json, cs: seq<Comment>, key: string, value: Value, p: Place)
    requires Faithful(json) && DistinctIds(cs) && Fits(cs, p) && Markers(json, cs) <= 1
    ensures Markers(json, AfterWrite(json, cs, key, value, p)) > 1 <==> !InWindow(json, cs)
  {
    hide Faithful, Markers, AfterWrite, Load;
    WriteKeepsUsers(json, cs, key, value, p);
  }

  /** A taken write shows as an update of the map, unless it had to make a comment and that one
      is not listed. */
  lemma WriteUpdatesMap(json: Json, cs: seq<Comment>, key: string, value: Value, p: Place)
    requires Faithful(json) && DistinctIds(cs) && Fits(cs, p)
    ensures var after := AfterWrite(json, cs, key, value, p);
      && (Load(json, after).Some? <==> Load(json, cs).Some? || p.at < WINDOW)
      && Visible(json, after) == if Load(json, after).Some? then Updated(Visible(json, cs), key, value) else map[]
  {
    hide Faithful, FirstMarker, DecodeMarker, Updated;
    var m := Updated(Visible(json, cs), key, value);
    var body := EncodeMarker(json, m);
    var after := AfterWrite(json, cs, key, value, p);
    DecodeEncode(json, m);
    match Load(json, cs) {
      case Some(i) =>
        assert Listed(cs)[i] == cs[i];
        UpdateIsReplace(cs, i, body);
        FirstAt(json, Listed(after), i, Listed(cs));
      case None =>
        if p.at < WINDOW {
          FirstAt(json, Listed(after), p.at, Listed(cs));
        } else {
          assert Listed(after) == Listed(cs);
        }
    }
  }

  /** The first marker is where a marker stands and the comments before it are old non-markers. */
  lemma FirstAt(json: Json, cs: seq<Comment>, at: nat, before: seq<Comment>)
    requires at < |cs| && IsMarker(json, cs[at])
    requires forall i :: 0 <= i < at ==> i < |before| && cs[i] == before[i] && !IsMarker(json, before[i])
    ensures FirstMarker(json, cs) == Some(at)
  {
    hide IsMarker;
    var first := FirstMarker(json, cs);
    assert first.Some? && first.value <= at;
  }

  // ---- Runs ----------------------------------------------------------------

  /** Writes the tracker takes, one after the other, and what people do in between: add, edit or
      delete comments that are no markers. */
  datatype Op =
    | Write(key: string, value: Value, p: Place)
    | Post(c: Comment, at: nat)
    | Edit(i: nat, body: Option<string>)
    | Delete(i: nat)

  predicate Allowed(json: Json, cs: seq<Comment>, op: Op) {
    match op
    case Write(_, _, p) => Fits(cs, p)
    case Post(c, at) => Fits(cs, Place(c.id, at)) && !IsMarker(json, c)
    case Edit(i, body) => i < |cs| && !IsMarker(json, cs[i]) && !IsMarker(json, Comment(cs[i].id, body))
    case Delete(i) => i < |cs| && !IsMarker(json, cs[i])
  }

  function Applied(json: Json, cs: seq<Comment>, op: Op): seq<Comment>
    requires Allowed(json, cs, op)
  {
    match op
    case Write(key, value, p) => AfterWrite(json, cs, key, value, p)
    case Post(c, at) => InsertAt(cs, at, c)
    case Edit(i, body) => cs[i := Comment(cs[i].id, body)]
    case Delete(i) => cs[..i] + cs[i + 1..]
  }

  /** A run in which the marker, if there is one, is listed whenever something happens. */
  ghost predicate IsRun(json: Json, cs: seq<Comment>, ops: seq<Op>, end: seq<Comment>)
    decreases |ops|
  {
    InWindow(json, cs)
    && if ops == [] then end == cs
       else Allowed(json, cs, ops[0]) && IsRun(json, Applied(json, cs, ops[0]), ops[1..], end)
  }

  /** The map that the writes of a run make. */
  function MapAfter(m: FieldMap, ops: seq<Op>): FieldMap
    decreases |ops|
  {
    if ops == [] then m
    else MapAfter(if ops[0].Write? then Updated(m, ops[0].key, ops[0].value) else m, ops[1..])
  }

  /** What people do leaves the number of markers and the ids alone. */
  lemma PeopleKeepMarkers(json: Json, cs: seq<Comment>, op: Op)
    requires DistinctIds(cs) && Allowed(json, cs, op) && !op.Write?
    ensures DistinctIds(Applied(json, cs, op)) && Markers(json, Applied(json, cs, op)) == Markers(json, cs)
  {
    hide IsMarker, Markers, DistinctIds;
    PeopleKeepIds(json, cs, op);
    match op {
      case Post(c, at) => PostKeepsMarkers(json, cs, c, at);
      case Edit(i, body) => EditKeepsMarkers(json, cs, i, body);
      case Delete(i) =>
        MiddleCount(json, cs, i);
        Concat(json, cs[..i], cs[i + 1..]);
    }
  }

  lemma PeopleKeepIds(json: Json, cs: seq<Comment>, op: Op)
    requires DistinctIds(cs) && Allowed(json, cs, op) && !op.Write?
    ensures DistinctIds(Applied(json, cs, op))
  {
    hide IsMarker;
  }

  lemma PostKeepsMarkers(json: Json, cs: seq<Comment>, c: Comment, at: nat)
    requires at <= |cs| && !IsMarker(json, c)
    ensures Markers(json, InsertAt(cs, at, c)) == Markers(json, cs)
  {
    hide IsMarker, Markers;
    MiddleCount(json, InsertAt(cs, at, c), at);
    SplitsAround(cs, at, c);
    Concat(json, cs[..at], cs[at..]);
    assert cs == cs[..at] + cs[at..];
  }

  lemma SplitsAround(cs: seq<Comment>, at: nat, c: Comment)
    requires at <= |cs|
    ensures var after := InsertAt(cs, at, c); after[..at] == cs[..at] && after[at] == c && after[at + 1..] == cs[at..]
  {
  }

  lemma EditKeepsMarkers(json: Json, cs: seq<Comment>, i: nat, body: Option<string>)
    requires i < |cs| && !IsMarker(json, cs[i]) && !IsMarker(json, Comment(cs[i].id, body))
    ensures Markers(json, cs[i := Comment(cs[i].id, body)]) == Markers(json, cs)
  {
    hide IsMarker, Markers;
    var after := cs[i := Comment(cs[i].id, body)];
    MiddleCount(json, cs, i);
    MiddleCount(json, after, i);
    assert after[..i] == cs[..i] && after[i + 1..] == cs[i + 1..];
  }

  lemma MiddleCount(json: Json, cs: seq<Comment>, i: nat)
    requires i < |cs|
    ensures Markers(json, cs)
         == Markers(json, cs[..i]) + (if IsMarker(json, cs[i]) then 1 else 0) + Markers(json, cs[i + 1..])
  {
    hide IsMarker, Markers, Users;
    SplitAt(cs, i);
    CountAround(json, cs[..i], cs[i], cs[i + 1..]);
  }

  lemma SplitAt(cs: seq<Comment>, i: nat)
    requires i < |cs|
    ensures cs == cs[..i] + ([cs[i]] + cs[i + 1..])
  {
  }

  lemma CountAround(json: Json, a: seq<Comment>, c: Comment, b: seq<Comment>)
    ensures Markers(json, a + ([c] + b)) == Markers(json, a) + (if IsMarker(json, c) then 1 else 0) + Markers(json, b)
    ensures Users(json, a + ([c] + b)) == Users(json, a) + ((if IsMarker(json, c) then [] else [c]) + Users(json, b))
  {
    hide IsMarker, Markers, Users;
    Concat(json, a, [c] + b);
    Concat(json, [c], b);
    One(json, c);
  }

  /** With at most one marker, every listed marker is the same one, wherever it is. */
  lemma OneMarkerVisible(json: Json, cs: seq<Comment>, i: nat)
    requires Markers(json, cs) <= 1 && i < |cs| && IsMarker(json, cs[i])
    ensures i < |Listed(cs)| ==> Visible(json, cs) == DecodeMarker(json, BodyOf(cs[i])).value
    ensures i >= |Listed(cs)| ==> Load(json, cs).None?
  {
    hide DecodeMarker, Markers, FirstMarker;
    var first := Load(json, cs);
    assert i < |Listed(cs)| ==> Listed(cs)[i] == cs[i];
    if first.Some? {
      var j := first.value;
      assert Listed(cs)[j] == cs[j];
      if j < i {
        TwoMarkers(json, cs, j, i);
      }
    }
  }

  lemma TwoMarkers(json: Json, cs: seq<Comment>, i: nat, j: nat)
    requires i < j < |cs| && IsMarker(json, cs[i]) && IsMarker(json, cs[j])
    ensures Markers(json, cs) >= 2
  {
    hide IsMarker, Markers;
    MiddleCount(json, cs, i);
    assert cs[i + 1..][j - i - 1] == cs[j];
    MiddleCount(json, cs[i + 1..], j - i - 1);
  }

  /** What people do does not change the map, as long as the marker is listed before and after. */
  lemma PeopleKeepMap(json: Json, cs: seq<Comment>, op: Op)
    requires DistinctIds(cs) && Allowed(json, cs, op) && !op.Write? && Markers(json, cs) <= 1
    requires InWindow(json, cs) && InWindow(json, Applied(json, cs, op))
    ensures Visible(json, Applied(json, cs, op)) == Visible(json, cs)
  {
    hide IsMarker, Markers, FirstMarker, DecodeMarker, Applied;
    var after := Applied(json, cs, op);
    PeopleKeepMarkers(json, cs, op);
    NoMarkers(json, cs);
    NoMarkers(json, after);
    if Load(json, cs).Some? {
      var i := Load(json, cs).value;
      assert Listed(cs)[i] == cs[i];
      var j := Moved(json, cs, op, i);
      OneMarkerVisible(json, cs, i);
      OneMarkerVisible(json, after, j);
      assert Load(json, after).Some?;
    }
  }

  /** Where a marker is after something else was done. */
  lemma Moved(json: Json, cs: seq<Comment>, op: Op, i: nat) returns (j: nat)
    requires Allowed(json, cs, op) && !op.Write? && i < |cs| && IsMarker(json, cs[i])
    ensures j < |Applied(json, cs, op)| && Applied(json, cs, op)[j] == cs[i]
  {
    hide IsMarker;
    match op {
      case Post(_, at) => j := if at <= i then i + 1 else i;
      case Edit(_, _) => j := i;
      case Delete(k) => j := if k < i then i - 1 else i;
    }
  }

  /** Over a whole run the comments behave as the map of its writes, and there is never more than
      one marker. */
  lemma {:induction false} RunIsMap(json: Json, cs: seq<Comment>, ops: seq<Op>, end: seq<Comment>)
    requires Faithful(json) && DistinctIds(cs) && Markers(json, cs) <= 1 && IsRun(json, cs, ops, end)
    ensures Visible(json, end) == MapAfter(Visible(json, cs), ops)
    ensures Markers(json, end) <= 1 && DistinctIds(end)
    decreases |ops|
  {
    hide Faithful, Markers, Visible, Load, IsMarker, Updated, AfterWrite;
    if ops != [] {
      var op, next := ops[0], Applied(json, cs, ops[0]);
      assert InWindow(json, next);
      if op.Write? {
        WriteKeepsUsers(json, cs, op.key, op.value, op.p);
        WriteUpdatesMap(json, cs, op.key, op.value, op.p);
      } else {
        PeopleKeepMarkers(json, cs, op);
        PeopleKeepMap(json, cs, op);
      }
      RunIsMap(json, next, ops[1..], end);
    }
  }

  /** Writes must not overlap: a write taken between another one's load and its store is undone
      by that store. */
  lemma OverlappingWritesLoseOne(json: Json, cs: seq<Comment>, k1: string, v1: Value, k2: string, v2: Value, p: Place)
    requires Faithful(json) && DistinctIds(cs) && Fits(cs, p) && Load(json, cs).Some?
    ensures var late := Updated(Visible(json, cs), k1, v1);
      var between := AfterWrite(json, cs, k2, v2, p);
      && Fits(between, p)
      && Stored(json, between, FoundId(json, cs), late, p) == AfterWrite(json, cs, k1, v1, p)
  {
    hide Faithful, Visible, Updated, FirstMarker;
  }

  // ---- The tracker client --------------------------------------------------

  /** How the calls of one operation end. A refused call changes nothing; a lost one changed the
      comments although the caller sees an error. */
  datatype Reply = Taken | Refused | Lost

  class LinearIssue {
    const json: Json
    var comments: seq<Comment>

    constructor (json: Json, comments: seq<Comment>)
      ensures this.json == json && this.comments == comments
    {
      this.json := json;
      this.comments := comments;
    }

    /** The first listed comment that decodes, as an id and a field map. */
    method LoadMarkerComment() returns (id: Option<nat>, m: Option<FieldMap>)
      ensures id == FoundId(json, comments)
      ensures m == if Load(json, comments).None? then None else Some(Visible(json, comments))
    {
      hide DecodeMarker, FirstMarker;
      var nodes := Listed(comments);
      var i := 0;
      while i < |nodes|
        invariant 0 <= i <= |nodes|
        invariant forall k :: 0 <= k < i ==> !IsMarker(json, nodes[k])
      {
        var env := DecodeMarker(json, BodyOf(nodes[i]));
        if env.Some? {
          FirstAt(json, nodes, i, nodes);
          return Some(nodes[i].id), env;
        }
        i := i + 1;
      }
      return None, None;
    }

    method ReadCustomField(key: string, reply: Reply) returns (r: Option<Value>)
      ensures r == if reply.Taken? then Some(Get(Visible(json, comments), key)) else None
    {
      if !reply.Taken? {
        return None;
      }
      var id, m := LoadMarkerComment();
      r := Some(if m.Some? && key in m.value then m.value[key] else Null);
    }

    /** Load, change one field, store. */
    method WriteCustomField(key: string, value: Value, load: Reply, store: Reply, p: Place) returns (ok: bool)
      requires DistinctIds(comments) && Fits(comments, p)
      modifies this`comments
      ensures ok <==> load.Taken? && store.Taken?
      ensures comments == if load.Taken? && !store.Refused? then AfterWrite(json, old(comments), key, value, p)
                          else old(comments)
    {
      hide DecodeMarker, FirstMarker;
      if !load.Taken? {
        return false;
      }
      var id, env := LoadMarkerComment();
      var m := if env.Some? then env.value else map[];
      if value.Null? {
        m := m - {key};
      } else {
        m := m[key := value];
      }
      if !store.Refused? {
        var body := EncodeMarker(json, m);
        comments := if id.Some? then UpdateBody(comments, id.value, body)
                    else InsertAt(comments, p.at, Comment(p.id, Some(body)));
      }
      ok := store.Taken?;
    }
  }
}
