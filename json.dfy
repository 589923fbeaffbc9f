/**
 * JSON values as the core exchanges them: rapidjson documents on the C++
 * side and dicts and lists on the Python side. Objects keep their members
 * in order (rapidjson keeps insertion order, and so do Python dicts).
 */
module Json {
  import opened Common

  datatype Json =
    | JNull
    | JBool(b: bool)
    | JInt(i: int)
    /** A floating-point number, kept as the literal the writer prints. */
    | JDouble(literal: string)
    | JString(s: string)
    | JArray(elems: seq<Json>)
    | JObject(members: seq<(string, Json)>)

  type Members = seq<(string, Json)>

  // ---------------------------------------------------------------------
  // Member lookup (rapidjson FindMember / Python dict access)

  /** i is the first member named key. */
  predicate IsFirstKey(m: Members, key: string, i: int)
  {
    0 <= i < |m| && m[i].0 == key && forall j :: 0 <= j < i ==> m[j].0 != key
  }

  predicate HasKey(m: Members, key: string)
  {
    exists i :: 0 <= i < |m| && m[i].0 == key
  }

  /** The value of the first member named key, if any. */
  function Get(m: Members, key: string): (r: Option<Json>)
    ensures r.None? <==> !HasKey(m, key)
    ensures forall i :: IsFirstKey(m, key, i) ==> r == Some(m[i].1)
  {
    if |m| == 0 then None
    else if m[0].0 == key then Some(m[0].1)
    else
      var r := Get(m[1..], key);
      assert forall i :: IsFirstKey(m, key, i) ==> IsFirstKey(m[1..], key, i - 1);
      assert HasKey(m[1..], key) ==> HasKey(m, key) by {
        if HasKey(m[1..], key) {
          var i :| 0 <= i < |m[1..]| && m[1..][i].0 == key;
          assert m[i + 1].0 == key;
        }
      }
      r
  }

  /** The member named key when the value is an object, as `v["key"]` on a checked member. */
  function Member(v: Json, key: string): Option<Json>
  {
    if v.JObject? then Get(v.members, key) else None
  }

  /** The keys of an object, in order. */
  function Keys(m: Members): (r: seq<string>)
    ensures |r| == |m| && forall i :: 0 <= i < |m| ==> r[i] == m[i].0
  {
    if |m| == 0 then [] else [m[0].0] + Keys(m[1..])
  }

  lemma HasKeyCons(x: (string, Json), t: Members, key: string)
    ensures HasKey([x] + t, key) <==> x.0 == key || HasKey(t, key)
  {
    var m := [x] + t;
    assert m[0] == x;
    if HasKey(m, key) && x.0 != key {
      var i :| 0 <= i < |m| && m[i].0 == key;
      assert t[i - 1].0 == key;
    }
    if HasKey(t, key) {
      var i :| 0 <= i < |t| && t[i].0 == key;
      assert m[i + 1].0 == key;
    }
  }

  lemma GetCons(x: (string, Json), t: Members)
    ensures forall key :: Get([x] + t, key) == if x.0 == key then Some(x.1) else Get(t, key)
  {
    assert ([x] + t)[1..] == t;
  }

  lemma KeysCons(x: (string, Json), t: Members)
    ensures Keys([x] + t) == [x.0] + Keys(t)
  {
  }

  /**
   * Python's d[key] = v: an existing key keeps its position and takes the
   * new value, a new key is appended.
   */
  function Put(m: Members, key: string, v: Json): (r: Members)
    ensures Keys(r) == if HasKey(m, key) then Keys(m) else Keys(m) + [key]
    ensures Get(r, key) == Some(v)
    ensures forall k :: k != key ==> Get(r, k) == Get(m, k)
  {
    if |m| == 0 then [(key, v)]
    else if m[0].0 == key then
      var r := [(key, v)] + m[1..];
      assert m == [m[0]] + m[1..];
      KeysCons((key, v), m[1..]);
      KeysCons(m[0], m[1..]);
      HasKeyCons(m[0], m[1..], key);
      GetCons((key, v), m[1..]);
      GetCons(m[0], m[1..]);
      r
    else
      var t := Put(m[1..], key, v);
      var r := [m[0]] + t;
      assert m == [m[0]] + m[1..];
      KeysCons(m[0], t);
      KeysCons(m[0], m[1..]);
      HasKeyCons(m[0], m[1..], key);
      GetCons(m[0], t);
      GetCons(m[0], m[1..]);
      r
  }

  /** The value of the last member named key: the one a Python dict keeps. */
  function LastGet(m: Members, key: string): Option<Json>
  {
    if |m| == 0 then None
    else if m[|m| - 1].0 == key then Some(m[|m| - 1].1)
    else LastGet(m[..|m| - 1], key)
  }

  /** The last member named key is the one LastGet finds. */
  lemma {:induction false} LastGetAt(m: Members, i: nat)
    requires i < |m| && forall j :: i < j < |m| ==> m[j].0 != m[i].0
    ensures LastGet(m, m[i].0) == Some(m[i].1)
    decreases |m|
  {
    if i < |m| - 1 {
      assert forall j :: i < j < |m| - 1 ==> m[..|m| - 1][j] == m[j];
      LastGetAt(m[..|m| - 1], i);
    }
  }

  /**
   * Python's {**d, **e} / d.update(e): the members of ms assigned one by
   * one onto m, so a later member wins and m's keys keep their places.
   */
  function MergeAll(m: Members, ms: Members): (r: Members)
    ensures forall k :: Get(r, k) == if LastGet(ms, k).Some? then LastGet(ms, k) else Get(m, k)
    ensures Keys(m) <= Keys(r)
  {
    if |ms| == 0 then m
    else
      var last := ms[|ms| - 1];
      var r := MergeAll(m, ms[..|ms| - 1]);
      Put(r, last.0, last.1)
  }

  // ---------------------------------------------------------------------
  // The rapidjson Writer's compact text

  const Hex: string := "0123456789ABCDEF"

  /** How the writer prints one character inside a string literal. */
  function EscapeChar(c: char): (r: string)
    ensures |r| >= 1
    ensures c != '"' && c != '\\' && c >= ' ' ==> r == [c]
  {
    if c == '"' then "\\\""
    else if c == '\\' then "\\\\"
    else if c == '\n' then "\\n"
    else if c == '\r' then "\\r"
    else if c == '\t' then "\\t"
    else if c == '\U{08}' then "\\b"
    else if c == '\U{0C}' then "\\f"
    else if c < ' ' then "\\u00" + [Hex[(c as int) / 16], Hex[(c as int) % 16]]
    else [c]
  }

  /**
   * The writer's escaping of a string's characters: every character it
   * prints is printable, and the JSON reading of the escapes gives back
   * the string.
   */
  function EscapeString(s: string): (r: string)
    ensures |r| >= |s|
    ensures forall k :: 0 <= k < |r| ==> r[k] >= ' '
    ensures Unescape(r) == Some(s)
    decreases |s|
  {
    if |s| == 0 then []
    else
      var rest := EscapeString(s[1..]);
      UnescapeChar(s[0], rest);
      assert s == [s[0]] + s[1..];
      EscapeChar(s[0]) + rest
  }

  /** A string literal as the writer prints it: its body reads back as s. */
  function Quote(s: string): (r: string)
    ensures |r| >= 2 && r[0] == '"' && r[|r| - 1] == '"'
    ensures Unescape(r[1..|r| - 1]) == Some(s)
  {
    var r := "\"" + EscapeString(s) + "\"";
    assert r[1..|r| - 1] == EscapeString(s);
    r
  }

  // ---------------------------------------------------------------------
  // Reading escapes back, as a JSON reader does

  /** The value of an upper-case hexadecimal digit. */
  function HexValue(c: char): (r: Option<nat>)
    ensures r.Some? ==> r.value < 16 && Hex[r.value] == c
  {
    if '0' <= c <= '9' then Some(c as int - '0' as int)
    else if 'A' <= c <= 'F' then Some(c as int - 'A' as int + 10)
    else None
  }

  /** The character a two-character escape stands for. */
  function ShortEscape(e: char): Option<char>
  {
    if e == '"' then Some('"')
    else if e == '\\' then Some('\\')
    else if e == 'n' then Some('\n')
    else if e == 'r' then Some('\r')
    else if e == 't' then Some('\t')
    else if e == 'b' then Some('\U{08}')
    else if e == 'f' then Some('\U{0C}')
    else None
  }

  /**
   * The body of a JSON string literal read back: None for a bare quote, a
   * bare control character or an escape the writer never produces.
   */
  function Unescape(t: string): Option<string>
    decreases |t|
  {
    if t == [] then Some([])
    else if t[0] == '\\' then
      if |t| >= 6 && t[1] == 'u' && t[2] == '0' && t[3] == '0' && HexValue(t[4]).Some? && HexValue(t[5]).Some? then
        match Unescape(t[6..])
        case None => None
        case Some(rest) => Some([(16 * HexValue(t[4]).value + HexValue(t[5]).value) as char] + rest)
      else if |t| >= 2 && ShortEscape(t[1]).Some? then
        match Unescape(t[2..])
        case None => None
        case Some(rest) => Some([ShortEscape(t[1]).value] + rest)
      else None
    else if t[0] == '"' || t[0] < ' ' then None
    else
      match Unescape(t[1..])
      case None => None
      case Some(rest) => Some([t[0]] + rest)
  }

  lemma HexValueOf(i: nat)
    requires i < 16
    ensures HexValue(Hex[i]) == Some(i)
  {
  }

  /** One escaped character reads back as itself, whatever follows it. */
  lemma UnescapeChar(c: char, rest: string)
    ensures forall k :: 0 <= k < |EscapeChar(c)| ==> EscapeChar(c)[k] >= ' '
    ensures Unescape(EscapeChar(c) + rest) ==
      match Unescape(rest) case None => None case Some(u) => Some([c] + u)
  {
    var t := EscapeChar(c) + rest;
    if c < ' ' && c != '\n' && c != '\r' && c != '\t' && c != '\U{08}' && c != '\U{0C}' {
      var hi, lo := (c as int) / 16, (c as int) % 16;
      HexValueOf(hi);
      HexValueOf(lo);
      assert t[6..] == rest;
      assert (16 * hi + lo) as char == c;
    } else if c == '"' || c == '\\' || c == '\n' || c == '\r' || c == '\t' || c == '\U{08}' || c == '\U{0C}' {
      assert t[2..] == rest;
    } else {
      assert t[1..] == rest;
    }
  }

  /** rapidjson's Writer output for a value: no white space between tokens. */
  function Write(j: Json): (r: string)
    ensures |r| >= 1
    ensures j.JObject? ==> r[0] == '{' && r[|r| - 1] == '}'
    ensures j.JString? ==> r == Quote(j.s)
  {
    match j
    case JNull => "null"
    case JBool(b) => if b then "true" else "false"
    case JInt(i) => IntToString(i)
    case JDouble(lit) => if lit == [] then "0" else lit
    case JString(s) => Quote(s)
    case JArray(es) => "[" + Join(seq(|es|, k requires 0 <= k < |es| => Write(es[k])), ",") + "]"
    case JObject(ms) =>
      "{" + Join(seq(|ms|, k requires 0 <= k < |ms| => Quote(ms[k].0) + ":" + Write(ms[k].1)), ",") + "}"
  }
}
