/**
 * Configuration categories (C/common/config_category.cpp).
 *
 * A category is a name, a description and an ordered list of items. Each
 * item is built from one member of the category's JSON document; its value
 * and default are kept as text together with a type tag chosen from the
 * JSON kind of the value and default and from the item's declared "type".
 * The category answers lookups by item name (first match wins) and renders
 * itself back to JSON, either in full or with the defaults only.
 */
module ConfigCategory {
  import opened Common
  import opened Json

  /**
   * The item type tag (m_itemType). UnsetItem stands for the tag the C++
   * leaves uninitialised when neither "value" nor "default" is recognised.
   */
  datatype ItemType = StringItem | JsonItem | BoolItem | NumberItem | DoubleItem | UnsetItem

  datatype CategoryItem = CategoryItem(
    name: string,
    description: string,
    typeName: string,
    order: string,
    readonly: string,
    value: string,
    defaultValue: string,
    itemType: ItemType)

  /** Why building one item fails. */
  datatype ItemError =
    | ItemNotObject        // the member's value is not a JSON object: ConfigMalformed
    | ItemJsonUnparsable   // a JSON-typed string does not parse: runtime_error
    | ItemJsonNotObject    // a JSON-typed string parses to a non-object: runtime_error
    | ItemAssertion        // GetString on a non-string member: rapidjson asserts

  datatype ConfigError =
    | ConfigMalformed
    | ConfigItemNotFound
    | ConfigValueFoundWithDefault(itemName: string)
    /** A rapidjson assertion: the process aborts rather than throws. */
    | AssertionFailure

  /** rapidjson's Document::Parse, which is not part of this model: None is a parse error. */
  type Parser = string -> Option<Json>

  // ---------------------------------------------------------------------
  // escape and unescape (CategoryItem::escape, CategoryItem::unescape)

  /** Every double quote preceded by a backslash. */
  function EscapeQuotes(s: string): string
  {
    if s == [] then [] else (if s[0] == '"' then "\\\"" else [s[0]]) + EscapeQuotes(s[1..])
  }

  /** Each backslash-quote pair, read left to right, becomes a quote. */
  function DropQuoteBackslashes(s: string): string
  {
    if |s| >= 2 && s[0] == '\\' && s[1] == '"' then "\"" + DropQuoteBackslashes(s[2..])
    else if s == [] then []
    else [s[0]] + DropQuoteBackslashes(s[1..])
  }

  /**
   * One leading and one trailing double quote removed. (On a string that
   * is or becomes empty the C++ reads json[npos]; the model keeps "".)
   */
  function StripQuotes(s: string): (r: string)
    ensures |r| <= |s|
  {
    var t := if s != [] && s[0] == '"' then s[1..] else s;
    if t != [] && t[|t| - 1] == '"' then t[..|t| - 1] else t
  }

  function UnescapeText(s: string): string
  {
    StripQuotes(DropQuoteBackslashes(s))
  }

  predicate NoQuoteIn(s: string)
  {
    forall k :: 0 <= k < |s| ==> s[k] != '"'
  }

  lemma {:induction false} EscapeQuotesAppend(a: string, b: string)
    ensures EscapeQuotes(a + b) == EscapeQuotes(a) + EscapeQuotes(b)
  {
    if a != [] {
      var ab := a + b;
      assert ab[0] == a[0] && ab[1..] == a[1..] + b;
      var head := if a[0] == '"' then "\\\"" else [a[0]];
      assert EscapeQuotes(ab) == head + EscapeQuotes(ab[1..]);
      assert EscapeQuotes(a) == head + EscapeQuotes(a[1..]);
      EscapeQuotesAppend(a[1..], b);
    } else {
      assert a + b == b;
    }
  }

  lemma {:induction false} EscapeQuotesOfQuoteless(s: string)
    requires NoQuoteIn(s)
    ensures EscapeQuotes(s) == s
  {
    if s != [] {
      EscapeQuotesOfQuoteless(s[1..]);
    }
  }

  /** Where find reports no one-character match, that character is absent. */
  lemma NoMatchMeansNoChar(s: string, c: char, lo: int, hi: int)
    requires 0 <= lo <= hi <= |s|
    requires forall k :: lo <= k ==> !MatchesAt(s, [c], k)
    ensures forall k :: lo <= k < |s| ==> s[k] != c
  {
    forall k | lo <= k < |s| ensures s[k] != c {
      assert !MatchesAt(s, [c], k);
      assert s[k..k + 1] == [s[k]];
    }
  }

  lemma NoMatchBetween(s: string, c: char, lo: int, hi: int)
    requires 0 <= lo <= hi <= |s|
    requires forall k :: lo <= k < hi ==> !MatchesAt(s, [c], k)
    ensures NoQuoteIn(s[lo..hi]) || c != '"'
  {
    if c == '"' {
      forall k | 0 <= k < hi - lo ensures s[lo..hi][k] != c {
        assert !MatchesAt(s, [c], lo + k);
        assert s[lo + k..lo + k + 1] == [s[lo + k]];
      }
    }
  }

  lemma EscapeQuotesAtQuote(x: string)
    requires x != [] && x[0] == '"'
    ensures EscapeQuotes(x) == "\\\"" + EscapeQuotes(x[1..])
  {
  }

  lemma Regroup(a: string, b: string, c: string, d: string)
    ensures a + (b + c + d) == (a + b + c) + d
  {
  }

  lemma Regroup3(a: string, b: string, d: string)
    ensures a + (b + d) == (a + b) + d
  {
  }

  /** The quote at p, with none between pos and p, is the next one escaped. */
  lemma EscapeAt(e: string, pos: nat, p: nat)
    requires pos <= p < |e| && e[p] == '"'
    requires NoQuoteIn(e[pos..p])
    ensures EscapeQuotes(e[pos..]) == e[pos..p] + "\\\"" + EscapeQuotes(e[p + 1..])
  {
    assert e[pos..] == e[pos..p] + e[p..];
    EscapeQuotesAppend(e[pos..p], e[p..]);
    EscapeQuotesOfQuoteless(e[pos..p]);
    EscapeQuotesAtQuote(e[p..]);
    assert e[p..][1..] == e[p + 1..];
  }

  /** What find reports about the next quote. */
  lemma FoundQuote(e: string, pos: nat, p: nat)
    requires Find(e, "\"", pos) == Some(p)
    ensures pos <= p < |e| && e[p] == '"' && NoQuoteIn(e[pos..p])
  {
    assert e[p..p + 1] == [e[p]];
    NoMatchBetween(e, '"', pos, p);
  }

  /** The parts of e with ins spliced in for the character at p. */
  lemma SplicedParts(e: string, pos: nat, p: nat, ins: string)
    requires pos <= p < |e|
    ensures var next := e[..p] + ins + e[p + 1..];
      next[..p + |ins|] == e[..pos] + e[pos..p] + ins && next[p + |ins|..] == e[p + 1..]
  {
  }

  /** One turn of escape's loop keeps the part before pos final. */
  lemma EscapeStep(subject: string, e: string, pos: nat, p: nat)
    requires pos <= p < |e| && e[p] == '"' && NoQuoteIn(e[pos..p])
    requires EscapeQuotes(subject) == e[..pos] + EscapeQuotes(e[pos..])
    ensures var next := e[..p] + "\\\"" + e[p + 1..];
      EscapeQuotes(subject) == next[..p + 2] + EscapeQuotes(next[p + 2..])
  {
    EscapeAt(e, pos, p);
    SplicedParts(e, pos, p, "\\\"");
    Regroup(e[..pos], e[pos..p], "\\\"", EscapeQuotes(e[p + 1..]));
  }

  lemma NoQuoteFound(e: string, pos: nat)
    requires pos <= |e| && Find(e, "\"", pos).None?
    ensures NoQuoteIn(e[pos..])
  {
    NoMatchBetween(e, '"', pos, |e|);
    assert e[pos..|e|] == e[pos..];
  }

  /** When no quote is left after pos, escape's result is complete. */
  lemma EscapeDone(subject: string, e: string, pos: nat)
    requires pos <= |e| && NoQuoteIn(e[pos..])
    requires EscapeQuotes(subject) == e[..pos] + EscapeQuotes(e[pos..])
    ensures EscapeQuotes(subject) == e
  {
    EscapeQuotesOfQuoteless(e[pos..]);
    assert e == e[..pos] + e[pos..];
  }

  /** escape, as the loop in CategoryItem::escape computes it. */
  method Escape(subject: string) returns (escaped: string)
    ensures escaped == EscapeQuotes(subject)
  {
    escaped := subject;
    var pos: nat := 0;
    var found := Find(escaped, "\"", pos);
    while found.Some?
      invariant pos <= |escaped|
      invariant found == Find(escaped, "\"", pos)
      invariant EscapeQuotes(subject) == escaped[..pos] + EscapeQuotes(escaped[pos..])
      decreases |escaped| - pos
    {
      var p := found.value;
      FoundQuote(escaped, pos, p);
      EscapeStep(subject, escaped, pos, p);
      escaped := escaped[..p] + "\\\"" + escaped[p + 1..];
      pos := p + 2;
      found := Find(escaped, "\"", pos);
    }
    NoQuoteFound(escaped, pos);
    EscapeDone(subject, escaped, pos);
  }

  predicate NoBackslashQuoteIn(s: string)
  {
    forall k :: 0 <= k < |s| - 1 ==> !(s[k] == '\\' && s[k + 1] == '"')
  }

  lemma {:induction false} DropOfPlain(a: string, b: string)
    requires NoBackslashQuoteIn(a)
    requires a != [] ==> a[|a| - 1] != '\\' || b == [] || b[0] != '"'
    ensures DropQuoteBackslashes(a + b) == a + DropQuoteBackslashes(b)
  {
    if a == [] {
      assert a + b == b;
    } else {
      var t := a[1..];
      assert a == [a[0]] + t;
      assert a + b == [a[0]] + (t + b);
      if |a| == 1 {
        assert t + b == b;
      } else {
        assert (t + b)[0] == a[1];
        assert !(a[0] == '\\' && a[1] == '"');
        assert NoBackslashQuoteIn(t) by {
          forall k | 0 <= k < |t| - 1
            ensures !(t[k] == '\\' && t[k + 1] == '"')
          {
            assert t[k] == a[k + 1] && t[k + 1] == a[k + 2];
          }
        }
        assert t[|t| - 1] == a[|a| - 1];
      }
      DropCons(a[0], t + b);
      DropOfPlain(t, b);
    }
  }

  lemma NoPairMatchBetween(s: string, lo: int, hi: int)
    requires 0 <= lo <= hi <= |s|
    requires forall k :: lo <= k < hi ==> !MatchesAt(s, "\\\"", k)
    ensures NoBackslashQuoteIn(s[lo..hi])
  {
    forall k | 0 <= k < hi - lo - 1
      ensures !(s[lo..hi][k] == '\\' && s[lo..hi][k + 1] == '"')
    {
      assert !MatchesAt(s, "\\\"", lo + k);
      assert s[lo + k..lo + k + 2] == [s[lo + k], s[lo + k + 1]];
    }
  }

  lemma DropSkipsBackslash(x: string)
    requires |x| >= 2 && x[0] == '\\' && x[1] == '"'
    ensures DropQuoteBackslashes(x) == DropQuoteBackslashes(x[1..])
  {
    assert x[1..][0] == '"';
    assert x[1..][1..] == x[2..];
  }

  /** The pair at p, with none between pos and p, is the next one undone. */
  lemma DropAt(j: string, pos: nat, p: nat)
    requires pos <= p && p + 1 < |j| && j[p] == '\\' && j[p + 1] == '"'
    requires NoBackslashQuoteIn(j[pos..p])
    ensures DropQuoteBackslashes(j[pos..]) == j[pos..p] + DropQuoteBackslashes(j[p + 1..])
  {
    assert j[pos..] == j[pos..p] + j[p..];
    DropOfPlain(j[pos..p], j[p..]);
    DropSkipsBackslash(j[p..]);
    assert j[p..][1..] == j[p + 1..];
  }

  /** What find reports about the next backslash-quote pair. */
  lemma FoundPair(j: string, pos: nat, p: nat)
    requires Find(j, "\\\"", pos) == Some(p)
    ensures pos <= p && p + 1 < |j| && j[p] == '\\' && j[p + 1] == '"' && NoBackslashQuoteIn(j[pos..p])
  {
    assert j[p..p + 2] == [j[p], j[p + 1]];
    NoPairMatchBetween(j, pos, p);
  }

  /** One turn of unescape's loop: the backslash at p goes, the quote after it stays. */
  lemma UnescapeStep(subject: string, j: string, pos: nat, p: nat)
    requires pos <= p && p + 1 < |j| && j[p] == '\\' && j[p + 1] == '"' && NoBackslashQuoteIn(j[pos..p])
    requires DropQuoteBackslashes(subject) == j[..pos] + DropQuoteBackslashes(j[pos..])
    ensures var next := j[..p] + j[p + 1..];
      DropQuoteBackslashes(subject) == next[..p] + DropQuoteBackslashes(next[p..])
  {
    DropAt(j, pos, p);
    var next := j[..p] + j[p + 1..];
    assert next[..p] == j[..pos] + j[pos..p] && next[p..] == j[p + 1..];
    Regroup3(j[..pos], j[pos..p], DropQuoteBackslashes(j[p + 1..]));
  }

  lemma NoPairFound(j: string, pos: nat)
    requires pos <= |j| && Find(j, "\\\"", pos).None?
    ensures NoBackslashQuoteIn(j[pos..])
  {
    NoPairMatchBetween(j, pos, |j|);
    assert j[pos..|j|] == j[pos..];
  }

  lemma UnescapeDone(subject: string, j: string, pos: nat)
    requires pos <= |j| && NoBackslashQuoteIn(j[pos..])
    requires DropQuoteBackslashes(subject) == j[..pos] + DropQuoteBackslashes(j[pos..])
    ensures DropQuoteBackslashes(subject) == j
  {
    DropOfPlain(j[pos..], []);
    assert j[pos..] + [] == j[pos..];
    assert j == j[..pos] + j[pos..];
  }

  /** The loop of CategoryItem::unescape: each backslash before a quote is erased in place. */
  method RemoveQuoteBackslashes(subject: string) returns (json: string)
    ensures json == DropQuoteBackslashes(subject)
  {
    json := subject;
    var pos: nat := 0;
    var found := Find(json, "\\\"", pos);
    while found.Some?
      invariant pos <= |json|
      invariant found == Find(json, "\\\"", pos)
      invariant DropQuoteBackslashes(subject) == json[..pos] + DropQuoteBackslashes(json[pos..])
      decreases |json|
    {
      var p := found.value;
      FoundPair(json, pos, p);
      UnescapeStep(subject, json, pos, p);
      json := json[..p] + json[p + 1..];
      pos := p;
      found := Find(json, "\\\"", pos);
    }
    NoPairFound(json, pos);
    UnescapeDone(subject, json, pos);
  }

  /** CategoryItem::unescape: the loop, then the leading and the trailing quote erased. */
  method Unescape(subject: string) returns (json: string)
    ensures json == UnescapeText(subject)
  {
    json := RemoveQuoteBackslashes(subject);
    if json != [] && json[0] == '"' {
      json := json[1..];
    }
    if json != [] && json[|json| - 1] == '"' {
      json := json[..|json| - 1];
    }
  }

  /** unescape undoes escape: every backslash escape is read back as the quote it stood for. */
  lemma {:induction false} DropQuoteBackslashesOfEscape(s: string)
    ensures DropQuoteBackslashes(EscapeQuotes(s)) == s
  {
    if s != [] {
      var x := EscapeQuotes(s[1..]);
      DropQuoteBackslashesOfEscape(s[1..]);
      if s[0] == '"' {
        assert EscapeQuotes(s) == "\\\"" + x;
        assert ("\\\"" + x)[2..] == x;
      } else {
        assert EscapeQuotes(s) == [s[0]] + x;
        assert x != [] ==> x[0] != '"' by {
          if x != [] {
            assert s[1..] != [];
          }
        }
        assert ([s[0]] + x)[1..] == x;
      }
    }
  }

  /** The round trip the default renderer relies on, for text not framed by quotes. */
  lemma UnescapeOfEscape(s: string)
    requires s == [] || (s[0] != '"' && s[|s| - 1] != '"')
    ensures UnescapeText(EscapeQuotes(s)) == s
  {
    DropQuoteBackslashesOfEscape(s);
  }

  // ---------------------------------------------------------------------
  // Building an item from its JSON member (CategoryItem(name, Value))

  /** A string member read with GetString when present, "" when absent. */
  function OptionalString(m: Members, key: string): (r: Result<string, ItemError>)
    ensures r.Err? ==> r.error == ItemAssertion
    ensures !HasKey(m, key) ==> r == Ok("")
    ensures forall s :: Get(m, key) == Some(JString(s)) ==> r == Ok(s)
  {
    match Get(m, key)
    case None => Ok("")
    case Some(v) => if v.JString? then Ok(v.s) else Err(ItemAssertion)
  }

  /**
   * The text and type tag one of "value" or "default" contributes, or None
   * when it is absent or of a kind none of the branches recognise.
   */
  function ReadField(m: Members, key: string, declared: string, parse: Parser)
    : (r: Result<Option<(string, ItemType)>, ItemError>)
    // Absent: stored as "" and the tag is left alone.
    ensures !HasKey(m, key) ==> r == Ok(None)
    // A JSON item's text is an object: either the member was one, or its string re-parses to one.
    ensures r.Ok? && r.value.Some? && r.value.value.1 == JsonItem ==>
      Get(m, key).value.JObject? || (var p := parse(r.value.value.0); p.Some? && p.value.JObject?)
    // Only a JSON-typed string that is not an object, or a non-string under "boolean", fails.
    ensures r.Err? ==> (HasKey(m, key) && !Get(m, key).value.JObject? &&
                        if declared == "JSON" then r.error in {ItemJsonUnparsable, ItemJsonNotObject}
                        else declared == "boolean" && r.error == ItemAssertion)
  {
    match Get(m, key)
    case None => Ok(None)
    case Some(v) =>
      if v.JObject? || declared == "JSON" then
        if v.JObject? then Ok(Some((Write(v), JsonItem)))
        else
          var text := UnescapeText(Write(v));
          match parse(text)
          case None => Err(ItemJsonUnparsable)
          case Some(doc) => if doc.JObject? then Ok(Some((text, JsonItem))) else Err(ItemJsonNotObject)
      else if v.JBool? || declared == "boolean" then
        if v.JBool? then Ok(Some((if v.b then "true" else "false", BoolItem)))
        else if v.JString? then Ok(Some((v.s, BoolItem)))
        else Err(ItemAssertion)
      else if v.JString? then Ok(Some((v.s, StringItem)))
      else if v.JDouble? then Ok(Some((Write(v), DoubleItem)))
      else if v.JInt? then Ok(Some((Write(v), NumberItem)))
      else Ok(None)
  }

  /**
   * The branches of the item constructor for one of "value" and "default",
   * in the order the constructor tries them.
   */
  lemma ReadFieldKinds(m: Members, key: string, declared: string, parse: Parser)
    requires HasKey(m, key)
    // An object, or anything under type "JSON", becomes a JSON item or is refused.
    ensures Get(m, key).value.JObject? ==> ReadField(m, key, declared, parse) == Ok(Some((Write(Get(m, key).value), JsonItem)))
    ensures declared == "JSON" && !Get(m, key).value.JObject? ==>
      ReadField(m, key, declared, parse).Err? || ReadField(m, key, declared, parse).value == Some((UnescapeText(Write(Get(m, key).value)), JsonItem))
    // Otherwise a boolean, or anything under type "boolean", is a bool item.
    ensures declared != "JSON" && Get(m, key).value.JBool? ==>
      ReadField(m, key, declared, parse) == Ok(Some((if Get(m, key).value.b then "true" else "false", BoolItem)))
    ensures declared == "boolean" && Get(m, key).value.JString? ==>
      ReadField(m, key, declared, parse) == Ok(Some((Get(m, key).value.s, BoolItem)))
    // Otherwise strings, doubles and other numbers keep their text.
    ensures declared != "JSON" && declared != "boolean" && Get(m, key).value.JString? ==>
      ReadField(m, key, declared, parse) == Ok(Some((Get(m, key).value.s, StringItem)))
    ensures declared != "JSON" && declared != "boolean" && Get(m, key).value.JDouble? ==>
      ReadField(m, key, declared, parse) == Ok(Some((Write(Get(m, key).value), DoubleItem)))
    ensures declared != "JSON" && declared != "boolean" && Get(m, key).value.JInt? ==>
      ReadField(m, key, declared, parse) == Ok(Some((IntToString(Get(m, key).value.i), NumberItem)))
    // Null and arrays are not recognised.
    ensures declared != "JSON" && declared != "boolean" && (Get(m, key).value.JNull? || Get(m, key).value.JArray?) ==>
      ReadField(m, key, declared, parse) == Ok(None)
  {
  }

  function FieldText(f: Option<(string, ItemType)>): string
  {
    if f.Some? then f.value.0 else ""
  }

  /** The item built from one member of a category document. */
  function MakeItem(name: string, item: Json, parse: Parser): (r: Result<CategoryItem, ItemError>)
    ensures r == Err(ItemNotObject) <==> !item.JObject?
    ensures r.Ok? ==> r.value.name == name
  {
    if !item.JObject? then Err(ItemNotObject)
    else
      var m := item.members;
      match OptionalString(m, "type")
      case Err(e) => Err(e)
      case Ok(typeName) =>
        match OptionalString(m, "description")
        case Err(e) => Err(e)
        case Ok(description) =>
          match OptionalString(m, "order")
          case Err(e) => Err(e)
          case Ok(order) =>
            match OptionalString(m, "readonly")
            case Err(e) => Err(e)
            case Ok(readonly) =>
              match ReadField(m, "value", typeName, parse)
              case Err(e) => Err(e)
              case Ok(vv) =>
                match ReadField(m, "default", typeName, parse)
                case Err(e) => Err(e)
                case Ok(dv) =>
                  var tag := if dv.Some? then dv.value.1 else if vv.Some? then vv.value.1 else UnsetItem;
                  Ok(CategoryItem(name, description, typeName, order, readonly, FieldText(vv), FieldText(dv), tag))
  }

  /**
   * The item's type tag comes from "default" when its kind is recognised,
   * else from "value", else none is set; the text of value and default is
   * what their branch read ("" when unrecognised).
   */
  lemma MakeItemTag(name: string, item: Json, parse: Parser)
    ensures var r := MakeItem(name, item, parse);
      r.Ok? ==>
        var dv := ReadField(item.members, "default", r.value.typeName, parse);
        var vv := ReadField(item.members, "value", r.value.typeName, parse);
        dv.Ok? && vv.Ok? &&
        r.value.itemType == (if dv.value.Some? then dv.value.value.1 else if vv.value.Some? then vv.value.value.1 else UnsetItem) &&
        r.value.value == FieldText(vv.value) &&
        r.value.defaultValue == FieldText(dv.value)
  {
  }

  /** The item built from a member whose reads all succeed, in terms of what they read. */
  lemma MakeItemOfReads(name: string, item: Json, parse: Parser, typeName: string, description: string,
                        order: string, readonly: string, vv: Option<(string, ItemType)>, dv: Option<(string, ItemType)>)
    requires item.JObject?
    requires OptionalString(item.members, "type") == Ok(typeName)
    requires OptionalString(item.members, "description") == Ok(description)
    requires OptionalString(item.members, "order") == Ok(order)
    requires OptionalString(item.members, "readonly") == Ok(readonly)
    requires ReadField(item.members, "value", typeName, parse) == Ok(vv)
    requires ReadField(item.members, "default", typeName, parse) == Ok(dv)
    ensures MakeItem(name, item, parse) ==
      Ok(CategoryItem(name, description, typeName, order, readonly, FieldText(vv), FieldText(dv),
                      if dv.Some? then dv.value.1 else if vv.Some? then vv.value.1 else UnsetItem))
  {
  }

  /** What the item constructor reads from its member, and when it fails. */
  lemma MakeItemFields(name: string, item: Json, parse: Parser)
    requires item.JObject?
    ensures var r := MakeItem(name, item, parse);
      r.Ok? ==> OptionalString(item.members, "type") == Ok(r.value.typeName) &&
                OptionalString(item.members, "description") == Ok(r.value.description) &&
                OptionalString(item.members, "order") == Ok(r.value.order) &&
                OptionalString(item.members, "readonly") == Ok(r.value.readonly)
    // Building succeeds exactly when the four descriptive members and both fields read.
    ensures MakeItem(name, item, parse).Ok? <==>
        OptionalString(item.members, "type").Ok? &&
        OptionalString(item.members, "description").Ok? &&
        OptionalString(item.members, "order").Ok? &&
        OptionalString(item.members, "readonly").Ok? &&
        ReadField(item.members, "value", OptionalString(item.members, "type").value, parse).Ok? &&
        ReadField(item.members, "default", OptionalString(item.members, "type").value, parse).Ok?
  {
  }

  /** Text the writer copies unchanged except for its double quotes. */
  predicate PlainText(t: string)
  {
    forall k :: 0 <= k < |t| ==> t[k] != '\\' && t[k] >= ' '
  }

  lemma {:induction false} WriterEscapeOfPlain(t: string)
    requires PlainText(t)
    ensures EscapeString(t) == EscapeQuotes(t)
  {
    if t != [] {
      WriterEscapeOfPlain(t[1..]);
    }
  }

  lemma DropCons(c: char, rest: string)
    requires !(c == '\\' && rest != [] && rest[0] == '"')
    ensures DropQuoteBackslashes([c] + rest) == [c] + DropQuoteBackslashes(rest)
  {
    assert ([c] + rest)[1..] == rest;
  }

  lemma DropPair(rest: string)
    ensures DropQuoteBackslashes("\\\"" + rest) == "\"" + DropQuoteBackslashes(rest)
  {
    assert ("\\\"" + rest)[2..] == rest;
  }

  lemma {:induction false} DropConcat(a: string, b: string)
    requires a == [] || a[|a| - 1] != '\\'
    ensures DropQuoteBackslashes(a + b) == DropQuoteBackslashes(a) + DropQuoteBackslashes(b)
    decreases |a|, 1
  {
    if a == [] {
      assert a + b == b;
    } else if |a| >= 2 && a[0] == '\\' && a[1] == '"' {
      DropConcatPair(a, b);
    } else {
      DropConcatCons(a, b);
    }
  }

  lemma {:induction false} DropConcatPair(a: string, b: string)
    requires |a| >= 2 && a[0] == '\\' && a[1] == '"' && a[|a| - 1] != '\\'
    ensures DropQuoteBackslashes(a + b) == DropQuoteBackslashes(a) + DropQuoteBackslashes(b)
    decreases |a|, 0
  {
    var t := a[2..];
    assert a == "\\\"" + t;
    assert a + b == "\\\"" + (t + b);
    DropPair(t);
    DropPair(t + b);
    DropConcat(t, b);
  }

  lemma {:induction false} DropConcatCons(a: string, b: string)
    requires a != [] && a[|a| - 1] != '\\' && !(|a| >= 2 && a[0] == '\\' && a[1] == '"')
    ensures DropQuoteBackslashes(a + b) == DropQuoteBackslashes(a) + DropQuoteBackslashes(b)
    decreases |a|, 0
  {
    var t := a[1..];
    assert a == [a[0]] + t;
    assert a + b == [a[0]] + (t + b);
    if |a| == 1 {
      assert t + b == b;
    } else {
      assert (t + b)[0] == t[0];
    }
    DropCons(a[0], t);
    DropCons(a[0], t + b);
    DropConcat(t, b);
  }

  lemma EscapeQuotesLast(t: string)
    requires t != [] && t[|t| - 1] != '\\'
    ensures EscapeQuotes(t)[|EscapeQuotes(t)| - 1] != '\\'
  {
    var n := |t|;
    assert t == t[..n - 1] + [t[n - 1]];
    EscapeQuotesAppend(t[..n - 1], [t[n - 1]]);
  }

  lemma DropFramed(e: string)
    requires e == [] || e[|e| - 1] != '\\'
    ensures DropQuoteBackslashes("\"" + e + "\"") == "\"" + DropQuoteBackslashes(e) + "\""
  {
    var x := e + "\"";
    assert "\"" + e + "\"" == "\"" + x;
    DropCons('"', x);
    DropConcat(e, "\"");
    assert DropQuoteBackslashes("\"") == "\"";
    Regroup3("\"", DropQuoteBackslashes(e), "\"");
  }

  lemma StripFramed(t: string)
    ensures StripQuotes("\"" + t + "\"") == t
  {
    var f := "\"" + t + "\"";
    assert f[1..] == t + "\"";
    assert (t + "\"")[..|t|] == t;
  }

  /**
   * A string member of a JSON-typed item is written out by the writer and
   * read back by unescape: for text with no backslash and no control
   * character the stored text is the string itself.
   */
  lemma JsonStringRecovered(t: string)
    requires PlainText(t)
    ensures UnescapeText(Write(JString(t))) == t
  {
    var e := EscapeQuotes(t);
    WriterEscapeOfPlain(t);
    assert Write(JString(t)) == "\"" + e + "\"";
    if t != [] {
      EscapeQuotesLast(t);
    }
    DropFramed(e);
    DropQuoteBackslashesOfEscape(t);
    StripFramed(t);
  }

  /**
   * An item declared "JSON" whose default is a string holding a JSON object
   * keeps that text as its default and becomes a JSON item.
   */
  lemma JsonTypedStringField(m: Members, key: string, t: string, parse: Parser)
    requires Get(m, key) == Some(JString(t)) && PlainText(t)
    requires parse(t).Some? && parse(t).value.JObject?
    ensures ReadField(m, key, "JSON", parse) == Ok(Some((t, JsonItem)))
  {
    JsonStringRecovered(t);
  }

  /** ... and one whose string does not parse as a JSON object is refused. */
  lemma JsonTypedStringRefused(m: Members, key: string, t: string, parse: Parser)
    requires Get(m, key) == Some(JString(t)) && PlainText(t)
    requires parse(t).None? || !parse(t).value.JObject?
    ensures ReadField(m, key, "JSON", parse).Err?
  {
    JsonStringRecovered(t);
  }

  lemma IntToString100()
    ensures IntToString(100) == "100"
  {
    assert DigitChar(0) == '0' && DigitChar(1) == '1';
    assert NatToString(1) == "1";
    assert 10 / 10 == 1 && 10 % 10 == 0 && 100 / 10 == 10 && 100 % 10 == 0;
    assert NatToString(10) == "10";
  }

  /** The members of the "factor" item of the unit test. */
  const FactorMembers: Members :=
    [("value", JString("101")), ("type", JString("integer")),
     ("default", JInt(100)), ("description", JString("The factor value"))]

  /** The unit test's "factor" item: its string value "101" reads as a string. */
  lemma FactorValueField(parse: Parser)
    ensures ReadField(FactorMembers, "value", "integer", parse) == Ok(Some(("101", StringItem)))
  {
    assert Get(FactorMembers, "value") == Some(JString("101"));
  }

  /** The unit test's "factor" item: its numeric default 100 reads as the number text "100". */
  lemma FactorDefaultField(parse: Parser)
    ensures ReadField(FactorMembers, "default", "integer", parse) == Ok(Some(("100", NumberItem)))
  {
    assert Get(FactorMembers, "default") == Some(JInt(100));
    IntToString100();
  }

  /** How the category constructor reports a failed item: exceptions become ConfigMalformed. */
  function CategoryErrorOf(e: ItemError): ConfigError
  {
    if e == ItemAssertion then AssertionFailure else ConfigMalformed
  }

  /** The item constructor, as a value, with the parser it uses for JSON-typed values. */
  type ItemMaker = (string, Json) -> Result<CategoryItem, ItemError>

  function MakerFor(parse: Parser): ItemMaker
  {
    (name: string, item: Json) => MakeItem(name, item, parse)
  }

  /** The items of a category document, in member order; the first failing member decides the error. */
  function BuildItems(members: Members, make: ItemMaker): (r: Result<seq<CategoryItem>, ConfigError>)
    ensures r.Ok? <==> forall i :: 0 <= i < |members| ==> make(members[i].0, members[i].1).Ok?
    ensures r.Ok? ==> |r.value| == |members|
    ensures r.Ok? ==> forall i :: 0 <= i < |members| ==> r.value[i] == make(members[i].0, members[i].1).value
  {
    if |members| == 0 then Ok([])
    else
      match make(members[0].0, members[0].1)
      case Err(e) => Err(CategoryErrorOf(e))
      case Ok(item) =>
        match BuildItems(members[1..], make)
        case Err(e) =>
          assert forall i :: 1 <= i < |members| ==> members[i] == members[1..][i - 1];
          Err(e)
        case Ok(rest) =>
          assert forall i :: 1 <= i < |members| ==> members[i] == members[1..][i - 1];
          Ok([item] + rest)
  }

  /** The first member that fails to build decides BuildItems' error. */
  lemma {:induction false} BuildItemsFailsAt(members: Members, make: ItemMaker, i: nat)
    requires i < |members| && make(members[i].0, members[i].1).Err?
    requires forall k :: 0 <= k < i ==> make(members[k].0, members[k].1).Ok?
    ensures BuildItems(members, make) == Err(CategoryErrorOf(make(members[i].0, members[i].1).error))
  {
    if i > 0 {
      assert forall k :: 0 <= k < i - 1 ==> members[1..][k] == members[k + 1];
      BuildItemsFailsAt(members[1..], make, i - 1);
    }
  }

  /** The loop of the ConfigCategory constructor: one item per member, stopping at the first that throws. */
  method ReadItems(ms: Members, make: ItemMaker) returns (built: seq<CategoryItem>, err: Option<ConfigError>)
    ensures err.None? <==> BuildItems(ms, make).Ok?
    ensures err.None? ==> built == BuildItems(ms, make).value
    ensures err.Some? ==> err.value == BuildItems(ms, make).error
  {
    built := [];
    var i := 0;
    while i < |ms|
      invariant 0 <= i <= |ms|
      invariant |built| == i
      invariant forall k :: 0 <= k < i ==> make(ms[k].0, ms[k].1).Ok? && built[k] == make(ms[k].0, ms[k].1).value
    {
      var made := make(ms[i].0, ms[i].1);
      if made.Err? {
        BuildItemsFailsAt(ms, make, i);
        return [], Some(CategoryErrorOf(made.error));
      }
      built := built + [made.value];
      i := i + 1;
    }
    err := None;
  }

  /** The outcome of ConfigCategory(name, json): the document must parse and be an object. */
  function ParseCategory(json: string, parse: Parser): (r: Result<seq<CategoryItem>, ConfigError>)
    ensures parse(json).None? ==> r == Err(ConfigMalformed)
    ensures parse(json).Some? && !parse(json).value.JObject? ==> r == Err(AssertionFailure)
    ensures forall ms :: parse(json) == Some(JObject(ms)) ==> r == BuildItems(ms, MakerFor(parse))
  {
    match parse(json)
    case None => Err(ConfigMalformed)
    case Some(doc) => if doc.JObject? then BuildItems(doc.members, MakerFor(parse)) else Err(AssertionFailure)
  }

  // ---------------------------------------------------------------------
  // Lookups by item name: the first item with that name answers

  predicate IsFirstItem(items: seq<CategoryItem>, name: string, i: int)
  {
    0 <= i < |items| && items[i].name == name && forall j :: 0 <= j < i ==> items[j].name != name
  }

  predicate HasItem(items: seq<CategoryItem>, name: string)
  {
    exists i :: 0 <= i < |items| && items[i].name == name
  }

  function IndexOfItem(items: seq<CategoryItem>, name: string): (r: Option<nat>)
    ensures r.None? <==> !HasItem(items, name)
    ensures r.Some? ==> IsFirstItem(items, name, r.value)
  {
    if |items| == 0 then None
    else if items[0].name == name then Some(0)
    else
      match IndexOfItem(items[1..], name)
      case None =>
        assert !HasItem(items, name) by {
          forall i | 0 <= i < |items| ensures items[i].name != name {
            if i > 0 { assert items[i] == items[1..][i - 1]; }
          }
        }
        None
      case Some(k) =>
        assert items[k + 1] == items[1..][k];
        assert forall j :: 1 <= j < k + 1 ==> items[j] == items[1..][j - 1];
        Some(k + 1)
  }

  lemma FirstItemUnique(items: seq<CategoryItem>, name: string, i: int, j: int)
    requires IsFirstItem(items, name, i) && IsFirstItem(items, name, j)
    ensures i == j
  {
  }

  /** A lookup answered by the first item carrying the name. */
  function Lookup<T>(items: seq<CategoryItem>, name: string, field: CategoryItem -> T): (r: Result<T, ConfigError>)
    ensures r.Err? <==> !HasItem(items, name)
    ensures r.Err? ==> r.error == ConfigItemNotFound
    ensures forall i :: IsFirstItem(items, name, i) ==> r == Ok(field(items[i]))
  {
    match IndexOfItem(items, name)
    case None => Err(ConfigItemNotFound)
    case Some(i) =>
      assert forall k :: IsFirstItem(items, name, k) ==> k == i;
      Ok(field(items[i]))
  }

  /** getValue on a category holding items. */
  function ValueOf(items: seq<CategoryItem>, name: string): (r: Result<string, ConfigError>)
    ensures r.Err? <==> !HasItem(items, name)
    ensures r.Err? ==> r.error == ConfigItemNotFound
    ensures forall i :: IsFirstItem(items, name, i) ==> r == Ok(items[i].value)
  {
    Lookup(items, name, (it: CategoryItem) => it.value)
  }

  /**
   * Adding items at the end (operator= and addItem append) never changes
   * what a lookup of a name already present answers.
   */
  lemma LookupAfterAppend<T>(items: seq<CategoryItem>, more: seq<CategoryItem>, name: string, field: CategoryItem -> T)
    ensures HasItem(items, name) ==> Lookup(items + more, name, field) == Lookup(items, name, field)
    ensures !HasItem(items, name) ==> Lookup(items + more, name, field) == Lookup(more, name, field)
  {
    var all := items + more;
    if HasItem(items, name) {
      var i := IndexOfItem(items, name).value;
      assert IsFirstItem(all, name, i);
    } else if HasItem(more, name) {
      var i := IndexOfItem(more, name).value;
      assert all[|items| + i] == more[i];
      assert IsFirstItem(all, name, |items| + i) by {
        forall j | 0 <= j < |items| + i ensures all[j].name != name {
          if j >= |items| { assert all[j] == more[j - |items|]; }
        }
      }
    } else {
      assert !HasItem(all, name) by {
        forall j | 0 <= j < |all| ensures all[j].name != name {
          if j >= |items| { assert all[j] == more[j - |items|]; }
        }
      }
    }
  }

  /** Every value replaced by its item's default (setItemsValueFromDefault). */
  function ValuesFromDefaults(items: seq<CategoryItem>): (r: seq<CategoryItem>)
    ensures |r| == |items|
    ensures forall i :: 0 <= i < |items| ==> r[i] == items[i].(value := items[i].defaultValue)
  {
    if |items| == 0 then [] else [items[0].(value := items[0].defaultValue)] + ValuesFromDefaults(items[1..])
  }

  /** After setItemsValueFromDefault, getValue answers what getDefault answered before. */
  lemma ValueLookupAfterDefaults(items: seq<CategoryItem>, name: string)
    ensures Lookup(ValuesFromDefaults(items), name, (it: CategoryItem) => it.value)
         == Lookup(items, name, (it: CategoryItem) => it.defaultValue)
  {
    var r := ValuesFromDefaults(items);
    assert forall i :: IsFirstItem(r, name, i) <==> IsFirstItem(items, name, i);
    assert HasItem(r, name) <==> HasItem(items, name) by {
      if HasItem(items, name) {
        var i :| 0 <= i < |items| && items[i].name == name;
        assert r[i].name == name;
      }
    }
  }

  /** The first item whose value is set, if any (checkDefaultValuesOnly). */
  function FirstWithValue(items: seq<CategoryItem>): (r: Option<nat>)
    ensures r.None? <==> forall i :: 0 <= i < |items| ==> items[i].value == ""
    ensures r.Some? ==> (r.value < |items| && items[r.value].value != "" &&
                         forall j :: 0 <= j < r.value ==> items[j].value == "")
  {
    if |items| == 0 then None
    else if items[0].value != "" then Some(0)
    else
      match FirstWithValue(items[1..])
      case None =>
        assert forall i :: 1 <= i < |items| ==> items[i] == items[1..][i - 1];
        None
      case Some(k) =>
        assert forall i :: 1 <= i < |items| ==> items[i] == items[1..][i - 1];
        Some(k + 1)
  }

  // ---------------------------------------------------------------------
  // Rendering

  /** The common opening of an item: name, description and type. */
  function ItemHead(item: CategoryItem): string
  {
    "\"" + item.name + "\" : { " +
    "\"description\" : \"" + item.description + "\", " +
    "\"type\" : \"" + item.typeName + "\", "
  }

  predicate QuotedType(t: ItemType)
  {
    t == StringItem || t == BoolItem
  }

  predicate UnquotedType(t: ItemType)
  {
    t == JsonItem || t == NumberItem || t == DoubleItem
  }

  /** CategoryItem::toJSON: value and default quoted for strings and booleans, raw otherwise. */
  function ItemToJson(item: CategoryItem): (r: string)
    ensures StartsWith(r, ItemHead(item))
    ensures QuotedType(item.itemType) ==>
      r == ItemHead(item) + "\"value\" : \"" + item.value + "\", " + "\"default\" : \"" + item.defaultValue + "\" }"
    ensures UnquotedType(item.itemType) ==>
      r == ItemHead(item) + "\"value\" : " + item.value + ", " + "\"default\" : " + item.defaultValue + " }"
    // An item without a tag is left open: no value, no default, no closing brace.
    ensures item.itemType == UnsetItem ==> r == ItemHead(item)
  {
    var head := ItemHead(item);
    if QuotedType(item.itemType) then
      head + "\"value\" : \"" + item.value + "\", " + "\"default\" : \"" + item.defaultValue + "\" }"
    else if UnquotedType(item.itemType) then
      head + "\"value\" : " + item.value + ", " + "\"default\" : " + item.defaultValue + " }"
    else head
  }

  /** The text a default is written as inside its quotes by defaultToJSON. */
  function DefaultText(item: CategoryItem): string
  {
    if UnquotedType(item.itemType) then EscapeQuotes(item.defaultValue) else item.defaultValue
  }

  function OptionalPart(key: string, text: string): string
  {
    if text == "" then "" else "\"" + key + "\" : \"" + text + "\", "
  }

  /** CategoryItem::defaultToJSON: every default written as a JSON string. */
  function ItemDefaultToJson(item: CategoryItem): (r: string)
    ensures item.itemType != UnsetItem ==>
      r == ItemHead(item) + OptionalPart("order", item.order) + OptionalPart("readonly", item.readonly)
           + "\"default\" : \"" + DefaultText(item) + "\" }"
    ensures item.itemType == UnsetItem ==>
      r == ItemHead(item) + OptionalPart("order", item.order) + OptionalPart("readonly", item.readonly)
  {
    var head := ItemHead(item) + OptionalPart("order", item.order) + OptionalPart("readonly", item.readonly);
    if QuotedType(item.itemType) then head + "\"default\" : \"" + item.defaultValue + "\" }"
    else if UnquotedType(item.itemType) then head + "\"default\" : \"" + EscapeQuotes(item.defaultValue) + "\" }"
    else head
  }

  /**
   * The default a reader recovers from defaultToJSON's string, once the
   * backslash escapes are read back, is the item's default: raw JSON, numbers
   * and doubles are carried as strings without losing a character.
   */
  lemma DefaultTextRecoversDefault(item: CategoryItem)
    requires UnquotedType(item.itemType)
    ensures DropQuoteBackslashes(DefaultText(item)) == item.defaultValue
  {
    DropQuoteBackslashesOfEscape(item.defaultValue);
  }

  // ---------------------------------------------------------------------
  // Reading a rendered item back

  /** The text after a literal opening, or None when t does not start with it. */
  function Skip(t: string, lit: string): (r: Option<string>)
    ensures r.Some? <==> StartsWith(t, lit)
    ensures r.Some? ==> t == lit + r.value
  {
    if StartsWith(t, lit) then Some(t[|lit|..]) else None
  }

  /**
   * After the literal opening, a field closed by a double quote: the field's
   * text and what follows its closing quote.
   */
  function QuotedField(t: string, lead: string): (r: Option<(string, string)>)
    ensures r.Some? ==> Lacks(r.value.0, '"') && t == lead + r.value.0 + "\"" + r.value.1
  {
    match Skip(t, lead)
    case None => None
    case Some(body) =>
      var f := Upto(body, '"');
      if f == body then None
      else
        assert body == f + "\"" + body[|f| + 1..];
        Some((f, body[|f| + 1..]))
  }

  lemma SkipOf(lit: string, rest: string)
    ensures Skip(lit + rest, lit) == Some(rest)
  {
    assert (lit + rest)[..|lit|] == lit;
    assert (lit + rest)[|lit|..] == rest;
  }

  lemma QuotedFieldOf(lead: string, f: string, rest: string)
    requires Lacks(f, '"')
    ensures QuotedField(lead + f + "\"" + rest, lead) == Some((f, rest))
  {
    var body := f + "\"" + rest;
    assert lead + f + "\"" + rest == lead + body;
    SkipOf(lead, body);
    assert body[..|f|] == f;
    UptoOf(body, '"', |f|);
    assert body[|f| + 1..] == rest;
  }

  /** The type an item's head ends with, and the text after it. */
  function ReadType(t: string): Option<(string, string)>
  {
    match QuotedField(t, ", \"type\" : \"")
    case None => None
    case Some((typeName, t1)) =>
      match Skip(t1, ", ")
      case None => None
      case Some(rest) => Some((typeName, rest))
  }

  /** The description and type after an item's name, and the text after them. */
  function ReadDescription(t: string): Option<(string, string, string)>
  {
    match QuotedField(t, " : { \"description\" : \"")
    case None => None
    case Some((description, t1)) =>
      match ReadType(t1)
      case None => None
      case Some((typeName, rest)) => Some((description, typeName, rest))
  }

  /** The name, description and type an item opens with, and the text after them. */
  function ReadHead(t: string): Option<(string, string, string, string)>
  {
    match QuotedField(t, "\"")
    case None => None
    case Some((name, t1)) =>
      match ReadDescription(t1)
      case None => None
      case Some((description, typeName, rest)) => Some((name, description, typeName, rest))
  }

  /** Name, description and type hold no double quote. */
  predicate BareHead(item: CategoryItem)
  {
    Lacks(item.name, '"') && Lacks(item.description, '"') && Lacks(item.typeName, '"')
  }

  lemma ReadTypeOf(typeName: string, rest: string)
    requires Lacks(typeName, '"')
    ensures ReadType(", \"type\" : \"" + typeName + "\"" + (", " + rest)) == Some((typeName, rest))
  {
    QuotedFieldOf(", \"type\" : \"", typeName, ", " + rest);
    SkipOf(", ", rest);
  }

  lemma ReadDescriptionOf(description: string, typeName: string, rest: string)
    requires Lacks(description, '"') && Lacks(typeName, '"')
    ensures var t2 := ", \"type\" : \"" + typeName + "\"" + (", " + rest);
      ReadDescription(" : { \"description\" : \"" + description + "\"" + t2) == Some((description, typeName, rest))
  {
    var t2 := ", \"type\" : \"" + typeName + "\"" + (", " + rest);
    QuotedFieldOf(" : { \"description\" : \"", description, t2);
    ReadTypeOf(typeName, rest);
  }

  /** The literals of an item's head, split where the readers split them. */
  lemma HeadLiterals()
    ensures "\" : { " + "\"description\" : \"" == "\"" + " : { \"description\" : \""
    ensures "\", " + "\"type\" : \"" == "\"" + ", \"type\" : \""
    ensures "\", " == "\"" + ", "
  {
  }

  /** Regrouping the pieces of a head once the literals are split. */
  lemma HeadRegroup(q: string, n: string, b1: string, b2: string, h: string, d: string,
                    c1: string, c2: string, i: string, ty: string, e: string, comma: string, rest: string)
    requires b1 + b2 == q + h && c1 + c2 == q + i && e == q + comma
    ensures q + n + b1 + b2 + d + c1 + c2 + ty + e + rest == q + n + q + (h + d + q + (i + ty + q + (comma + rest)))
  {
    calc {
      q + n + b1 + b2 + d + c1 + c2 + ty + e + rest;
      q + n + (b1 + b2) + d + (c1 + c2) + ty + e + rest;
      q + n + (q + h) + d + (q + i) + ty + (q + comma) + rest;
      q + n + q + (h + d + q + (i + ty + q + (comma + rest)));
    }
  }

  /** An item's head regrouped as the readers take it. */
  lemma ItemHeadText(item: CategoryItem, rest: string)
    ensures ItemHead(item) + rest ==
      "\"" + item.name + "\"" + (" : { \"description\" : \"" + item.description + "\"" +
                                 (", \"type\" : \"" + item.typeName + "\"" + (", " + rest)))
  {
    HeadLiterals();
    HeadRegroup("\"", item.name, "\" : { ", "\"description\" : \"", " : { \"description\" : \"", item.description,
                "\", ", "\"type\" : \"", ", \"type\" : \"", item.typeName, "\", ", ", ", rest);
  }

  lemma ReadHeadOf(item: CategoryItem, rest: string)
    requires BareHead(item)
    ensures ReadHead(ItemHead(item) + rest) == Some((item.name, item.description, item.typeName, rest))
  {
    var t2 := ", \"type\" : \"" + item.typeName + "\"" + (", " + rest);
    var t1 := " : { \"description\" : \"" + item.description + "\"" + t2;
    ItemHeadText(item, rest);
    QuotedFieldOf("\"", item.name, t1);
    ReadDescriptionOf(item.description, item.typeName, rest);
  }

  /**
   * What a reader finds in an item's JSON: its value and default, and
   * whether they were written in quotes; or an item left open after its type.
   */
  datatype ItemFields =
    | ItemFields(name: string, description: string, typeName: string, quoted: bool, value: string, defaultValue: string)
    | OpenItem(name: string, description: string, typeName: string)

  /** A quoted value, then a quoted default and the closing brace. */
  function ReadQuotedValues(t: string): Option<(bool, string, string)>
  {
    match QuotedField(t, "\"")
    case None => None
    case Some((value, t1)) =>
      match QuotedField(t1, ", \"default\" : \"")
      case None => None
      case Some((defaultValue, t2)) => if t2 == " }" then Some((true, value, defaultValue)) else None
  }

  /** What separates a raw value from the default in toJSON's text. */
  const DefaultSep: string := ", \"default\" : "

  /**
   * A raw value, running up to the first ", "default" : " (so read back
   * whenever it does not hold that separator itself), then a raw default up
   * to the closing " }".
   */
  function ReadRawValues(t: string): Option<(bool, string, string)>
  {
    match Find(t, DefaultSep, 0)
    case None => None
    case Some(i) =>
      var t1 := t[i + |DefaultSep|..];
      if EndsWith(t1, " }") then Some((false, t[..i], t1[..|t1| - 2])) else None
  }

  /**
   * The separator's comma is its only one, so in a value followed by the
   * separator the first occurrence is the one after the value.
   */
  lemma FindDefaultSep(value: string, rest: string)
    requires !Contains(value, DefaultSep)
    ensures Find(value + DefaultSep + rest, DefaultSep, 0) == Some(|value|)
  {
    var t := value + DefaultSep + rest;
    assert MatchesAt(t, DefaultSep, |value|) by {
      assert t[|value|..|value| + |DefaultSep|] == DefaultSep;
    }
    forall k | 0 <= k < |value|
      ensures !MatchesAt(t, DefaultSep, k)
    {
      if k + |DefaultSep| <= |value| {
        assert t[k..k + |DefaultSep|] == value[k..k + |DefaultSep|];
        assert !MatchesAt(value, DefaultSep, k);
      } else {
        var j := |value| - k;
        assert t[k + j] == ',';
        assert DefaultSep[j] != ',';
        assert t[k..k + |DefaultSep|][j] != DefaultSep[j];
      }
    }
  }

  /** The value and default after an item's head, and whether they were quoted. */
  function ReadValues(t: string): Option<(bool, string, string)>
  {
    match Skip(t, "\"value\" : ")
    case None => None
    case Some(body) => if StartsWith(body, "\"") then ReadQuotedValues(body) else ReadRawValues(body)
  }

  /** Reads the text toJSON writes for one item. */
  function ReadItemJson(t: string): Option<ItemFields>
  {
    match ReadHead(t)
    case None => None
    case Some((name, description, typeName, rest)) =>
      if rest == "" then Some(OpenItem(name, description, typeName))
      else
        match ReadValues(rest)
        case None => None
        case Some((quoted, value, defaultValue)) => Some(ItemFields(name, description, typeName, quoted, value, defaultValue))
  }

  lemma ReadQuotedValuesOf(value: string, defaultValue: string)
    requires Lacks(value, '"') && Lacks(defaultValue, '"')
    ensures var t1 := ", \"default\" : \"" + defaultValue + "\"" + " }";
      ReadValues("\"value\" : " + ("\"" + value + "\"" + t1)) == Some((true, value, defaultValue))
  {
    var t1 := ", \"default\" : \"" + defaultValue + "\"" + " }";
    var body := "\"" + value + "\"" + t1;
    SkipOf("\"value\" : ", body);
    assert body[..1] == "\"";
    QuotedFieldOf("\"", value, t1);
    QuotedFieldOf(", \"default\" : \"", defaultValue, " }");
  }

  lemma ReadRawBodyOf(value: string, defaultValue: string)
    requires !Contains(value, DefaultSep)
    ensures ReadRawValues(value + DefaultSep + (defaultValue + " }")) == Some((false, value, defaultValue))
  {
    var t1 := defaultValue + " }";
    var body := value + DefaultSep + t1;
    FindDefaultSep(value, t1);
    assert body[..|value|] == value;
    assert body[|value| + |DefaultSep|..] == t1;
    assert t1[..|t1| - 2] == defaultValue;
  }

  lemma ReadRawValuesOf(value: string, defaultValue: string)
    requires !Contains(value, DefaultSep) && !StartsWith(value, "\"")
    ensures ReadValues("\"value\" : " + (value + ", " + "\"default\" : " + (defaultValue + " }"))) == Some((false, value, defaultValue))
  {
    var body := value + ", " + "\"default\" : " + (defaultValue + " }");
    assert body == value + DefaultSep + (defaultValue + " }");
    SkipOf("\"value\" : ", body);
    assert !StartsWith(body, "\"") by {
      if value != [] {
        assert body[0] == value[0];
      } else {
        assert body[0] == ',';
      }
    }
    ReadRawBodyOf(value, defaultValue);
  }

  /** The quoted value and default of toJSON regrouped as the readers take them. */
  lemma QuotedValuesText(head: string, v: string, d: string)
    ensures head + "\"value\" : \"" + v + "\", " + "\"default\" : \"" + d + "\" }"
      == head + ("\"value\" : " + ("\"" + v + "\"" + (", \"default\" : \"" + d + "\"" + " }")))
  {
  }

  lemma ReadQuotedItem(item: CategoryItem)
    requires QuotedType(item.itemType)
    requires BareHead(item) && Lacks(item.value, '"') && Lacks(item.defaultValue, '"')
    ensures ReadItemJson(ItemToJson(item)) == Some(ItemFields(item.name, item.description, item.typeName, true, item.value, item.defaultValue))
  {
    var t1 := ", \"default\" : \"" + item.defaultValue + "\"" + " }";
    var rest := "\"value\" : " + ("\"" + item.value + "\"" + t1);
    QuotedValuesText(ItemHead(item), item.value, item.defaultValue);
    ReadHeadOf(item, rest);
    ReadQuotedValuesOf(item.value, item.defaultValue);
  }

  lemma ReadRawItem(item: CategoryItem)
    requires UnquotedType(item.itemType)
    requires BareHead(item) && !Contains(item.value, DefaultSep) && !StartsWith(item.value, "\"")
    ensures ReadItemJson(ItemToJson(item)) == Some(ItemFields(item.name, item.description, item.typeName, false, item.value, item.defaultValue))
  {
    var rest := "\"value\" : " + (item.value + ", " + "\"default\" : " + (item.defaultValue + " }"));
    assert ItemToJson(item) == ItemHead(item) + rest;
    ReadHeadOf(item, rest);
    ReadRawValuesOf(item.value, item.defaultValue);
  }

  /**
   * toJSON reads back: a string or boolean item gives its value and default
   * from inside quotes, a JSON, number or double item gives them raw, and an
   * item without a type tag is an open item carrying only its head.
   */
  lemma ItemToJsonReadBack(item: CategoryItem)
    requires BareHead(item)
    requires QuotedType(item.itemType) ==> Lacks(item.value, '"') && Lacks(item.defaultValue, '"')
    requires UnquotedType(item.itemType) ==> !Contains(item.value, DefaultSep) && !StartsWith(item.value, "\"")
    ensures QuotedType(item.itemType) ==>
      ReadItemJson(ItemToJson(item)) == Some(ItemFields(item.name, item.description, item.typeName, true, item.value, item.defaultValue))
    ensures UnquotedType(item.itemType) ==>
      ReadItemJson(ItemToJson(item)) == Some(ItemFields(item.name, item.description, item.typeName, false, item.value, item.defaultValue))
    ensures item.itemType == UnsetItem ==>
      ReadItemJson(ItemToJson(item)) == Some(OpenItem(item.name, item.description, item.typeName))
  {
    if QuotedType(item.itemType) {
      ReadQuotedItem(item);
    } else if UnquotedType(item.itemType) {
      ReadRawItem(item);
    } else {
      ReadHeadOf(item, "");
      assert ItemToJson(item) == ItemHead(item) + "";
    }
  }

  /** A JSON item whose value is an object with a string member, {"a":"b"}, reads back raw. */
  lemma ItemToJsonReadBackOfObject(item: CategoryItem)
    requires item.itemType == JsonItem && BareHead(item) && item.value == "{\"a\":\"b\"}"
    ensures ReadItemJson(ItemToJson(item)) ==
            Some(ItemFields(item.name, item.description, item.typeName, false, item.value, item.defaultValue))
  {
    assert Find(item.value, DefaultSep, 0).None?;
    assert item.value[0] == '{';
    ItemToJsonReadBack(item);
  }

  /**
   * A JSON string body up to its closing quote: a backslash keeps the
   * character after it. Gives the text read and what follows the quote.
   */
  function ReadBody(t: string): (r: Option<(string, string)>)
    decreases |t|
  {
    if t == [] then None
    else if t[0] == '"' then Some(([], t[1..]))
    else if t[0] == '\\' && |t| >= 2 then
      match ReadBody(t[2..])
      case None => None
      case Some((text, rest)) => Some(([t[1]] + text, rest))
    else
      match ReadBody(t[1..])
      case None => None
      case Some((text, rest)) => Some(([t[0]] + text, rest))
  }

  /** A text escaped by escape() reads back as itself, when it holds no backslash. */
  lemma {:induction false} ReadBodyOf(d: string, rest: string)
    requires Lacks(d, '\\')
    ensures ReadBody(EscapeQuotes(d) + "\"" + rest) == Some((d, rest))
  {
    var t := EscapeQuotes(d) + "\"" + rest;
    if d == [] {
      assert t == "\"" + rest;
      assert t[1..] == rest;
    } else {
      assert Lacks(d[1..], '\\') by {
        forall k | 0 <= k < |d[1..]| ensures d[1..][k] != '\\' { assert d[1..][k] == d[k + 1]; }
      }
      ReadBodyOf(d[1..], rest);
      var tail := EscapeQuotes(d[1..]) + "\"" + rest;
      if d[0] == '"' {
        assert t == "\\\"" + tail;
        assert t[2..] == tail;
      } else {
        assert t == [d[0]] + tail;
        assert t[1..] == tail;
      }
      assert d == [d[0]] + d[1..];
    }
  }

  /** The text of s, or None when s is empty. */
  function NonEmpty(s: string): (r: Option<string>)
    ensures r.None? <==> s == ""
    ensures r.Some? ==> r.value == s
  {
    if s == "" then None else Some(s)
  }

  /** An optional quoted member with the given key and the ", " after it. */
  function ReadOptional(t: string, key: string): Option<(Option<string>, string)>
  {
    var lead := "\"" + key + "\" : \"";
    if !StartsWith(t, lead) then Some((None, t))
    else
      match QuotedField(t, lead)
      case None => None
      case Some((text, t1)) =>
        match Skip(t1, ", ")
        case None => None
        case Some(rest) => Some((Some(text), rest))
  }

  lemma ReadOptionalOf(key: string, text: string, x: string)
    requires Lacks(text, '"')
    requires text == "" ==> !StartsWith(x, "\"" + key + "\" : \"")
    ensures ReadOptional(OptionalPart(key, text) + x, key) == Some((NonEmpty(text), x))
  {
    if text != "" {
      var lead := "\"" + key + "\" : \"";
      assert OptionalPart(key, text) + x == lead + text + "\"" + (", " + x);
      QuotedFieldOf(lead, text, ", " + x);
      SkipOf(", ", x);
    } else {
      assert OptionalPart(key, text) + x == x;
    }
  }

  /** The default and the closing brace, or nothing for an item left open. */
  function ReadDefault(t: string): Option<Option<string>>
  {
    if t == "" then Some(None)
    else
      match Skip(t, "\"default\" : \"")
      case None => None
      case Some(body) =>
        match ReadBody(body)
        case None => None
        case Some((d, rest)) => if rest == " }" then Some(Some(d)) else None
  }

  /** What a reader finds in an item's defaults-only JSON. */
  datatype DefaultFields = DefaultFields(
    name: string, description: string, typeName: string,
    order: Option<string>, readonly: Option<string>, defaultValue: Option<string>)

  /** The optional order and readonly members after an item's head, then its default. */
  function ReadDefaultMembers(t: string): Option<(Option<string>, Option<string>, Option<string>)>
  {
    match ReadOptional(t, "order")
    case None => None
    case Some((order, t1)) =>
      match ReadOptional(t1, "readonly")
      case None => None
      case Some((readonly, t2)) =>
        match ReadDefault(t2)
        case None => None
        case Some(d) => Some((order, readonly, d))
  }

  /** Reads the text defaultToJSON writes for one item. */
  function ReadDefaultItemJson(t: string): Option<DefaultFields>
  {
    match ReadHead(t)
    case None => None
    case Some((name, description, typeName, t1)) =>
      match ReadDefaultMembers(t1)
      case None => None
      case Some((order, readonly, d)) => Some(DefaultFields(name, description, typeName, order, readonly, d))
  }

  /** The closing default member of defaultToJSON, absent for an item without a type tag. */
  function DefaultTail(item: CategoryItem): string
  {
    if item.itemType == UnsetItem then "" else "\"default\" : \"" + DefaultText(item) + "\" }"
  }

  lemma ReadDefaultOf(item: CategoryItem)
    requires Lacks(item.defaultValue, '\\')
    requires QuotedType(item.itemType) ==> Lacks(item.defaultValue, '"')
    ensures ReadDefault(DefaultTail(item)) == Some(if item.itemType == UnsetItem then None else Some(item.defaultValue))
  {
    if item.itemType != UnsetItem {
      if QuotedType(item.itemType) {
        EscapeQuotesOfQuoteless(item.defaultValue);
      }
      assert DefaultText(item) == EscapeQuotes(item.defaultValue);
      var body := EscapeQuotes(item.defaultValue) + "\"" + " }";
      assert DefaultTail(item) == "\"default\" : \"" + body;
      SkipOf("\"default\" : \"", body);
      ReadBodyOf(item.defaultValue, " }");
    }
  }

  /** defaultToJSON regrouped as the readers take it. */
  lemma DefaultItemText(item: CategoryItem)
    ensures ItemDefaultToJson(item) == ItemHead(item) + (OptionalPart("order", item.order) + (OptionalPart("readonly", item.readonly) + DefaultTail(item)))
  {
    var h, o, ro, tl := ItemHead(item), OptionalPart("order", item.order), OptionalPart("readonly", item.readonly), DefaultTail(item);
    assert ItemDefaultToJson(item) == h + o + ro + tl;
  }

  /** The default's member, when there is one, does not start like "readonly" or "order". */
  lemma DefaultTailLead(item: CategoryItem)
    ensures !StartsWith(DefaultTail(item), "\"" + "readonly" + "\" : \"") && !StartsWith(DefaultTail(item), "\"" + "order" + "\" : \"")
  {
    var tail := DefaultTail(item);
    if tail != "" {
      assert tail[1] == 'd';
    }
  }

  /** The "readonly" member, when there is one, does not start like "order". */
  lemma ReadonlyLead(item: CategoryItem)
    requires !StartsWith(DefaultTail(item), "\"" + "order" + "\" : \"")
    ensures !StartsWith(OptionalPart("readonly", item.readonly) + DefaultTail(item), "\"" + "order" + "\" : \"")
  {
    var ro := OptionalPart("readonly", item.readonly) + DefaultTail(item);
    if item.readonly != "" {
      assert ro[1] == 'r';
    } else {
      assert ro == DefaultTail(item);
    }
  }

  /** The three readers of the members after the head, composed. */
  lemma ReadDefaultMembersSteps(t: string, t1: string, t2: string, order: Option<string>, readonly: Option<string>, d: Option<string>)
    requires ReadOptional(t, "order") == Some((order, t1))
    requires ReadOptional(t1, "readonly") == Some((readonly, t2))
    requires ReadDefault(t2) == Some(d)
    ensures ReadDefaultMembers(t) == Some((order, readonly, d))
  {
  }

  lemma ReadDefaultMembersOf(item: CategoryItem)
    requires Lacks(item.order, '"') && Lacks(item.readonly, '"') && Lacks(item.defaultValue, '\\')
    requires QuotedType(item.itemType) ==> Lacks(item.defaultValue, '"')
    ensures ReadDefaultMembers(OptionalPart("order", item.order) + (OptionalPart("readonly", item.readonly) + DefaultTail(item)))
         == Some((NonEmpty(item.order), NonEmpty(item.readonly), if item.itemType == UnsetItem then None else Some(item.defaultValue)))
  {
    var tail := DefaultTail(item);
    var ro := OptionalPart("readonly", item.readonly) + tail;
    DefaultTailLead(item);
    ReadonlyLead(item);
    ReadOptionalOf("order", item.order, ro);
    ReadOptionalOf("readonly", item.readonly, tail);
    ReadDefaultOf(item);
    ReadDefaultMembersSteps(OptionalPart("order", item.order) + ro, ro, tail, NonEmpty(item.order), NonEmpty(item.readonly),
                            if item.itemType == UnsetItem then None else Some(item.defaultValue));
  }

  /**
   * defaultToJSON reads back: name, description and type; "order" and
   * "readonly" present exactly when they are not empty, with their text;
   * and, for a typed item, the default itself, which a JSON, number or
   * double item carries escaped inside a string.
   */
  lemma ItemDefaultToJsonReadBack(item: CategoryItem)
    requires BareHead(item) && Lacks(item.order, '"') && Lacks(item.readonly, '"')
    requires Lacks(item.defaultValue, '\\')
    requires QuotedType(item.itemType) ==> Lacks(item.defaultValue, '"')
    ensures ReadDefaultItemJson(ItemDefaultToJson(item)) ==
      Some(DefaultFields(item.name, item.description, item.typeName, NonEmpty(item.order), NonEmpty(item.readonly),
                         if item.itemType == UnsetItem then None else Some(item.defaultValue)))
  {
    var rest := OptionalPart("order", item.order) + (OptionalPart("readonly", item.readonly) + DefaultTail(item));
    DefaultItemText(item);
    ReadHeadOf(item, rest);
    ReadDefaultMembersOf(item);
  }

  function JoinItems(parts: seq<string>): (r: string)
  {
    Join(parts, ", ")
  }

  /** ConfigCategory::itemsToJSON: the items' JSON, comma separated, in braces. */
  function ItemsToJson(items: seq<CategoryItem>): (r: string)
    ensures |items| == 0 ==> r == "{}"
    ensures |items| == 1 ==> r == "{" + ItemToJson(items[0]) + "}"
    ensures StartsWith(r, "{") && EndsWith(r, "}")
  {
    Braced(items, ItemToJson)
  }

  /** DefaultConfigCategory::itemsToJSON: the items' defaults, comma separated, in braces. */
  function DefaultItemsToJson(items: seq<CategoryItem>): (r: string)
    ensures |items| == 0 ==> r == "{}"
    ensures |items| == 1 ==> r == "{" + ItemDefaultToJson(items[0]) + "}"
    ensures StartsWith(r, "{") && EndsWith(r, "}")
  {
    Braced(items, ItemDefaultToJson)
  }

  /** Each item rendered by f, in order. */
  function RenderAll(items: seq<CategoryItem>, f: CategoryItem -> string): (r: seq<string>)
    ensures |r| == |items| && forall i :: 0 <= i < |items| ==> r[i] == f(items[i])
  {
    seq(|items|, i requires 0 <= i < |items| => f(items[i]))
  }

  /** The rendered items between braces, comma separated. */
  function Braced(items: seq<CategoryItem>, f: CategoryItem -> string): string
  {
    "{" + JoinItems(RenderAll(items, f)) + "}"
  }

  lemma BracedSnoc(items: seq<CategoryItem>, x: CategoryItem, f: CategoryItem -> string)
    requires |items| >= 1
    ensures var before := Braced(items, f);
      Braced(items + [x], f) == before[..|before| - 1] + ", " + f(x) + "}"
  {
    var ps := RenderAll(items, f);
    assert RenderAll(items + [x], f) == ps + [f(x)];
    JoinSnoc(ps, f(x), ", ");
    var before := "{" + Join(ps, ", ") + "}";
    assert before[..|before| - 1] == "{" + Join(ps, ", ");
  }

  /**
   * An item appended to a non-empty category (addItem, operator=) is
   * rendered once more at the end: the closing brace gives way to ", "
   * and the item's JSON.
   */
  lemma ItemsToJsonSnoc(items: seq<CategoryItem>, x: CategoryItem)
    requires |items| >= 1
    ensures var before := ItemsToJson(items);
      ItemsToJson(items + [x]) == before[..|before| - 1] + ", " + ItemToJson(x) + "}"
  {
    BracedSnoc(items, x, ItemToJson);
  }

  /** The same for the defaults-only rendering of DefaultConfigCategory. */
  lemma DefaultItemsToJsonSnoc(items: seq<CategoryItem>, x: CategoryItem)
    requires |items| >= 1
    ensures var before := DefaultItemsToJson(items);
      DefaultItemsToJson(items + [x]) == before[..|before| - 1] + ", " + ItemDefaultToJson(x) + "}"
  {
    BracedSnoc(items, x, ItemDefaultToJson);
  }

  /** Item i is the one item with the given name. */
  predicate OnlyMatch(items: seq<CategoryItem>, name: string, i: int)
  {
    0 <= i < |items| && items[i].name == name &&
    forall j :: 0 <= j < |items| && j != i ==> items[j].name != name
  }

  /** Every item with the given name, rendered back to back in category order (itemToJSON). */
  function MatchingItemsJson(items: seq<CategoryItem>, name: string): string
  {
    if |items| == 0 then "" else IfNamed(items[0], name) + MatchingItemsJson(items[1..], name)
  }

  /** One item's JSON when it has the name, nothing otherwise. */
  function IfNamed(item: CategoryItem, name: string): string
  {
    if item.name == name then ItemToJson(item) else ""
  }

  /** No item of that name: nothing is rendered. */
  lemma {:induction false} MatchingItemsJsonNone(items: seq<CategoryItem>, name: string)
    requires !HasItem(items, name)
    ensures MatchingItemsJson(items, name) == ""
  {
    if items != [] {
      assert items[0].name != name;
      assert !HasItem(items[1..], name) by {
        forall k | 0 <= k < |items[1..]| ensures items[1..][k].name != name {
          assert items[k + 1].name != name;
        }
      }
      MatchingItemsJsonNone(items[1..], name);
    }
  }

  /** Exactly one item of that name: its JSON alone is rendered. */
  lemma {:induction false} MatchingItemsJsonOnly(items: seq<CategoryItem>, name: string, i: nat)
    requires OnlyMatch(items, name, i)
    ensures MatchingItemsJson(items, name) == ItemToJson(items[i])
  {
    if i == 0 {
      assert !HasItem(items[1..], name) by {
        forall k | 0 <= k < |items[1..]| ensures items[1..][k].name != name {
          assert items[k + 1].name != name;
        }
      }
      MatchingItemsJsonNone(items[1..], name);
    } else {
      assert items[0].name != name;
      assert OnlyMatch(items[1..], name, i - 1) by {
        forall j | 0 <= j < |items[1..]| && j != i - 1 ensures items[1..][j].name != name {
          assert items[j + 1].name != name;
        }
      }
      MatchingItemsJsonOnly(items[1..], name, i - 1);
    }
  }

  /** The rendering is the FlatMap of IfNamed over the items. */
  lemma {:induction false} MatchingItemsJsonIsFlatMap(items: seq<CategoryItem>, name: string)
    ensures MatchingItemsJson(items, name) == FlatMap(items, (item: CategoryItem) => IfNamed(item, name))
  {
    if items != [] {
      MatchingItemsJsonIsFlatMap(items[1..], name);
    }
  }

  /** Two runs of items render as the first's matches followed by the second's. */
  lemma MatchingItemsJsonAppend(a: seq<CategoryItem>, b: seq<CategoryItem>, name: string)
    ensures MatchingItemsJson(a + b, name) == MatchingItemsJson(a, name) + MatchingItemsJson(b, name)
  {
    MatchingItemsJsonIsFlatMap(a + b, name);
    MatchingItemsJsonIsFlatMap(a, name);
    MatchingItemsJsonIsFlatMap(b, name);
    FlatMapAppend(a, b, (item: CategoryItem) => IfNamed(item, name));
  }

  /** What itemToJSON renders between its braces, as MatchingItemsJsonNone, -Only and -Split state it. */
  lemma MatchingItemsJsonFacts(items: seq<CategoryItem>, name: string)
    ensures !HasItem(items, name) ==> MatchingItemsJson(items, name) == ""
    ensures forall i {:trigger OnlyMatch(items, name, i)} :: OnlyMatch(items, name, i) ==> MatchingItemsJson(items, name) == ItemToJson(items[i])
    ensures forall i :: 0 <= i <= |items| ==>
      MatchingItemsJson(items, name) == MatchingItemsJson(items[..i], name) + MatchingItemsJson(items[i..], name)
  {
    if !HasItem(items, name) {
      MatchingItemsJsonNone(items, name);
    }
    forall i | OnlyMatch(items, name, i) ensures MatchingItemsJson(items, name) == ItemToJson(items[i]) {
      MatchingItemsJsonOnly(items, name, i);
    }
    MatchingItemsJsonSplit(items, name);
  }

  /** The rendering splits at any point of the list. */
  lemma MatchingItemsJsonSplit(items: seq<CategoryItem>, name: string)
    ensures forall i :: 0 <= i <= |items| ==>
      MatchingItemsJson(items, name) == MatchingItemsJson(items[..i], name) + MatchingItemsJson(items[i..], name)
  {
    forall i | 0 <= i <= |items|
      ensures MatchingItemsJson(items, name) == MatchingItemsJson(items[..i], name) + MatchingItemsJson(items[i..], name)
    {
      assert items == items[..i] + items[i..];
      MatchingItemsJsonAppend(items[..i], items[i..], name);
    }
  }

  /** The category envelope toJSON writes around the items' rendering. */
  function CategoryJson(key: string, description: string, itemsText: string): string
  {
    "{ \"key\" : \"" + key + "\", \"description\" : \"" + description + "\", \"value\" : " + itemsText + " }"
  }

  /** Reads a category envelope: its key, its description and the text of its items. */
  function ReadCategoryJson(t: string): Option<(string, string, string)>
  {
    match QuotedField(t, "{ \"key\" : \"")
    case None => None
    case Some((key, t1)) =>
      match QuotedField(t1, ", \"description\" : \"")
      case None => None
      case Some((description, t2)) =>
        match Skip(t2, ", \"value\" : ")
        case None => None
        case Some(t3) => if EndsWith(t3, " }") then Some((key, description, t3[..|t3| - 2])) else None
  }

  lemma ReadCategoryJsonOf(key: string, description: string, itemsText: string)
    ensures Lacks(key, '"') && Lacks(description, '"') ==>
      ReadCategoryJson(CategoryJson(key, description, itemsText)) == Some((key, description, itemsText))
  {
    if Lacks(key, '"') && Lacks(description, '"') {
      var t3 := itemsText + " }";
      var t2 := ", \"value\" : " + t3;
      var t1 := ", \"description\" : \"" + description + "\"" + t2;
      assert CategoryJson(key, description, itemsText) == "{ \"key\" : \"" + key + "\"" + t1;
      QuotedFieldOf("{ \"key\" : \"", key, t1);
      QuotedFieldOf(", \"description\" : \"", description, t2);
      SkipOf(", \"value\" : ", t3);
      assert t3[..|t3| - 2] == itemsText;
    }
  }

  // ---------------------------------------------------------------------
  // The category object

  class Category {
    var name: string
    var description: string
    var items: seq<CategoryItem>

    /** A category holding the given items (the state ConfigCategory(name, json) ends in). */
    constructor (name: string, items: seq<CategoryItem>)
      ensures this.name == name && this.description == "" && this.items == items
    {
      this.name := name;
      this.description := "";
      this.items := items;
    }

    /** The copy constructor: name, description and a copy of each item. */
    constructor Copy(rhs: Category)
      ensures name == rhs.name && description == rhs.description && items == rhs.items
    {
      name := rhs.name;
      description := rhs.description;
      items := rhs.items;
    }

    /** ConfigCategory(name, json): None when the constructor throws or asserts. */
    static method Parse(name: string, json: string, parse: Parser) returns (c: Category?, err: Option<ConfigError>)
      ensures err.None? <==> ParseCategory(json, parse).Ok?
      ensures err.Some? ==> c == null && err.value == ParseCategory(json, parse).error
      ensures err.None? ==> c != null && fresh(c) && c.name == name && c.description == ""
                            && c.items == ParseCategory(json, parse).value
    {
      var doc := parse(json);
      if doc.None? {
        return null, Some(ConfigMalformed);
      }
      if !doc.value.JObject? {
        return null, Some(AssertionFailure);
      }
      var built, e := ReadItems(doc.value.members, MakerFor(parse));
      if e.Some? {
        return null, e;
      }
      c := new Category(name, built);
      err := None;
    }

    /**
     * operator=: takes the name and description of rhs and APPENDS copies
     * of its items to the items already held.
     */
    method Assign(rhs: Category)
      modifies this
      ensures name == old(rhs.name) && description == old(rhs.description)
      ensures items == old(items) + old(rhs.items)
    {
      var appended := rhs.items;
      name := rhs.name;
      description := rhs.description;
      var i := 0;
      var acc := items;
      while i < |appended|
        invariant 0 <= i <= |appended|
        invariant acc == old(items) + appended[..i]
      {
        acc := acc + [appended[i]];
        i := i + 1;
      }
      assert appended[..|appended|] == appended;
      items := acc;
    }

    /** setItemsValueFromDefault: each item's value becomes its default. */
    method SetItemsValueFromDefault()
      modifies this
      ensures name == old(name) && description == old(description)
      ensures items == ValuesFromDefaults(old(items))
    {
      var i := 0;
      while i < |items|
        invariant 0 <= i <= |items| && |items| == |old(items)|
        invariant forall k :: 0 <= k < i ==> items[k] == old(items)[k].(value := old(items)[k].defaultValue)
        invariant forall k :: i <= k < |items| ==> items[k] == old(items)[k]
        invariant name == old(name) && description == old(description)
      {
        items := items[i := items[i].(value := items[i].defaultValue)];
        i := i + 1;
      }
    }

    /** checkDefaultValuesOnly: the first item with a value is reported. */
    function CheckDefaultValuesOnly(): (r: Option<ConfigError>)
      reads this
      ensures r.None? <==> forall i :: 0 <= i < |items| ==> items[i].value == ""
      ensures r.Some? ==> (exists i :: 0 <= i < |items| && items[i].value != "" &&
                             (forall j :: 0 <= j < i ==> items[j].value == "") &&
                             r.value == ConfigValueFoundWithDefault(items[i].name))
    {
      match FirstWithValue(items)
      case None => None
      case Some(i) => Some(ConfigValueFoundWithDefault(items[i].name))
    }

    /** addItem: a string item with an empty order and readonly, at the end. */
    method AddItem(itemName: string, itemDescription: string, itemType: string, def: string, value: string)
      modifies this
      ensures name == old(name) && description == old(description)
      ensures items == old(items) + [CategoryItem(itemName, itemDescription, itemType, "", "", value, def, StringItem)]
    {
      items := items + [CategoryItem(itemName, itemDescription, itemType, "", "", value, def, StringItem)];
    }

    method SetDescription(d: string)
      modifies this
      ensures description == d && name == old(name) && items == old(items)
    {
      description := d;
    }

    predicate ItemExists(itemName: string)
      reads this
      ensures ItemExists(itemName) <==> exists i :: 0 <= i < |items| && items[i].name == itemName
    {
      IndexOfItem(items, itemName).Some?
    }

    function GetValue(itemName: string): (r: Result<string, ConfigError>)
      reads this
      ensures r.Err? <==> !ItemExists(itemName)
      ensures r.Err? ==> r.error == ConfigItemNotFound
      ensures forall i :: IsFirstItem(items, itemName, i) ==> r == Ok(items[i].value)
    {
      ValueOf(items, itemName)
    }

    function GetType(itemName: string): (r: Result<string, ConfigError>)
      reads this
      ensures r.Err? <==> !ItemExists(itemName)
      ensures r.Err? ==> r.error == ConfigItemNotFound
      ensures forall i :: IsFirstItem(items, itemName, i) ==> r == Ok(items[i].typeName)
    {
      Lookup(items, itemName, (it: CategoryItem) => it.typeName)
    }

    function GetDescription(itemName: string): (r: Result<string, ConfigError>)
      reads this
      ensures r.Err? <==> !ItemExists(itemName)
      ensures r.Err? ==> r.error == ConfigItemNotFound
      ensures forall i :: IsFirstItem(items, itemName, i) ==> r == Ok(items[i].description)
    {
      Lookup(items, itemName, (it: CategoryItem) => it.description)
    }

    function GetDefault(itemName: string): (r: Result<string, ConfigError>)
      reads this
      ensures r.Err? <==> !ItemExists(itemName)
      ensures r.Err? ==> r.error == ConfigItemNotFound
      ensures forall i :: IsFirstItem(items, itemName, i) ==> r == Ok(items[i].defaultValue)
    {
      Lookup(items, itemName, (it: CategoryItem) => it.defaultValue)
    }

    function IsString(itemName: string): (r: Result<bool, ConfigError>)
      reads this
      ensures r.Err? <==> !ItemExists(itemName)
      ensures r.Err? ==> r.error == ConfigItemNotFound
      ensures forall i :: IsFirstItem(items, itemName, i) ==> r == Ok(items[i].itemType == StringItem)
    {
      Lookup(items, itemName, (it: CategoryItem) => it.itemType == StringItem)
    }

    function IsJson(itemName: string): (r: Result<bool, ConfigError>)
      reads this
      ensures r.Err? <==> !ItemExists(itemName)
      ensures r.Err? ==> r.error == ConfigItemNotFound
      ensures forall i :: IsFirstItem(items, itemName, i) ==> r == Ok(items[i].itemType == JsonItem)
    {
      Lookup(items, itemName, (it: CategoryItem) => it.itemType == JsonItem)
    }

    function IsBool(itemName: string): (r: Result<bool, ConfigError>)
      reads this
      ensures r.Err? <==> !ItemExists(itemName)
      ensures r.Err? ==> r.error == ConfigItemNotFound
      ensures forall i :: IsFirstItem(items, itemName, i) ==> r == Ok(items[i].itemType == BoolItem)
    {
      Lookup(items, itemName, (it: CategoryItem) => it.itemType == BoolItem)
    }

    function IsNumber(itemName: string): (r: Result<bool, ConfigError>)
      reads this
      ensures r.Err? <==> !ItemExists(itemName)
      ensures r.Err? ==> r.error == ConfigItemNotFound
      ensures forall i :: IsFirstItem(items, itemName, i) ==> r == Ok(items[i].itemType == NumberItem)
    {
      Lookup(items, itemName, (it: CategoryItem) => it.itemType == NumberItem)
    }

    function IsDouble(itemName: string): (r: Result<bool, ConfigError>)
      reads this
      ensures r.Err? <==> !ItemExists(itemName)
      ensures r.Err? ==> r.error == ConfigItemNotFound
      ensures forall i :: IsFirstItem(items, itemName, i) ==> r == Ok(items[i].itemType == DoubleItem)
    {
      Lookup(items, itemName, (it: CategoryItem) => it.itemType == DoubleItem)
    }

    /**
     * toJSON: key, description and the items. A reader gets back the key,
     * the description and the items' rendering.
     */
    function ToJson(): (r: string)
      reads this
      ensures Lacks(name, '"') && Lacks(description, '"') ==>
        ReadCategoryJson(r) == Some((name, description, ItemsToJson(items)))
    {
      ReadCategoryJsonOf(name, description, ItemsToJson(items));
      CategoryJson(name, description, ItemsToJson(items))
    }

    /** DefaultConfigCategory::toJSON: as toJSON, with the defaults-only items. */
    function DefaultToJson(): (r: string)
      reads this
      ensures Lacks(name, '"') && Lacks(description, '"') ==>
        ReadCategoryJson(r) == Some((name, description, DefaultItemsToJson(items)))
    {
      ReadCategoryJsonOf(name, description, DefaultItemsToJson(items));
      CategoryJson(name, description, DefaultItemsToJson(items))
    }

    /** itemToJSON: "{}" around every item of that name; "{}" when there is none. */
    function ItemToJsonByName(itemName: string): (r: string)
      reads this
      ensures !ItemExists(itemName) ==> r == "{}"
      ensures forall i {:trigger OnlyMatch(items, itemName, i)} :: OnlyMatch(items, itemName, i) ==>
                          r == "{" + ItemToJson(items[i]) + "}"
      ensures forall i :: 0 <= i <= |items| ==>
        r == "{" + (MatchingItemsJson(items[..i], itemName) + MatchingItemsJson(items[i..], itemName)) + "}"
    {
      MatchingItemsJsonFacts(items, itemName);
      "{" + MatchingItemsJson(items, itemName) + "}"
    }
  }
}
