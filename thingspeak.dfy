/**
 * The ThingSpeak north plugin's plugin_init
 * (C/plugins/north/ThingSpeak/plugin.cpp): it checks for the URL,
 * channelId and fields items one after the other, reads write_api_key
 * without a check, creates the ThingSpeak connection object and then adds
 * one field per entry of the "elements" array of the fields document.
 */
module ThingSpeakPlugin {
  import opened Common
  import opened Json
  import opened ConfigCategory

  /**
   * Why plugin_init gives up. The first five are thrown (each logged with
   * its own message); an unreadable element trips a rapidjson assertion.
   */
  datatype InitFailure =
    | MissingUrl
    | MissingChannelId
    | MissingFields
    | ApiKeyNotFound
    | FieldsMalformed
    | NoElements
    | JsonAssertion

  /** The connection object: its settings and the fields added to it. */
  class ThingSpeak {
    var url: string
    var channel: int
    var apiKey: string
    var connected: bool
    var fields: seq<(string, string)>

    constructor (url: string, channel: int, apiKey: string)
      ensures this.url == url && this.channel == channel && this.apiKey == apiKey
      ensures !connected && fields == []
    {
      this.url := url;
      this.channel := channel;
      this.apiKey := apiKey;
      connected := false;
      fields := [];
    }

    /** connect(): the network side is not modelled, only that it happened. */
    method Connect()
      modifies this
      ensures connected && url == old(url) && channel == old(channel) && apiKey == old(apiKey) && fields == old(fields)
    {
      connected := true;
    }

    /** addField(asset, reading): one more (asset, reading) pair, at the end. */
    method AddField(asset: string, reading: string)
      modifies this
      ensures fields == old(fields) + [(asset, reading)]
      ensures url == old(url) && channel == old(channel) && apiKey == old(apiKey) && connected == old(connected)
    {
      fields := fields + [(asset, reading)];
    }
  }

  /** The settings plugin_init hands to the ThingSpeak constructor. */
  datatype Settings = Settings(url: string, channel: int, apiKey: string, fieldsText: string)

  /** The item checks of plugin_init, in the order it makes them. */
  function ReadSettings(items: seq<CategoryItem>): (r: Result<Settings, InitFailure>)
    ensures !HasItem(items, "URL") ==> r == Err(MissingUrl)
    ensures HasItem(items, "URL") && !HasItem(items, "channelId") ==> r == Err(MissingChannelId)
    ensures HasItem(items, "URL") && HasItem(items, "channelId") && !HasItem(items, "fields") ==> r == Err(MissingFields)
    ensures HasItem(items, "URL") && HasItem(items, "channelId") && HasItem(items, "fields") ==>
              (r.Err? <==> !HasItem(items, "write_api_key")) && (r.Err? ==> r.error == ApiKeyNotFound)
    ensures r.Ok? ==> r.value.url == ValueOf(items, "URL").value &&
                      r.value.apiKey == ValueOf(items, "write_api_key").value &&
                      r.value.fieldsText == ValueOf(items, "fields").value
  {
    if !HasItem(items, "URL") then Err(MissingUrl)
    else if !HasItem(items, "channelId") then Err(MissingChannelId)
    else if !HasItem(items, "fields") then Err(MissingFields)
    else if !HasItem(items, "write_api_key") then Err(ApiKeyNotFound)
    else Ok(Settings(ValueOf(items, "URL").value, Atoi(ValueOf(items, "channelId").value),
                     ValueOf(items, "write_api_key").value, ValueOf(items, "fields").value))
  }

  /** (*itr)["asset"] and (*itr)["reading"] read with GetString: both must be string members. */
  function ElementField(e: Json): Option<(string, string)>
  {
    match (Member(e, "asset"), Member(e, "reading"))
    case (Some(JString(asset)), Some(JString(reading))) => Some((asset, reading))
    case _ => None
  }

  /** A channelId item holding the decimal text of a number gives that channel. */
  lemma ChannelFromItem(items: seq<CategoryItem>, channel: int)
    requires ReadSettings(items).Ok? && ValueOf(items, "channelId").value == IntToString(channel)
    ensures ReadSettings(items).value.channel == channel
  {
    AtoiOfIntToString(channel);
  }

  /** The elements array of the fields document, or why there is none. */
  function Elements(fieldsText: string, parse: Parser): (r: Result<seq<Json>, InitFailure>)
    ensures parse(fieldsText).None? ==> r == Err(FieldsMalformed)
    ensures r.Ok? ==> Member(parse(fieldsText).value, "elements") == Some(JArray(r.value))
    ensures r.Err? && parse(fieldsText).Some? ==>
      r.error == (if parse(fieldsText).value.JObject? && Member(parse(fieldsText).value, "elements").None?
                  then NoElements else JsonAssertion)
  {
    match parse(fieldsText)
    case None => Err(FieldsMalformed)
    case Some(doc) =>
      if !doc.JObject? then Err(JsonAssertion)
      else
        match Member(doc, "elements")
        case None => Err(NoElements)
        case Some(v) => if v.JArray? then Ok(v.elems) else Err(JsonAssertion)
  }

  /** The fields the loop adds: one per element, in order, unless an element is unreadable. */
  function FieldList(elems: seq<Json>): (r: Option<seq<(string, string)>>)
    ensures r.Some? <==> forall k :: 0 <= k < |elems| ==> ElementField(elems[k]).Some?
    ensures r.Some? ==> |r.value| == |elems| &&
                        forall k :: 0 <= k < |elems| ==> r.value[k] == ElementField(elems[k]).value
  {
    if |elems| == 0 then Some([])
    else
      match (ElementField(elems[0]), FieldList(elems[1..]))
      case (Some(f), Some(rest)) =>
        assert forall k :: 1 <= k < |elems| ==> elems[k] == elems[1..][k - 1];
        Some([f] + rest)
      case (None, _) => None
      case (_, None) =>
        assert forall k :: 1 <= k < |elems| ==> elems[k] == elems[1..][k - 1];
        None
  }

  /** The loop over "elements": one addField per entry; an unreadable entry aborts. */
  method AddFields(ts: ThingSpeak, elems: seq<Json>) returns (ok: bool)
    modifies ts
    ensures ok <==> FieldList(elems).Some?
    ensures ok ==> ts.fields == old(ts.fields) + FieldList(elems).value
    ensures ts.url == old(ts.url) && ts.channel == old(ts.channel) && ts.apiKey == old(ts.apiKey)
    ensures ts.connected == old(ts.connected)
  {
    var i := 0;
    ghost var added: seq<(string, string)> := [];
    while i < |elems|
      invariant 0 <= i <= |elems| && |added| == i
      invariant ts.fields == old(ts.fields) + added
      invariant forall k :: 0 <= k < i ==> ElementField(elems[k]).Some? && added[k] == ElementField(elems[k]).value
      invariant ts.url == old(ts.url) && ts.channel == old(ts.channel) && ts.apiKey == old(ts.apiKey)
      invariant ts.connected == old(ts.connected)
    {
      var f := ElementField(elems[i]);
      if f.None? {
        return false;
      }
      ts.AddField(f.value.0, f.value.1);
      added := added + [f.value];
      i := i + 1;
    }
    ok := true;
    assert added == FieldList(elems).value;
  }

  /** What plugin_init ends with: the settings and the fields added, or why it failed. */
  function Init(items: seq<CategoryItem>, parse: Parser): (r: Result<(Settings, seq<(string, string)>), InitFailure>)
    ensures ReadSettings(items).Err? ==> r == Err(ReadSettings(items).error)
    ensures ReadSettings(items).Ok? && Elements(ReadSettings(items).value.fieldsText, parse).Err? ==>
              r == Err(Elements(ReadSettings(items).value.fieldsText, parse).error)
    ensures r.Ok? ==> r.value.0 == ReadSettings(items).value &&
                      Some(r.value.1) == FieldList(Elements(r.value.0.fieldsText, parse).value)
  {
    match ReadSettings(items)
    case Err(e) => Err(e)
    case Ok(s) =>
      match Elements(s.fieldsText, parse)
      case Err(e) => Err(e)
      case Ok(elems) =>
        match FieldList(elems)
        case None => Err(JsonAssertion)
        case Some(fs) => Ok((s, fs))
  }

  /**
   * A fields document whose elements each name a string asset and reading
   * makes plugin_init add exactly those pairs, in order.
   */
  lemma InitAddsEachElement(items: seq<CategoryItem>, parse: Parser, elems: seq<Json>)
    requires ReadSettings(items).Ok?
    requires parse(ValueOf(items, "fields").value) == Some(JObject([("elements", JArray(elems))]))
    requires forall k :: 0 <= k < |elems| ==> ElementField(elems[k]).Some?
    ensures Init(items, parse).Ok?
    ensures var fs := Init(items, parse).value.1;
      |fs| == |elems| && forall k :: 0 <= k < |elems| ==> fs[k] == ElementField(elems[k]).value
  {
    var doc := JObject([("elements", JArray(elems))]);
    assert Get(doc.members, "elements") == Some(JArray(elems));
    var s := ReadSettings(items).value;
    assert s.fieldsText == ValueOf(items, "fields").value;
    assert Elements(s.fieldsText, parse) == Ok(elems);
    assert FieldList(elems).Some?;
  }

  /** plugin_init: the handle carries the settings and the fields Init describes. */
  method PluginInit(config: Category, parse: Parser) returns (ts: ThingSpeak?, err: Option<InitFailure>)
    ensures Init(config.items, parse).Err? ==> ts == null && err == Some(Init(config.items, parse).error)
    ensures Init(config.items, parse).Ok? ==> err.None? && ts != null && fresh(ts) && ts.connected
    ensures Init(config.items, parse).Ok? ==> ts != null && ts.fields == Init(config.items, parse).value.1
    ensures Init(config.items, parse).Ok? ==> (ts != null &&
      ts.url == Init(config.items, parse).value.0.url && ts.channel == Init(config.items, parse).value.0.channel &&
      ts.apiKey == Init(config.items, parse).value.0.apiKey)
  {
    ghost var r := Init(config.items, parse);
    var settings := ReadSettings(config.items);
    if settings.Err? {
      assert r == Err(settings.error);
      return null, Some(settings.error);
    }
    var s := settings.value;
    var client := new ThingSpeak(s.url, s.channel, s.apiKey);
    client.Connect();
    var elems := Elements(s.fieldsText, parse);
    if elems.Err? {
      assert r == Err(elems.error);
      return null, Some(elems.error);
    }
    var ok := AddFields(client, elems.value);
    if !ok {
      assert r == Err(JsonAssertion);
      return null, Some(JsonAssertion);
    }
    assert r == Ok((s, FieldList(elems.value).value));
    assert client.fields == FieldList(elems.value).value;
    return client, None;
  }
}
