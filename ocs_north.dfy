/**
 * The OCS north plugin (python/foglamp/plugins/north/ocs1_1/ocs1_1.py):
 * the checks of its plugin_init, its declared defaults, and the automatic
 * OMF type creation of OCSNorthPlugin, which picks a numeric format per
 * datapoint type. That method is named _create_omf_type_automatic and so
 * does not override the OMF plugin's _create_omf_types_automatic, which
 * is the one _create_omf_object_types calls; it is modelled on its own.
 */
module OcsNorth {
  import opened Common
  import opened Json
  import opened OmfNorth

  // ---------------------------------------------------------------------
  // plugin_init

  /** Why plugin_init raises ValueError. */
  datatype InitError =
    | ProducerTokenUndefined
    | ProducerTokenEmpty
    | TypeIdUndefined
    | TypeIdEmpty

  /**
   * The checks of plugin_init, as written: each compares the whole
   * configuration item (a dict) with "", so only a missing key is caught.
   * config is the plugin's configuration, types the fetched types category.
   */
  function InitCheck(config: Members, types: Members): (r: Result<(), InitError>)
    ensures !HasKey(config, "producerToken") ==> r == Err(ProducerTokenUndefined)
    ensures (HasKey(config, "producerToken") && Get(config, "producerToken").value.JObject? &&
             !HasKey(types, "type-id")) ==> r == Err(TypeIdUndefined)
    ensures (HasKey(config, "producerToken") && Get(config, "producerToken").value.JObject? &&
             HasKey(types, "type-id") && Get(types, "type-id").value.JObject?) ==> r == Ok(())
  {
    match Get(config, "producerToken")
    case None => Err(ProducerTokenUndefined)
    case Some(token) =>
      if token == JString("") then Err(ProducerTokenEmpty)
      else
        match Get(types, "type-id")
        case None => Err(TypeIdUndefined)
        case Some(typeId) => if typeId == JString("") then Err(TypeIdEmpty) else Ok(())
  }

  /**
   * The checks as their messages describe them: the item's value may not
   * be the empty string.
   */
  function IntendedInitCheck(config: Members, types: Members): (r: Result<(), InitError>)
    ensures r.Ok? <==> HasKey(config, "producerToken") && Member(Get(config, "producerToken").value, "value") != Some(JString("")) &&
                       HasKey(types, "type-id") && Member(Get(types, "type-id").value, "value") != Some(JString(""))
    ensures HasKey(config, "producerToken") && Member(Get(config, "producerToken").value, "value") == Some(JString("")) ==>
              r == Err(ProducerTokenEmpty)
  {
    match Get(config, "producerToken")
    case None => Err(ProducerTokenUndefined)
    case Some(token) =>
      if Member(token, "value") == Some(JString("")) then Err(ProducerTokenEmpty)
      else
        match Get(types, "type-id")
        case None => Err(TypeIdUndefined)
        case Some(typeId) => if Member(typeId, "value") == Some(JString("")) then Err(TypeIdEmpty) else Ok(())
  }

  /** An item whose value is the empty string passes the check as written, and fails the intended one. */
  lemma EmptyProducerTokenAccepted()
    ensures var item := JObject([("value", JString(""))]);
      var types := [("type-id", JObject([("value", JString("0001"))]))];
      InitCheck([("producerToken", item)], types) == Ok(()) &&
      IntendedInitCheck([("producerToken", item)], types) == Err(ProducerTokenEmpty)
  {
    var item := JObject([("value", JString(""))]);
    assert Get([("producerToken", item)], "producerToken") == Some(item);
    assert Get(item.members, "value") == Some(JString(""));
  }

  // ---------------------------------------------------------------------
  // Declared defaults

  /** The retry, timeout and format entries of the declared configuration: (name, type, default). */
  const DeclaredDefaults: seq<(string, string, string)> := [
    ("OMFMaxRetry", "integer", "5"),
    ("OMFRetrySleepTime", "integer", "1"),
    ("OMFHttpTimeout", "integer", "30"),
    ("formatNumber", "string", "float64"),
    ("formatInteger", "string", "int32")
  ]

  /** The default of a declared entry. */
  function DefaultOf(name: string): (r: Option<string>)
    ensures r.Some? <==> exists i :: 0 <= i < |DeclaredDefaults| && DeclaredDefaults[i].0 == name
  {
    if name == "OMFMaxRetry" then Some(DeclaredDefaults[0].2)
    else if name == "OMFRetrySleepTime" then Some(DeclaredDefaults[1].2)
    else if name == "OMFHttpTimeout" then Some(DeclaredDefaults[2].2)
    else if name == "formatNumber" then Some(DeclaredDefaults[3].2)
    else if name == "formatInteger" then Some(DeclaredDefaults[4].2)
    else None
  }

  /** Every integer entry's default is a numeral int() accepts, and the formats default to float64 and int32. */
  lemma DeclaredDefaultsWellFormed()
    ensures forall i :: 0 <= i < |DeclaredDefaults| && DeclaredDefaults[i].1 == "integer" ==>
              DeclaredDefaults[i].2 != [] && AllDigits(DeclaredDefaults[i].2)
    ensures DefaultOf("OMFMaxRetry") == Some("5") && DefaultOf("OMFHttpTimeout") == Some("30")
    ensures DefaultOf("formatNumber") == Some("float64") && DefaultOf("formatInteger") == Some("int32")
  {
    assert AllDigits("30") by {
      assert IsDigit("30"[0]) && IsDigit("30"[1]);
    }
  }

  // ---------------------------------------------------------------------
  // Ids

  function SensorId(assetCode: string): string
  {
    ReplaceAll(assetCode, " ", "")
  }

  function Typename(assetCode: string, typenameSuffix: string): string
  {
    SensorId(assetCode) + typenameSuffix
  }

  function StaticId(typeId: string, assetCode: string, typenameSuffix: string): string
  {
    typeId + "_" + Typename(assetCode, typenameSuffix) + "_sensor"
  }

  function DynamicId(typeId: string, assetCode: string, typenameSuffix: string): string
  {
    typeId + "_" + Typename(assetCode, typenameSuffix) + "_measurement"
  }

  /**
   * The static and the dynamic id share the prefix type-id "_" typename
   * and never coincide.
   */
  lemma IdsOfAsset(typeId: string, assetCode: string, typenameSuffix: string)
    ensures var prefix := typeId + "_" + Typename(assetCode, typenameSuffix);
      StartsWith(StaticId(typeId, assetCode, typenameSuffix), prefix) &&
      StartsWith(DynamicId(typeId, assetCode, typenameSuffix), prefix) &&
      StaticId(typeId, assetCode, typenameSuffix) != DynamicId(typeId, assetCode, typenameSuffix)
  {
    var prefix := typeId + "_" + Typename(assetCode, typenameSuffix);
    assert StaticId(typeId, assetCode, typenameSuffix)[..|prefix|] == prefix;
    assert DynamicId(typeId, assetCode, typenameSuffix)[..|prefix|] == prefix;
    assert |StaticId(typeId, assetCode, typenameSuffix)| + 5 == |DynamicId(typeId, assetCode, typenameSuffix)|;
  }

  // ---------------------------------------------------------------------
  // Properties

  const StringProperty: Json := JObject([("type", JString("string"))])
  const NameProperty: Json := JObject([("type", JString("string")), ("isindex", JBool(true))])
  const TimeProperty: Json := JObject([("type", JString("string")), ("format", JString("date-time")), ("isindex", JBool(true))])

  /** The property of a datapoint of the given type: integer and number carry the configured format. */
  function DatapointProperty(itemType: string, formatInteger: string, formatNumber: string): (r: Json)
    ensures r.JObject? && Get(r.members, "type") == Some(JString(itemType))
    ensures itemType == "integer" ==> Get(r.members, "format") == Some(JString(formatInteger))
    ensures itemType == "number" ==> Get(r.members, "format") == Some(JString(formatNumber))
    ensures itemType != "integer" && itemType != "number" ==> Keys(r.members) == ["type"]
  {
    if itemType == "integer" then JObject([("type", JString(itemType)), ("format", JString(formatInteger))])
    else if itemType == "number" then JObject([("type", JString(itemType)), ("format", JString(formatNumber))])
    else JObject([("type", JString(itemType))])
  }

  /** add_property keeps a datapoint's property exactly when its type is one check_property allows. */
  lemma DatapointPropertyAccepted(itemType: string, formatInteger: string, formatNumber: string)
    ensures CheckProperty(DatapointProperty(itemType, formatInteger, formatNumber)) <==>
            itemType in ["boolean", "integer", "string", "number", "additionalProperties"]
  {
    var p := DatapointProperty(itemType, formatInteger, formatNumber);
    assert p.members[0] == ("type", JString(itemType));
    assert PropertyMemberValid("format", JString(formatInteger));
    if itemType in ["boolean", "integer", "string", "number", "additionalProperties"] {
      assert itemType in AllowedPropertyTypes;
    }
  }

  /** The properties add_property is asked to add, in order, to the static type. */
  function StaticProperties(staticData: Members): (r: Members)
    ensures |r| == |staticData| + 1 && r[0] == ("Name", NameProperty)
    ensures forall i :: 0 <= i < |staticData| ==> r[i + 1] == (staticData[i].0, StringProperty)
  {
    [("Name", NameProperty)] + seq(|staticData|, i requires 0 <= i < |staticData| => (staticData[i].0, StringProperty))
  }

  /** The properties add_property is asked to add, in order, to the dynamic type. */
  function DynamicProperties(assetData: Members, evaluateType: Json -> string, formatInteger: string,
                             formatNumber: string): (r: Members)
    ensures |r| == |assetData| + 1 && r[0] == ("Time", TimeProperty)
    ensures forall i :: 0 <= i < |assetData| ==>
      r[i + 1] == (assetData[i].0, DatapointProperty(evaluateType(assetData[i].1), formatInteger, formatNumber))
  {
    [("Time", TimeProperty)] +
    seq(|assetData|, i requires 0 <= i < |assetData| =>
      (assetData[i].0, DatapointProperty(evaluateType(assetData[i].1), formatInteger, formatNumber)))
  }

  /** The properties check_property lets through, in order. */
  function Accepted(props: Members): (r: Members)
    ensures |r| <= |props|
    ensures forall j :: 0 <= j < |r| ==> CheckProperty(r[j].1)
    ensures (forall j :: 0 <= j < |props| ==> CheckProperty(props[j].1)) ==> r == props
  {
    if |props| == 0 then []
    else
      var front := props[..|props| - 1];
      var last := props[|props| - 1];
      assert forall j :: 0 <= j < |props| - 1 ==> front[j] == props[j];
      assert props == front + [last];
      Accepted(front) + if CheckProperty(last.1) then [last] else []
  }

  /** An accepted property not named again later is the one the properties dict ends with. */
  lemma {:induction false} LastAccepted(props: Members, i: nat)
    requires i < |props| && CheckProperty(props[i].1)
    requires forall j :: i < j < |props| ==> props[j].0 != props[i].0
    ensures LastGet(Accepted(props), props[i].0) == Some(props[i].1)
    decreases |props|
  {
    var front := props[..|props| - 1];
    var last := props[|props| - 1];
    var a := Accepted(front);
    if i == |props| - 1 {
      assert Accepted(props) == a + [last];
    } else {
      assert forall j :: i < j < |props| - 1 ==> front[j] == props[j];
      LastAccepted(front, i);
      if CheckProperty(last.1) {
        assert Accepted(props) == a + [last];
        assert (a + [last])[..|a|] == a;
      } else {
        assert Accepted(props) == a;
      }
    }
  }

  /** One more add_property: the properties dict grows by that property if it is accepted. */
  lemma AddPropertyStep(props: Members, i: nat)
    requires i < |props|
    ensures MergeAll([], Accepted(props[..i + 1])) ==
            if CheckProperty(props[i].1) then Put(MergeAll([], Accepted(props[..i])), props[i].0, props[i].1)
            else MergeAll([], Accepted(props[..i]))
  {
    var front := props[..i];
    assert props[..i + 1] == front + [props[i]];
    assert (front + [props[i]])[..i] == front;
    if CheckProperty(props[i].1) {
      assert Accepted(props[..i + 1]) == Accepted(front) + [props[i]];
      assert (Accepted(front) + [props[i]])[..|Accepted(front)|] == Accepted(front);
    } else {
      assert Accepted(props[..i + 1]) == Accepted(front);
    }
  }

  /** A type payload as the OmfType builder leaves it. */
  predicate IsTypePayload(p: Members, id: string, classification: string, props: Members)
  {
    Get(p, "id") == Some(JString(id)) && Get(p, "type") == Some(JString("object")) &&
    Get(p, "classification") == Some(JString(classification)) &&
    Get(p, "version") == Some(JString("1.0.0.0")) &&
    Get(p, "properties") == Some(JObject(MergeAll([], Accepted(props))))
  }

  /** Every static data key becomes a string property (the last member of that name decides). */
  lemma StaticTypeProperty(staticData: Members, i: nat)
    requires i < |staticData| && forall j :: i < j < |staticData| ==> staticData[j].0 != staticData[i].0
    ensures Get(MergeAll([], Accepted(StaticProperties(staticData))), staticData[i].0) == Some(StringProperty)
  {
    var props := StaticProperties(staticData);
    assert PropertyMemberValid("type", JString("string"));
    assert CheckProperty(props[i + 1].1);
    LastAccepted(props, i + 1);
  }

  /** "Name" is the string index property unless static data has a key "Name". */
  lemma StaticNameIndex(staticData: Members)
    requires forall j :: 0 <= j < |staticData| ==> staticData[j].0 != "Name"
    ensures Get(MergeAll([], Accepted(StaticProperties(staticData))), "Name") == Some(NameProperty)
  {
    var props := StaticProperties(staticData);
    assert PropertyMemberValid("type", JString("string")) && PropertyMemberValid("isindex", JBool(true));
    assert CheckProperty(props[0].1);
    LastAccepted(props, 0);
  }

  /** A datapoint of an allowed type gets the property its type selects. */
  lemma DynamicTypeProperty(assetData: Members, evaluateType: Json -> string, formatInteger: string,
                            formatNumber: string, i: nat)
    requires i < |assetData| && forall j :: i < j < |assetData| ==> assetData[j].0 != assetData[i].0
    requires evaluateType(assetData[i].1) in ["boolean", "integer", "string", "number", "additionalProperties"]
    ensures Get(MergeAll([], Accepted(DynamicProperties(assetData, evaluateType, formatInteger, formatNumber))),
                assetData[i].0) ==
            Some(DatapointProperty(evaluateType(assetData[i].1), formatInteger, formatNumber))
  {
    var props := DynamicProperties(assetData, evaluateType, formatInteger, formatNumber);
    DatapointPropertyAccepted(evaluateType(assetData[i].1), formatInteger, formatNumber);
    LastAccepted(props, i + 1);
  }

  /** "Time" is the date-time index property unless a datapoint is named "Time". */
  lemma DynamicTimeIndex(assetData: Members, evaluateType: Json -> string, formatInteger: string, formatNumber: string)
    requires forall j :: 0 <= j < |assetData| ==> assetData[j].0 != "Time"
    ensures Get(MergeAll([], Accepted(DynamicProperties(assetData, evaluateType, formatInteger, formatNumber))),
                "Time") == Some(TimeProperty)
  {
    var props := DynamicProperties(assetData, evaluateType, formatInteger, formatNumber);
    assert PropertyMemberValid("type", JString("string")) && PropertyMemberValid("isindex", JBool(true));
    assert PropertyMemberValid("format", JString("date-time"));
    assert CheckProperty(props[0].1);
    LastAccepted(props, 0);
  }

  // ---------------------------------------------------------------------
  // _create_omf_type_automatic

  /** The header keys of a type payload are distinct: each starts with its own letter. */
  lemma HeaderKeysDiffer()
    ensures "id" != "type" && "id" != "classification" && "id" != "version" && "id" != "properties"
    ensures "type" != "classification" && "type" != "version" && "type" != "properties"
    ensures "classification" != "version" && "classification" != "properties" && "version" != "properties"
  {
    assert "id"[0] == 'i' && "type"[0] == 't' && "classification"[0] == 'c';
    assert "version"[0] == 'v' && "properties"[0] == 'p';
  }

  /** The members of the header a type payload starts with, each under its own key. */
  function Header(id: string, classification: string): (r: Members)
    ensures Get(r, "properties") == Some(JObject([]))
    ensures Get(r, "id") == Some(JString(id))
    ensures Get(r, "type") == Some(JString("object"))
    ensures Get(r, "classification") == Some(JString(classification))
    ensures Get(r, "version") == Some(JString("1.0.0.0"))
  {
    HeaderKeysDiffer();
    var p0: Members := [("properties", JObject([]))];
    assert Get(p0, "properties") == Some(JObject([]));
    var p1 := Put(p0, "id", JString(id));
    var p2 := Put(p1, "type", JString("object"));
    var p3 := Put(p2, "classification", JString(classification));
    assert Get(p3, "properties") == Some(JObject([]));
    Put(p3, "version", JString("1.0.0.0"))
  }

  /** OmfType().add_id(id).add_type("object").add_classfication(c).add_version('1.0.0.0') */
  method TypeHeader(id: string, classification: string) returns (t: OmfType)
    requires classification == "static" || classification == "dynamic"
    ensures fresh(t) && t.payload == Header(id, classification)
    ensures t.Valid() && t.Properties() == []
    ensures Get(t.payload, "id") == Some(JString(id)) && Get(t.payload, "type") == Some(JString("object"))
    ensures Get(t.payload, "classification") == Some(JString(classification))
    ensures Get(t.payload, "version") == Some(JString("1.0.0.0"))
  {
    t := new OmfType();
    t.AddId(id);
    t.AddType("object");
    t.AddClassification(classification);
    t.AddVersion(Some("1.0.0.0"));
  }

  /** An OmfType with its header set, then add_property for each of props in turn. */
  method BuildType(id: string, classification: string, props: Members) returns (payload: Members)
    requires classification == "static" || classification == "dynamic"
    ensures IsTypePayload(payload, id, classification, props)
  {
    var t := TypeHeader(id, classification);
    ghost var header := t.payload;
    for i := 0 to |props|
      invariant t.Valid() && t.Properties() == MergeAll([], Accepted(props[..i]))
      invariant forall k :: k != "properties" ==> Get(t.payload, k) == Get(header, k)
    {
      AddPropertyStep(props, i);
      t.AddProperty(props[i].0, props[i].1);
    }
    assert props[..|props|] == props;
    payload := t.payload;
  }

  /**
   * OCSNorthPlugin._create_omf_type_automatic: builds the static and the
   * dynamic type, records one new type and both payloads under the asset
   * code, and sends the pair as a "type" message.
   */
  method CreateOmfTypeAutomatic(plugin: OmfNorthPlugin, assetCode: string, assetData: Members,
                                evaluateType: Json -> string, formatInteger: string, formatNumber: string,
                                transport: nat -> Outcome)
    returns (staticPayload: Members, dynamicPayload: Members, raised: Option<Raised>)
    modifies plugin
    ensures var staticId := StaticId(plugin.typeId, assetCode, plugin.typenameSuffix);
      var dynamicId := DynamicId(plugin.typeId, assetCode, plugin.typenameSuffix);
      plugin.newTypes == old(plugin.newTypes) +
        [NewType(SensorId(assetCode), Typename(assetCode, plugin.typenameSuffix), staticId, dynamicId)] &&
      IsTypePayload(staticPayload, staticId, "static", StaticProperties(plugin.staticData)) &&
      IsTypePayload(dynamicPayload, dynamicId, "dynamic",
                    DynamicProperties(assetData, evaluateType, formatInteger, formatNumber))
    ensures plugin.newConfigTypes == Put(old(plugin.newConfigTypes), assetCode,
                                         JObject([("static", JObject(staticPayload)), ("dynamic", JObject(dynamicPayload))]))
    ensures raised == SendRaised(plugin.maxRetry, transport)
  {
    var sensorId := SensorId(assetCode);
    var typename := sensorId + plugin.typenameSuffix;
    var staticId := plugin.typeId + "_" + typename + "_sensor";
    var dynamicId := plugin.typeId + "_" + typename + "_measurement";
    staticPayload := BuildType(staticId, "static", StaticProperties(plugin.staticData));
    dynamicPayload := BuildType(dynamicId, "dynamic", DynamicProperties(assetData, evaluateType, formatInteger, formatNumber));
    plugin.newTypes := plugin.newTypes + [NewType(sensorId, typename, staticId, dynamicId)];
    plugin.newConfigTypes := Put(plugin.newConfigTypes, assetCode,
                                 JObject([("static", JObject(staticPayload)), ("dynamic", JObject(dynamicPayload))]));
    var requests, sleeps;
    requests, sleeps, raised := plugin.SendToPi(transport);
  }
}
