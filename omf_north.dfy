/**
 * The OMF north plugin (python/foglamp/plugins/north/omf1_1/omf1_1.py):
 * the payload builders OmfType, OmfContainer and OmfData, the container
 * id of an asset, the conversion of readings rows into OMF data messages,
 * the retrying POST in send_to_pi and the tuple plugin_send returns.
 * The HTTP transport is an oracle giving the outcome of each attempt.
 */
module OmfNorth {
  import opened Common
  import opened Json

  // ---------------------------------------------------------------------
  // OmfType

  const AllowedPropertyKeys: seq<string> := ["type", "format", "isindex", "isname", "name", "description", "uom"]
  const AllowedPropertyTypes: seq<string> :=
    ["array", "object", "boolean", "integer", "string", "number", "additionalProperties"]

  /**
   * One member of a property as check_property judges it: the key must be
   * allowed and a "type" must name an allowed type. For "array" and
   * "object" the follow-up test asks whether "items" (or "properties" /
   * "additionalProperties") occurs in the type string itself, which never
   * holds, so such a member is always rejected.
   */
  predicate PropertyMemberValid(key: string, v: Json)
  {
    if key !in AllowedPropertyKeys then false
    else if key == "type" && !(v.JString? && v.s in AllowedPropertyTypes) then false
    else if key == "type" && v.s == "array" then false
    else if key == "type" && v.s == "object" then false
    else true
  }

  /** OmfType.check_property: a dict every member of which is valid. */
  predicate CheckProperty(p: Json)
    ensures CheckProperty(p) ==> p.JObject? && forall i :: 0 <= i < |p.members| ==> p.members[i].0 in AllowedPropertyKeys
  {
    p.JObject? && forall i :: 0 <= i < |p.members| ==> PropertyMemberValid(p.members[i].0, p.members[i].1)
  }

  /** check_property accepts exactly the dicts whose keys are allowed and whose "type" is a plain allowed type. */
  lemma CheckPropertyIff(p: Json)
    ensures CheckProperty(p) <==> p.JObject? && forall i :: 0 <= i < |p.members| ==>
      p.members[i].0 in AllowedPropertyKeys &&
      (p.members[i].0 == "type" ==> p.members[i].1 in [JString("boolean"), JString("integer"), JString("string"),
                                                        JString("number"), JString("additionalProperties")])
  {
  }

  /** The type payload being built: a dict that always holds a "properties" dict. */
  class OmfType {
    var payload: Members

    predicate Valid()
      reads this
    {
      Get(payload, "properties").Some? && Get(payload, "properties").value.JObject?
    }

    function Properties(): Members
      reads this
      requires Valid()
    {
      Get(payload, "properties").value.members
    }

    constructor ()
      ensures Valid() && payload == [("properties", JObject([]))]
    {
      payload := [("properties", JObject([]))];
    }

    method AddId(id: string)
      requires Valid()
      modifies this
      ensures Valid() && payload == Put(old(payload), "id", JString(id))
    {
      payload := Put(payload, "id", JString(id));
    }

    /** add_version: "1.0.0.0" when no version is given. */
    method AddVersion(version: Option<string>)
      requires Valid()
      modifies this
      ensures Valid()
      ensures payload == Put(old(payload), "version", JString(if version.Some? then version.value else "1.0.0.0"))
    {
      var v := if version.Some? then version.value else "1.0.0.0";
      payload := Put(payload, "version", JString(v));
    }

    /** add_type ignores its argument: the type is always "object". */
    method AddType(itemType: string)
      requires Valid()
      modifies this
      ensures Valid() && payload == Put(old(payload), "type", JString("object"))
      ensures Get(payload, "type") == Some(JString("object"))
    {
      payload := Put(payload, "type", JString("object"));
    }

    /** add_classfication: anything but "static" or "dynamic" becomes "static". */
    method AddClassification(classification: string)
      requires Valid()
      modifies this
      ensures Valid()
      ensures Get(payload, "classification") ==
              Some(JString(if classification == "dynamic" then "dynamic" else "static"))
      ensures forall k :: k != "classification" ==> Get(payload, k) == Get(old(payload), k)
      ensures payload == Put(old(payload), "classification",
                             JString(if classification == "dynamic" then "dynamic" else "static"))
    {
      var c := if classification in ["static", "dynamic"] then classification else "static";
      payload := Put(payload, "classification", JString(c));
    }

    /** add_property: the property is stored under name only when check_property accepts it. */
    method AddProperty(name: string, property: Json)
      requires Valid()
      modifies this
      ensures Valid()
      ensures CheckProperty(property) ==> Properties() == Put(old(Properties()), name, property)
      ensures !CheckProperty(property) ==> payload == old(payload)
      ensures forall k :: k != "properties" ==> Get(payload, k) == Get(old(payload), k)
    {
      if CheckProperty(property) {
        payload := Put(payload, "properties", JObject(Put(Properties(), name, property)));
      }
    }
  }

  // ---------------------------------------------------------------------
  // OmfContainer

  class OmfContainer {
    var payload: Members

    constructor ()
      ensures payload == []
    {
      payload := [];
    }

    method AddId(id: string)
      modifies this
      ensures payload == Put(old(payload), "id", JString(id))
    {
      payload := Put(payload, "id", JString(id));
    }

    method AddTypeId(typeId: string)
      modifies this
      ensures payload == Put(old(payload), "typeid", JString(typeId))
    {
      payload := Put(payload, "typeid", JString(typeId));
    }

    method AddTypeVersion(typeVersion: string)
      modifies this
      ensures payload == Put(old(payload), "typeversion", JString(typeVersion))
    {
      payload := Put(payload, "typeversion", JString(typeVersion));
    }

    method AddName(name: string)
      modifies this
      ensures payload == Put(old(payload), "name", JString(name))
    {
      payload := Put(payload, "name", JString(name));
    }

    method AddDescription(description: string)
      modifies this
      ensures payload == Put(old(payload), "description", JString(description))
    {
      payload := Put(payload, "description", JString(description));
    }

    method AddTags(tags: seq<Json>)
      modifies this
      ensures payload == Put(old(payload), "tags", JArray(tags))
    {
      payload := Put(payload, "tags", JArray(tags));
    }

    /** add_metadata: only a dict is stored; anything else is ignored. */
    method AddMetadata(metadata: Json)
      modifies this
      ensures metadata.JObject? ==> payload == Put(old(payload), "metadata", metadata)
      ensures !metadata.JObject? ==> payload == old(payload)
    {
      if metadata.JObject? {
        payload := Put(payload, "metadata", metadata);
      }
    }

    method AddIndexes(indexes: seq<Json>)
      modifies this
      ensures payload == Put(old(payload), "indexes", JArray(indexes))
    {
      payload := Put(payload, "indexes", JArray(indexes));
    }
  }

  // ---------------------------------------------------------------------
  // OmfData

  /** The data payload being built: a dict that always holds a "values" list. */
  class OmfData {
    var payload: Members

    predicate Valid()
      reads this
    {
      Get(payload, "values").Some? && Get(payload, "values").value.JArray?
    }

    function Values(): seq<Json>
      reads this
      requires Valid()
    {
      Get(payload, "values").value.elems
    }

    constructor ()
      ensures Valid() && payload == [("values", JArray([]))]
    {
      payload := [("values", JArray([]))];
    }

    method AddContainerId(containerId: string)
      requires Valid()
      modifies this
      ensures Valid() && payload == Put(old(payload), "containerid", JString(containerId))
    {
      payload := Put(payload, "containerid", JString(containerId));
    }

    method AddTypeId(typeId: string)
      requires Valid()
      modifies this
      ensures Valid() && payload == Put(old(payload), "typeid", JString(typeId))
    {
      payload := Put(payload, "typeid", JString(typeId));
    }

    method AddTypeVersion(typeVersion: string)
      requires Valid()
      modifies this
      ensures Valid() && payload == Put(old(payload), "typeversion", JString(typeVersion))
    {
      payload := Put(payload, "typeversion", JString(typeVersion));
    }

    /** add_values appends to the "values" list; nothing else changes. */
    method AddValues(value: Json)
      requires Valid()
      modifies this
      ensures Valid() && Values() == old(Values()) + [value]
      ensures payload == Put(old(payload), "values", JArray(old(Values()) + [value]))
    {
      payload := Put(payload, "values", JArray(Values() + [value]));
    }
  }

  // ---------------------------------------------------------------------
  // Ids and data messages

  /** The asset code with every space removed, the other characters kept in order. */
  function SpaceFree(assetCode: string): (r: string)
    ensures forall k :: 0 <= k < |r| ==> r[k] != ' '
  {
    var r := Filter(assetCode, (c: char) => c != ' ');
    assert forall k :: 0 <= k < |r| ==> r[k] in r;
    r
  }

  /**
   * _generate_omf_container_id: type-id, "_", the measurement prefix and
   * the asset code with every space removed (str.replace(" ", "")).
   */
  function ContainerId(typeId: string, measurementPrefix: string, assetCode: string): (r: string)
    ensures r == typeId + "_" + measurementPrefix + SpaceFree(assetCode)
    ensures forall k :: |typeId| + 1 + |measurementPrefix| <= k < |r| ==> r[k] != ' '
  {
    var prefix := typeId + "_" + measurementPrefix;
    var id := ReplaceAll(assetCode, " ", "");
    ReplaceAllCharIsFilter(assetCode, ' ');
    prefix + id
  }

  /** An asset code without spaces appears in its container id unchanged. */
  lemma ContainerIdOfPlainCode(typeId: string, measurementPrefix: string, assetCode: string)
    requires forall k :: 0 <= k < |assetCode| ==> assetCode[k] != ' '
    ensures ContainerId(typeId, measurementPrefix, assetCode) == typeId + "_" + measurementPrefix + assetCode
  {
    ReplaceAllAbsent(assetCode, ' ');
    ReplaceAllCharIsFilter(assetCode, ' ');
  }

  /**
   * Two asset codes share a container exactly when they agree once their
   * spaces are removed ("my asset" and "myasset" do; "a" and "b" do not).
   */
  lemma ContainerIdIgnoresSpaces(typeId: string, measurementPrefix: string, a: string, b: string)
    ensures ContainerId(typeId, measurementPrefix, a) == ContainerId(typeId, measurementPrefix, b) <==>
            SpaceFree(a) == SpaceFree(b)
  {
    var prefix := typeId + "_" + measurementPrefix;
    if ContainerId(typeId, measurementPrefix, a) == ContainerId(typeId, measurementPrefix, b) {
      assert (prefix + SpaceFree(a))[|prefix|..] == SpaceFree(a);
      assert (prefix + SpaceFree(b))[|prefix|..] == SpaceFree(b);
    }
  }

  /** A row of the readings the sending process hands over. */
  datatype Row = Row(id: int, assetCode: string, userTs: Json, reading: Json)

  /** user_ts[0:10] + "T" + user_ts[11:23] + "Z" */
  function OmfTime(userTs: string): (r: string)
    ensures 2 <= |r| <= 24 && r[|r| - 1] == 'Z'
    ensures |userTs| >= 23 ==> |r| == 24 && r[..10] == userTs[..10] && r[10] == 'T' && r[11..23] == userTs[11..23]
  {
    var date := Slice(userTs, 0, 10);
    var time := Slice(userTs, 11, 23);
    var r := date + "T" + time + "Z";
    assert |userTs| >= 23 ==> |date| == 10 && |time| == 12;
    assert |userTs| >= 23 ==> r[..10] == date && r[11..23] == time;
    r
  }

  /** A row whose user_ts is a string and whose reading is a dict: the rows that convert. */
  predicate Converts(row: Row)
  {
    row.userTs.JString? && row.reading.JObject?
  }

  /**
   * The value dict of a row: "Time" first, then the reading's members,
   * which win on a clash; None when the row raises (user_ts not a string
   * or reading not a dict).
   */
  function RowValue(row: Row): (r: Option<Members>)
    ensures r.Some? <==> Converts(row)
    ensures r.Some? ==> |Keys(r.value)| >= 1 && Keys(r.value)[0] == "Time"
    ensures r.Some? ==> forall k ::
      Get(r.value, k) == if LastGet(row.reading.members, k).Some? then LastGet(row.reading.members, k)
      else if k == "Time" then Some(JString(OmfTime(row.userTs.s)))
      else None
  {
    if row.userTs.JString? && row.reading.JObject? then
      var time := [("Time", JString(OmfTime(row.userTs.s)))];
      assert Keys(time) == ["Time"];
      Some(MergeAll(time, row.reading.members))
    else None
  }

  /**
   * The payload of an OmfData after add_containerid and one add_values:
   * the "values" key first, as the constructor put it, then "containerid".
   */
  function DataMessage(containerId: string, value: Members): (r: Members)
    ensures Keys(r) == ["values", "containerid"]
    ensures Get(r, "containerid") == Some(JString(containerId))
    ensures Get(r, "values") == Some(JArray([JObject(value)]))
  {
    var m0: Members := [("values", JArray([]))];
    assert "values"[0] != "containerid"[0];
    assert Keys(m0) == ["values"];
    assert HasKey(m0, "values") && !HasKey(m0, "containerid") by {
      assert m0[0].0 == "values";
    }
    var m1 := Put(m0, "containerid", JString(containerId));
    assert Keys(m1) == ["values", "containerid"];
    assert HasKey(m1, "values") by {
      assert m1[0].0 == Keys(m1)[0];
    }
    var m2 := Put(m1, "values", JArray([JObject(value)]));
    assert Keys(m2) == Keys(m1);
    assert Get(m2, "containerid") == Get(m1, "containerid");
    m2
  }

  /** How many rows convert without raising. */
  function Converted(rows: seq<Row>): (r: nat)
    ensures r <= |rows|
    ensures (forall i :: 0 <= i < |rows| ==> Converts(rows[i])) ==> r == |rows|
    ensures (forall i :: 0 <= i < |rows| ==> !Converts(rows[i])) ==> r == 0
  {
    if |rows| == 0 then 0
    else
      assert forall i :: 0 <= i < |rows| - 1 ==> rows[..|rows| - 1][i] == rows[i];
      Converted(rows[..|rows| - 1]) + if Converts(rows[|rows| - 1]) then 1 else 0
  }

  /** OmfData().add_containerid(containerId).add_values(value).payload() */
  method BuildDataMessage(containerId: string, value: Members) returns (m: Members)
    ensures m == DataMessage(containerId, value)
  {
    var d := new OmfData();
    d.AddContainerId(containerId);
    assert d.Values() == [];
    d.AddValues(JObject(value));
    assert [] + [JObject(value)] == [JObject(value)];
    m := d.payload;
  }

  /** The messages create_omf_data builds: one per row that converts, in row order. */
  function Messages(typeId: string, measurementPrefix: string, rows: seq<Row>): (r: seq<Json>)
    ensures |r| <= |rows|
    ensures |r| == Converted(rows)
    ensures (forall i :: 0 <= i < |rows| ==> Converts(rows[i])) ==> |r| == |rows|
  {
    if |rows| == 0 then []
    else
      var last := rows[|rows| - 1];
      var front := Messages(typeId, measurementPrefix, rows[..|rows| - 1]);
      assert forall i :: 0 <= i < |rows| - 1 ==> rows[..|rows| - 1][i] == rows[i];
      match RowValue(last)
      case None => front
      case Some(value) =>
        front + [JObject(DataMessage(ContainerId(typeId, measurementPrefix, last.assetCode), value))]
  }

  /** The id create_omf_data reports: that of the last row converted, or 0. */
  function LastConvertedId(rows: seq<Row>): (r: int)
    ensures (forall i :: 0 <= i < |rows| ==> !Converts(rows[i])) ==> r == 0
    ensures forall i :: 0 <= i < |rows| && Converts(rows[i]) &&
                        (forall j :: i < j < |rows| ==> !Converts(rows[j]))
                        ==> r == rows[i].id
  {
    if |rows| == 0 then 0
    else
      var last := rows[|rows| - 1];
      assert forall i :: 0 <= i < |rows| - 1 ==> rows[..|rows| - 1][i] == rows[i];
      if Converts(last) then last.id else LastConvertedId(rows[..|rows| - 1])
  }

  /** Converting one more row: Messages and LastConvertedId grow by that row alone. */
  lemma ConvertStep(typeId: string, measurementPrefix: string, rows: seq<Row>, i: nat)
    requires i < |rows|
    ensures Messages(typeId, measurementPrefix, rows[..i + 1]) ==
            Messages(typeId, measurementPrefix, rows[..i]) +
            if RowValue(rows[i]).Some?
            then [JObject(DataMessage(ContainerId(typeId, measurementPrefix, rows[i].assetCode), RowValue(rows[i]).value))]
            else []
    ensures LastConvertedId(rows[..i + 1]) == if Converts(rows[i]) then rows[i].id else LastConvertedId(rows[..i])
  {
    assert rows[..i + 1][..i] == rows[..i];
  }

  // ---------------------------------------------------------------------
  // send_to_pi

  /** What one POST attempt gave: an HTTP status and body, or another exception. */
  datatype Outcome = Status(code: int, text: string) | Failure(description: string)

  /** A status whose decimal text starts with '2'. */
  predicate Succeeded(o: Outcome)
  {
    o.Status? && SuccessCode(o.code)
  }

  predicate SuccessCode(code: int)
  {
    StartsWith(IntToString(code), "2")
  }

  /** A status that raises RuntimeError, which is what sets _error. */
  predicate IsFetchFailure(o: Outcome)
  {
    o.Status? && !Succeeded(o)
  }

  function DetailsMessage(details: string): string
  {
    "an error occurred during the request to the destination - error details |" + details + "|"
  }

  function FetchMessage(o: Outcome): string
    requires o.Status?
  {
    DetailsMessage(IntToString(o.code) + " " + o.text)
  }

  /**
   * What `raise _error` raises: a URLFetchError, a plain Exception, or
   * None, which Python turns into a TypeError.
   */
  datatype Raised = UrlFetchError(message: string) | GenericError(message: string) | RaiseNone

  /** The first successful attempt in [from, bound). */
  function FirstSuccess(transport: nat -> Outcome, from: nat, bound: int): (r: Option<nat>)
    decreases bound - from
    ensures r.Some? ==> from <= r.value < bound && Succeeded(transport(r.value))
    ensures r.Some? ==> forall k :: from <= k < r.value ==> !Succeeded(transport(k))
    ensures r.None? ==> forall k :: from <= k < bound ==> !Succeeded(transport(k))
  {
    if from >= bound then None
    else if Succeeded(transport(from)) then Some(from)
    else FirstSuccess(transport, from + 1, bound)
  }

  /** The first success after failures up to it is the first success. */
  lemma FirstSuccessAt(transport: nat -> Outcome, k: nat, bound: int)
    requires k < bound && Succeeded(transport(k))
    requires forall j :: 0 <= j < k ==> !Succeeded(transport(j))
    ensures FirstSuccess(transport, 0, bound) == Some(k)
  {
  }

  /** One more failed attempt extends the run of failures. */
  lemma FailedStep(transport: nat -> Outcome, n: nat)
    requires forall k :: 0 <= k < n ==> !Succeeded(transport(k))
    requires !Succeeded(transport(n))
    ensures forall k :: 0 <= k < n + 1 ==> !Succeeded(transport(k))
  {
  }

  /** No success among the attempts: there is no first success. */
  lemma AllFailed(transport: nat -> Outcome, bound: int)
    requires forall j :: 0 <= j < bound ==> !Succeeded(transport(j))
    ensures FirstSuccess(transport, 0, bound).None?
  {
  }

  /** The last attempt below n that raised RuntimeError. */
  function LastFetchFailure(transport: nat -> Outcome, n: nat): (r: Option<nat>)
    ensures r.None? ==> forall k :: 0 <= k < n ==> !IsFetchFailure(transport(k))
    ensures r.Some? ==> r.value < n && IsFetchFailure(transport(r.value))
    ensures r.Some? ==> forall j :: r.value < j < n ==> !IsFetchFailure(transport(j))
  {
    if n == 0 then None
    else if IsFetchFailure(transport(n - 1)) then Some(n - 1)
    else LastFetchFailure(transport, n - 1)
  }

  /** The message _error holds after n attempts. */
  function LastFetchError(transport: nat -> Outcome, n: nat): Option<string>
  {
    match LastFetchFailure(transport, n)
    case Some(k) => Some(FetchMessage(transport(k)))
    case None => None
  }

  /** One more attempt: a RuntimeError replaces _error, anything else leaves it. */
  lemma LastFetchErrorStep(transport: nat -> Outcome, n: nat)
    ensures LastFetchError(transport, n + 1) ==
      if IsFetchFailure(transport(n)) then Some(FetchMessage(transport(n))) else LastFetchError(transport, n)
  {
  }

  /** What send_to_pi raises after n failed attempts, as written: the last RuntimeError's error, or None. */
  function AsWrittenRaised(transport: nat -> Outcome, n: nat): (r: Raised)
    ensures r == RaiseNone <==> forall k :: 0 <= k < n ==> !IsFetchFailure(transport(k))
    ensures r != RaiseNone ==>
      exists k :: (0 <= k < n && IsFetchFailure(transport(k)) && r == UrlFetchError(FetchMessage(transport(k))) &&
                   forall j :: k < j < n ==> !IsFetchFailure(transport(j)))
  {
    match LastFetchError(transport, n)
    case Some(m) => UrlFetchError(m)
    case None => RaiseNone
  }

  /** What send_to_pi evidently means to raise after n failed attempts: the last attempt's own error. */
  function IntendedRaised(transport: nat -> Outcome, n: nat): (r: Raised)
    requires n >= 1 && !Succeeded(transport(n - 1))
    ensures r != RaiseNone
    ensures transport(n - 1).Status? ==> r == UrlFetchError(FetchMessage(transport(n - 1)))
    ensures transport(n - 1).Failure? ==> r == GenericError(DetailsMessage(transport(n - 1).description))
  {
    var o := transport(n - 1);
    if o.Status? then UrlFetchError(FetchMessage(o)) else GenericError(DetailsMessage(o.description))
  }

  /**
   * A RuntimeError followed by another exception raises the stale first
   * error, and another exception alone raises None.
   */
  lemma StaleErrorRaised()
    ensures var t := (k: nat) => if k == 0 then Status(500, "busy") else Failure("timeout");
      AsWrittenRaised(t, 2) == UrlFetchError(FetchMessage(Status(500, "busy"))) &&
      IntendedRaised(t, 2) == GenericError(DetailsMessage("timeout"))
    ensures AsWrittenRaised((k: nat) => Failure("timeout"), 1) == RaiseNone
  {
    var t := (k: nat) => if k == 0 then Status(500, "busy") else Failure("timeout");
    assert IntToString(500) == "500" by {
      assert NatToString(5) == "5";
      assert NatToString(50) == "50";
    }
    assert !Succeeded(t(0));
    assert IsFetchFailure(t(0)) && !IsFetchFailure(t(1));
  }

  /** 2^n */
  function Pow2(n: nat): (r: nat)
    ensures r >= 1
  {
    if n == 0 then 1 else 2 * Pow2(n - 1)
  }

  /** The sleeps of n failed attempts: sleep, twice that, four times that, ... */
  function Doublings(sleep: int, n: nat): (r: seq<int>)
    ensures |r| == n
    ensures forall j :: 0 <= j < n ==> r[j] == sleep * Pow2(j)
    ensures n > 0 ==> r[0] == sleep
    ensures forall j :: 0 < j < n ==> r[j] == 2 * r[j - 1]
  {
    if n == 0 then []
    else
      var front := Doublings(sleep, n - 1);
      assert n >= 2 ==> sleep * Pow2(n - 1) == 2 * (sleep * Pow2(n - 2));
      front + [sleep * Pow2(n - 1)]
  }

  /** One more failed attempt: its sleep is the current one, and the next is twice it. */
  lemma DoublingsStep(sleep: int, n: nat)
    ensures Doublings(sleep, n + 1) == Doublings(sleep, n) + [sleep * Pow2(n)]
    ensures sleep * Pow2(n) * 2 == sleep * Pow2(n + 1)
  {
  }

  function Max0(x: int): nat
  {
    if x < 0 then 0 else x
  }

  /** What send_to_pi raises with this many retries, or None when it returns normally. */
  function SendRaised(maxRetry: int, transport: nat -> Outcome): (r: Option<Raised>)
    ensures r.Some? <==> maxRetry >= 1 && forall k :: 0 <= k < maxRetry ==> !Succeeded(transport(k))
  {
    if FirstSuccess(transport, 0, maxRetry).None? && maxRetry >= 1 then Some(AsWrittenRaised(transport, maxRetry))
    else None
  }

  /** Every attempt failed: send_to_pi raises what _error holds after the last one. */
  lemma RaisedAfterRetries(maxRetry: int, transport: nat -> Outcome)
    requires maxRetry >= 1 && forall k :: 0 <= k < maxRetry ==> !Succeeded(transport(k))
    ensures SendRaised(maxRetry, transport) ==
      Some(match LastFetchError(transport, maxRetry) case Some(m) => UrlFetchError(m) case None => RaiseNone)
  {
    AllFailed(transport, maxRetry);
  }

  /** A tracked type: the ids an OCS automatic type creation records. */
  datatype NewType = NewType(sensorId: string, typename: string, staticId: string, dynamicId: string)

  /** OmfNorthPlugin: the configuration it reads and the types it has created. */
  class OmfNorthPlugin {
    const typeId: string
    const measurementPrefix: string
    const typenameSuffix: string
    const producerToken: string
    const maxRetry: int
    const retrySleepTime: int
    const staticData: Members
    var newTypes: seq<NewType>
    var newConfigTypes: Members

    constructor (typeId: string, measurementPrefix: string, typenameSuffix: string, producerToken: string,
                 maxRetry: int, retrySleepTime: int, staticData: Members)
      ensures this.typeId == typeId && this.measurementPrefix == measurementPrefix
      ensures this.typenameSuffix == typenameSuffix && this.producerToken == producerToken
      ensures this.maxRetry == maxRetry && this.retrySleepTime == retrySleepTime && this.staticData == staticData
      ensures newTypes == [] && newConfigTypes == []
    {
      this.typeId := typeId;
      this.measurementPrefix := measurementPrefix;
      this.typenameSuffix := typenameSuffix;
      this.producerToken := producerToken;
      this.maxRetry := maxRetry;
      this.retrySleepTime := retrySleepTime;
      this.staticData := staticData;
      newTypes := [];
      newConfigTypes := [];
    }

    /**
     * send_to_pi: at most OMFMaxRetry attempts, stopping at the first
     * success; a sleep, doubling each time, after every failed attempt;
     * an error raised when the last attempt failed.
     */
    method SendToPi(transport: nat -> Outcome) returns (requests: nat, sleeps: seq<int>, raised: Option<Raised>)
      ensures var first := FirstSuccess(transport, 0, maxRetry);
        requests == (if first.Some? then first.value + 1 else Max0(maxRetry)) &&
        sleeps == Doublings(retrySleepTime, if first.Some? then first.value else Max0(maxRetry))
      ensures raised == SendRaised(maxRetry, transport)
    {
      var sleepTime := retrySleepTime;
      var error: Option<string> := None;
      var isError := false;
      var numRetry := 1;
      requests, sleeps := 0, [];
      while numRetry <= maxRetry
        invariant requests == numRetry - 1 && requests <= Max0(maxRetry)
        invariant forall k :: 0 <= k < requests ==> !Succeeded(transport(k))
        invariant isError <==> requests > 0
        invariant sleeps == Doublings(retrySleepTime, requests) && sleepTime == retrySleepTime * Pow2(requests)
        invariant error == LastFetchError(transport, requests)
        decreases maxRetry - numRetry
      {
        isError := false;
        var o := transport(requests);
        LastFetchErrorStep(transport, requests);
        requests := requests + 1;
        var succeeded := Succeeded(o);
        if !succeeded {
          if o.Status? {
            error := Some(FetchMessage(o));
          }
          isError := true;
          assert forall k :: 0 <= k < requests ==> !Succeeded(transport(k)) by {
            FailedStep(transport, requests - 1);
          }
        }
        if isError {
          DoublingsStep(retrySleepTime, requests - 1);
          sleeps := sleeps + [sleepTime];
          numRetry := numRetry + 1;
          sleepTime := sleepTime * 2;
        } else {
          FirstSuccessAt(transport, requests - 1, maxRetry);
          break;
        }
      }
      if isError {
        RaisedAfterRetries(maxRetry, transport);
        raised := Some(match error case Some(m) => UrlFetchError(m) case None => RaiseNone);
      } else {
        raised := None;
      }
    }

    /**
     * create_omf_data: one message per row that converts, in order, and
     * the id of the last row converted; a row that raises is skipped.
     */
    method CreateOmfData(rows: seq<Row>) returns (data: seq<Json>, lastId: int)
      ensures data == Messages(typeId, measurementPrefix, rows)
      ensures lastId == LastConvertedId(rows)
    {
      lastId := 0;
      data := [];
      for i := 0 to |rows|
        invariant data == Messages(typeId, measurementPrefix, rows[..i])
        invariant lastId == LastConvertedId(rows[..i])
      {
        var row := rows[i];
        ConvertStep(typeId, measurementPrefix, rows, i);
        var containerId := ContainerId(typeId, measurementPrefix, row.assetCode);
        var value := RowValue(row);
        if value.Some? {
          var message := BuildDataMessage(containerId, value.value);
          data := data + [JObject(message)];
          lastId := row.id;
        }
      }
      assert rows[..|rows|] == rows;
    }

    /**
     * plugin_send after the type, container, link and static stages
     * (their outcome is setup): convert the rows, send them, and return
     * (True, last id, number of messages); any error propagates and
     * switches off the forced recreation of the OMF objects.
     */
    method PluginSend(rows: seq<Row>, setup: Option<Raised>, transport: nat -> Outcome, recreate: bool)
      returns (result: Result<(bool, int, nat), Raised>, recreateAfter: bool)
      ensures result.Ok? <==> setup.None? && SendRaised(maxRetry, transport).None?
      ensures result.Ok? ==> result.value == (true, LastConvertedId(rows), |Messages(typeId, measurementPrefix, rows)|)
      ensures result.Ok? ==> result.value.2 <= |rows|
      ensures result.Err? ==> result.error == if setup.Some? then setup.value else SendRaised(maxRetry, transport).value
      ensures recreateAfter == (recreate && result.Ok?)
    {
      if setup.Some? {
        return Err(setup.value), false;
      }
      var data, lastId := CreateOmfData(rows);
      var numToSent := |data|;
      var requests, sleeps, raised := SendToPi(transport);
      if raised.Some? {
        return Err(raised.value), false;
      }
      return Ok((true, lastId, numToSent)), recreate;
    }
  }

  /** Every retry fails: OMFMaxRetry requests and OMFMaxRetry sleeps S, 2S, 4S, ... */
  lemma AllAttemptsFail(maxRetry: int, transport: nat -> Outcome)
    requires forall k :: 0 <= k < maxRetry ==> !Succeeded(transport(k))
    ensures FirstSuccess(transport, 0, maxRetry).None?
    ensures maxRetry >= 1 ==> SendRaised(maxRetry, transport).Some?
  {
  }

  /** No retries configured: send_to_pi makes no request and raises nothing. */
  lemma NoRetries(maxRetry: int, transport: nat -> Outcome)
    requires maxRetry < 1
    ensures FirstSuccess(transport, 0, maxRetry).None? && SendRaised(maxRetry, transport).None?
  {
  }
}
