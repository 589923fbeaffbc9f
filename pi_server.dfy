/**
 * The PI_Server north plugin (C/plugins/north/PI_Server/plugin.cpp):
 * plugin_init reads its settings from the configuration category, splits
 * the URL with std::string find and substr, and builds a connector handle
 * holding an HTTP or HTTPS sender and the OMF protocol settings;
 * plugin_shutdown releases that handle; plugin_extra_config names the
 * OMF_TYPES category the plugin needs.
 */
module PiServer {
  import opened Common
  import opened Json
  import opened ConfigCategory

  // ---------------------------------------------------------------------
  // URL split

  datatype UrlParts = UrlParts(protocol: string, hostName: string, port: string, path: string)

  /** find of a character gives the length of the text before it, and npos when there is none. */
  lemma FindIsUpto(s: string, c: char)
    ensures Upto(s, c) != s ==> Find(s, [c], 0) == Some(|Upto(s, c)|)
    ensures Upto(s, c) == s ==> Find(s, [c], 0) == None
  {
    var u := Upto(s, c);
    if u != s {
      FindChar(s, c, |u|);
    } else {
      FindCharAbsent(s, c);
    }
  }

  /**
   * Text the process can hold: std::string::max_size() lies far below npos,
   * so the size_t sums on positions of such text do not wrap.
   */
  predicate Addressable(s: string)
  {
    |s| < SizeModulus / 2
  }

  /** url.find_first_of(":"), npos when absent. */
  function SchemeEnd(url: string): nat
  {
    PosOrNpos(Find(url, ":", 0))
  }

  /**
   * url.substr(0, findProtocol): the text before the first ':', or all of
   * it.
   */
  function Protocol(url: string): (r: string)
    ensures r <= url
    ensures Addressable(url) ==> r == Upto(url, ':')
  {
    FindIsUpto(url, ':');
    Substr(url, 0, SchemeEnd(url)).value
  }

  /**
   * url.substr(findProtocol + 3): three characters after the first ':' are
   * skipped; without a ':' the size_t sum npos + 3 wraps to 2, so the first
   * two characters are skipped. substr throws when that start is past the end.
   */
  function Remainder(url: string): (r: Result<string, StdError>)
    ensures var p := Upto(url, ':');
      p != url && Addressable(url) ==> r == (if |p| + 3 <= |url| then Ok(url[|p| + 3..]) else Err(OutOfRange))
    ensures Upto(url, ':') == url && Addressable(url) ==> r == (if 2 <= |url| then Ok(url[2..]) else Err(OutOfRange))
  {
    FindIsUpto(url, ':');
    Substr(url, SizeT(SchemeEnd(url) + 3), Npos)
  }

  /**
   * Host, port and path out of what follows the scheme: host up to the
   * first ':', port from there to the first '/', path from that '/' on.
   * The size_t length findPath - findPort - 1 wraps when there is no ':'
   * (the port is then the text before the '/', as for "h/p") or when the
   * '/' comes first (the port then runs to the end). Without a '/' the
   * path's substr throws.
   */
  function SplitHost(tmpUrl: string): (r: Result<(string, string, string), StdError>)
    ensures r.Err? <==> Lacks(tmpUrl, '/')
    ensures r.Err? ==> r.error == OutOfRange
    ensures var host, beforePath := Upto(tmpUrl, ':'), Upto(tmpUrl, '/');
      r.Ok? && Addressable(tmpUrl) ==> r.value.0 == host && r.value.2 == tmpUrl[|beforePath|..]
    ensures var host, beforePath := Upto(tmpUrl, ':'), Upto(tmpUrl, '/');
      r.Ok? && Addressable(tmpUrl) ==>
        r.value.1 == (if host == tmpUrl then beforePath
                      else if |host| < |beforePath| then tmpUrl[|host| + 1..|beforePath|]
                      else tmpUrl[|host| + 1..])
  {
    var findPort := PosOrNpos(Find(tmpUrl, ":", 0));
    var hostName := Substr(tmpUrl, 0, findPort).value;
    var findPath := PosOrNpos(Find(tmpUrl, "/", 0));
    var port := Substr(tmpUrl, SizeT(findPort + 1), SizeT(findPath - findPort - 1)).value;
    SplitHostParts(tmpUrl, findPort, hostName, findPath, port);
    if Lacks(tmpUrl, '/') then
      Err(OutOfRange)
    else
      Ok((hostName, port, tmpUrl[findPath..]))
  }

  /** The values SplitHost computes, in terms of the text before the first ':' and before the first '/'. */
  lemma SplitHostParts(tmpUrl: string, findPort: nat, hostName: string, findPath: nat, port: string)
    requires findPort == PosOrNpos(Find(tmpUrl, ":", 0)) && findPath == PosOrNpos(Find(tmpUrl, "/", 0))
    requires hostName == Substr(tmpUrl, 0, findPort).value
    requires port == Substr(tmpUrl, SizeT(findPort + 1), SizeT(findPath - findPort - 1)).value
    ensures Addressable(tmpUrl) ==> hostName == Upto(tmpUrl, ':')
    ensures !Lacks(tmpUrl, '/') ==> findPath == |Upto(tmpUrl, '/')|
    ensures var host, beforePath := Upto(tmpUrl, ':'), Upto(tmpUrl, '/');
      !Lacks(tmpUrl, '/') && Addressable(tmpUrl) ==>
        port == (if host == tmpUrl then beforePath
                 else if |host| < |beforePath| then tmpUrl[|host| + 1..|beforePath|]
                 else tmpUrl[|host| + 1..])
  {
    FindIsUpto(tmpUrl, ':');
    FindIsUpto(tmpUrl, '/');
    var host, beforePath := Upto(tmpUrl, ':'), Upto(tmpUrl, '/');
    if !Lacks(tmpUrl, '/') {
      assert beforePath != tmpUrl;
      if Addressable(tmpUrl) {
        if host == tmpUrl {
          PortWithoutColon(tmpUrl, findPath, port);
        } else if |host| < |beforePath| {
          PortBeforePath(tmpUrl, findPort, findPath, port);
        } else {
          assert |host| != |beforePath|;
          PortAfterPath(tmpUrl, findPort, findPath, port);
        }
      }
    }
  }

  /** Without a ':' the port's substr starts at npos + 1, which wraps to 0, and runs up to the '/'. */
  lemma PortWithoutColon(t: string, findPath: nat, port: string)
    requires findPath < |t| && Addressable(t)
    requires port == Substr(t, SizeT(Npos + 1), SizeT(findPath - Npos - 1)).value
    ensures port == t[..findPath]
  {
    assert SizeT(Npos + 1) == SizeModulus % SizeModulus == 0;
    assert SizeT(findPath - Npos - 1) == findPath;
  }

  /** A ':' before the '/': the port lies between them. */
  lemma PortBeforePath(t: string, findPort: nat, findPath: nat, port: string)
    requires findPort < findPath < |t| && Addressable(t)
    requires port == Substr(t, SizeT(findPort + 1), SizeT(findPath - findPort - 1)).value
    ensures port == t[findPort + 1..findPath]
  {
    assert SizeT(findPath - findPort - 1) == findPath - findPort - 1;
  }

  /** A ':' after the '/': the length wraps to nearly 2^64, so the port runs to the end. */
  lemma PortAfterPath(t: string, findPort: nat, findPath: nat, port: string)
    requires findPath < findPort < |t| && Addressable(t)
    requires port == Substr(t, SizeT(findPort + 1), SizeT(findPath - findPort - 1)).value
    ensures port == t[findPort + 1..]
  {
    assert SizeT(findPath - findPort - 1) == findPath - findPort - 1 + SizeModulus;
  }

  /** How plugin_init splits the URL; Err where substr throws out_of_range. */
  function SplitUrl(url: string): (r: Result<UrlParts, StdError>)
    ensures r.Ok? ==> r.value.protocol <= url
  {
    match Remainder(url)
    case Err(e) => Err(e)
    case Ok(tmpUrl) =>
      match SplitHost(tmpUrl)
      case Err(e) => Err(e)
      case Ok((host, port, path)) => Ok(UrlParts(Protocol(url), host, port, path))
  }

  lemma RemainderOf(scheme: string, rest: string)
    requires Lacks(scheme, ':') && |scheme + "://" + rest| < Npos
    ensures Remainder(scheme + "://" + rest) == Ok(rest)
    ensures Protocol(scheme + "://" + rest) == scheme
  {
    var url := scheme + "://" + rest;
    FindChar(url, ':', |scheme|);
    assert url[|scheme| + 3..] == rest;
    assert url[..|scheme|] == scheme;
  }

  lemma SplitHostOf(host: string, port: string, path: string)
    requires Lacks(host, ':') && Lacks(host, '/') && Lacks(port, '/') && |host + ":" + port + path| < Npos
    requires path != [] && path[0] == '/'
    ensures SplitHost(host + ":" + port + path) == Ok((host, port, path))
  {
    var tmp := host + ":" + port + path;
    var findPath := |host| + 1 + |port|;
    FindChar(tmp, ':', |host|);
    FindChar(tmp, '/', findPath);
    assert tmp[..|host|] == host;
    assert Substr(tmp, 0, |host|) == Ok(host);
    assert SizeT(|host| + 1) == |host| + 1;
    assert SizeT(findPath - |host| - 1) == |port|;
    assert tmp[|host| + 1..|host| + 1 + |port|] == port;
    assert Substr(tmp, |host| + 1, |port|) == Ok(port);
    assert tmp[findPath..] == path;
  }

  /**
   * A URL of the documented form scheme://host:port/path splits back into
   * its parts when the scheme and host hold no ':' and the host and port
   * hold no '/' (and the text is shorter than a size_t can count).
   */
  lemma SplitUrlOfParts(scheme: string, host: string, port: string, path: string)
    requires Lacks(scheme, ':') && Lacks(host, ':') && Lacks(host, '/') && Lacks(port, '/')
    requires |scheme + "://" + host + ":" + port + path| < Npos
    requires path != [] && path[0] == '/'
    ensures SplitUrl(scheme + "://" + host + ":" + port + path) == Ok(UrlParts(scheme, host, port, path))
  {
    var rest := host + ":" + port + path;
    assert scheme + "://" + host + ":" + port + path == scheme + "://" + rest;
    RemainderOf(scheme, rest);
    SplitHostOf(host, port, path);
  }

  /**
   * A URL without a port, scheme://host/path: with no ':' after the scheme
   * the host runs to the end of the text and the wrapped length makes the
   * port the host itself ("http://h/p" gives host "h/p", port "h", path "/p").
   */
  lemma SplitUrlWithoutPort(scheme: string, host: string, path: string)
    requires Lacks(scheme, ':') && Lacks(host, ':') && Lacks(host, '/') && Lacks(path, ':')
    requires path != [] && path[0] == '/' && Addressable(scheme + "://" + host + path)
    ensures SplitUrl(scheme + "://" + host + path) == Ok(UrlParts(scheme, host + path, host, path))
  {
    var rest := host + path;
    assert scheme + "://" + host + path == scheme + "://" + rest;
    assert Addressable(rest);
    RemainderOf(scheme, rest);
    SplitHostWithoutPort(host, path);
  }

  /** host/path with no ':': the host is the whole text, the port the text before the '/'. */
  lemma SplitHostWithoutPort(host: string, path: string)
    requires Lacks(host, ':') && Lacks(host, '/') && Lacks(path, ':')
    requires path != [] && path[0] == '/' && Addressable(host + path)
    ensures SplitHost(host + path) == Ok((host + path, host, path))
  {
    var rest := host + path;
    UptoOf(rest, ':', |rest|);
    UptoOf(rest, '/', |host|);
    assert rest[..|host|] == host && rest[|host|..] == path;
  }

  /** A URL with no '/' after the three skipped characters makes substr throw. */
  lemma SplitUrlWithoutPath(scheme: string, rest: string)
    requires Lacks(scheme, ':') && Lacks(rest, '/') && |scheme + "://" + rest| < Npos
    ensures SplitUrl(scheme + "://" + rest) == Err(OutOfRange)
  {
    RemainderOf(scheme, rest);
  }

  // ---------------------------------------------------------------------
  // plugin_init

  /** The HTTP(S) sender bound to host:port with both timeouts. */
  datatype Sender = Sender(secure: bool, hostAndPort: string, connectTimeout: nat, requestTimeout: nat)

  /** The settings the OMF protocol object receives. */
  datatype OmfSettings = OmfSettings(path: string, typeId: string, producerToken: string,
                                     floatFormat: string, integerFormat: string)

  datatype Connector = Connector(sender: Sender, omf: OmfSettings)

  /** What plugin_init throws: a missing item (from getValue) or out_of_range (from substr). */
  datatype InitError = ItemMissing(cause: ConfigError) | UrlOutOfRange

  const TypeIdItem: string := "OMF_TYPES.type-id"

  /** The items plugin_init reads with getValue before anything else. */
  predicate HasRequired(items: seq<CategoryItem>)
  {
    HasItem(items, "URL") && HasItem(items, "OMFHttpTimeout") && HasItem(items, "producerToken") &&
    HasItem(items, "formatNumber") && HasItem(items, "formatInteger")
  }

  /** An int converted to unsigned int: taken modulo 2^32. */
  function UnsignedInt(i: int): (u: nat)
    ensures u < 0x1_0000_0000
    ensures 0 <= i < 0x1_0000_0000 ==> u == i
  {
    i % 0x1_0000_0000
  }

  /**
   * The OMFHttpTimeout item read with atoi into an unsigned int: the
   * number written, for any value an unsigned int holds.
   */
  function Timeout(text: string): (r: nat)
    ensures r < 0x1_0000_0000
    ensures -0x1_0000_0000 <= Atoi(text) < 0 ==> r == Atoi(text) + 0x1_0000_0000
    ensures forall n: nat :: n < 0x1_0000_0000 && text == IntToString(n) ==> r == n
  {
    var a := Atoi(text);
    AtoiOfWrittenUnsigned(text);
    assert -0x1_0000_0000 <= a < 0 ==> UnsignedInt(a) == a + 0x1_0000_0000;
    UnsignedInt(a)
  }

  /** atoi reads back any unsigned int written in decimal. */
  lemma AtoiOfWrittenUnsigned(text: string)
    ensures forall n: nat :: n < 0x1_0000_0000 && text == IntToString(n) ==> Atoi(text) == n
  {
    forall n: nat | n < 0x1_0000_0000 && text == IntToString(n)
      ensures Atoi(text) == n
    {
      AtoiOfIntToString(n);
    }
  }

  /** The values plugin_init reads first. */
  datatype Settings = Settings(url: string, timeout: nat, producerToken: string,
                               formatNumber: string, formatInteger: string)

  /** The five getValue calls, in order; the first missing item throws. */
  function ReadSettings(items: seq<CategoryItem>): (r: Result<Settings, ConfigError>)
    ensures r.Ok? <==> HasRequired(items)
    ensures r.Err? ==> r.error == ConfigItemNotFound
    ensures r.Ok? ==> r.value.url == ValueOf(items, "URL").value &&
                      r.value.timeout == Timeout(ValueOf(items, "OMFHttpTimeout").value) &&
                      r.value.producerToken == ValueOf(items, "producerToken").value &&
                      r.value.formatNumber == ValueOf(items, "formatNumber").value &&
                      r.value.formatInteger == ValueOf(items, "formatInteger").value
  {
    match ValueOf(items, "URL")
    case Err(e) => Err(e)
    case Ok(url) =>
      match ValueOf(items, "OMFHttpTimeout")
      case Err(e) => Err(e)
      case Ok(timeoutText) =>
        match ValueOf(items, "producerToken")
        case Err(e) => Err(e)
        case Ok(producerToken) =>
          match ValueOf(items, "formatNumber")
          case Err(e) => Err(e)
          case Ok(formatNumber) =>
            match ValueOf(items, "formatInteger")
            case Err(e) => Err(e)
            case Ok(formatInteger) =>
              Ok(Settings(url, Timeout(timeoutText), producerToken, formatNumber, formatInteger))
  }

  /**
   * The part of plugin_init after the type-id check: split the URL and
   * pick the sender by protocol; NULL for any protocol but http and https.
   */
  function Connect(s: Settings, typesId: string): (r: Result<Option<Connector>, InitError>)
    ensures r.Err? <==> SplitUrl(s.url).Err?
    ensures r.Err? ==> r.error == UrlOutOfRange
    ensures r.Ok? ==>
      var parts := SplitUrl(s.url).value;
      (r.value.Some? <==> parts.protocol == "http" || parts.protocol == "https") &&
      (r.value.Some? ==>
         r.value.value.sender == Sender(parts.protocol == "https", parts.hostName + ":" + parts.port, s.timeout, s.timeout) &&
         r.value.value.omf == OmfSettings(parts.path, typesId, s.producerToken, s.formatNumber, s.formatInteger))
  {
    match SplitUrl(s.url)
    case Err(_) => Err(UrlOutOfRange)
    case Ok(parts) =>
      if parts.protocol == "http" then
        Ok(Some(Connector(Sender(false, parts.hostName + ":" + parts.port, s.timeout, s.timeout),
                          OmfSettings(parts.path, typesId, s.producerToken, s.formatNumber, s.formatInteger))))
      else if parts.protocol == "https" then
        Ok(Some(Connector(Sender(true, parts.hostName + ":" + parts.port, s.timeout, s.timeout),
                          OmfSettings(parts.path, typesId, s.producerToken, s.formatNumber, s.formatInteger))))
      else Ok(None)
  }

  /**
   * plugin_init on a category holding items: Err when it throws, Ok(None)
   * when it returns NULL, Ok(Some(c)) when it returns a handle holding c.
   */
  function Init(items: seq<CategoryItem>): (r: Result<Option<Connector>, InitError>)
    ensures !HasRequired(items) ==> r == Err(ItemMissing(ConfigItemNotFound))
    ensures HasRequired(items) && !HasItem(items, TypeIdItem) ==> r == Ok(None)
    ensures HasRequired(items) && HasItem(items, TypeIdItem) ==>
              r == Connect(ReadSettings(items).value, ValueOf(items, TypeIdItem).value)
  {
    match ReadSettings(items)
    case Err(e) => Err(ItemMissing(e))
    case Ok(settings) =>
      if !HasItem(items, TypeIdItem) then Ok(None)
      else Connect(settings, ValueOf(items, TypeIdItem).value)
  }

  /**
   * A category whose URL has the documented form gives a handle bound to
   * host:port, with the OMF object on the path: HTTPS for scheme https.
   */
  lemma InitOfUrl(items: seq<CategoryItem>, scheme: string, host: string, port: string, path: string)
    requires HasRequired(items) && HasItem(items, TypeIdItem)
    requires ValueOf(items, "URL") == Ok(scheme + "://" + host + ":" + port + path)
    requires scheme == "http" || scheme == "https"
    requires Lacks(host, ':') && Lacks(host, '/') && Lacks(port, '/') && path != [] && path[0] == '/'
    requires |scheme + "://" + host + ":" + port + path| < Npos
    ensures Init(items).Ok? && Init(items).value.Some?
    ensures var c := Init(items).value.value;
      c.sender.secure == (scheme == "https") && c.sender.hostAndPort == host + ":" + port &&
      c.omf.path == path && c.omf.typeId == ValueOf(items, TypeIdItem).value
  {
    assert Lacks(scheme, ':');
    SplitUrlOfParts(scheme, host, port, path);
  }

  /** The connector info handle plugin_init allocates. */
  class ConnectorInfo {
    var sender: Sender
    var omf: OmfSettings
    /** Set once plugin_shutdown has deleted the sender, the OMF object and the handle. */
    var released: bool

    constructor (c: Connector)
      ensures sender == c.sender && omf == c.omf && !released
    {
      sender := c.sender;
      omf := c.omf;
      released := false;
    }
  }

  /** plugin_init: a fresh handle exactly when Init describes one. */
  method PluginInit(config: Category) returns (handle: ConnectorInfo?, err: Option<InitError>)
    ensures var r := Init(config.items);
      (err.Some? <==> r.Err?) && (err.Some? ==> err.value == r.error) &&
      (handle == null <==> !(r.Ok? && r.value.Some?)) &&
      (handle != null ==> fresh(handle) && handle.sender == r.value.value.sender &&
                          handle.omf == r.value.value.omf && !handle.released)
  {
    var r := Init(config.items);
    if r.Err? {
      return null, Some(r.error);
    }
    if r.value.None? {
      return null, None;
    }
    handle := new ConnectorInfo(r.value.value);
    err := None;
  }

  /**
   * plugin_shutdown deletes the sender, the OMF object and the handle; a
   * second call on the same handle would delete them again, so callers
   * must make exactly one.
   */
  method PluginShutdown(handle: ConnectorInfo)
    requires !handle.released
    modifies handle
    ensures handle.released && handle.sender == old(handle.sender) && handle.omf == old(handle.omf)
  {
    handle.released := true;
  }

  // ---------------------------------------------------------------------
  // plugin_extra_config

  /** The extra category the plugin asks its loader for: OMF_TYPES with the item type-id. */
  const AdditionalConfigCategories: Json := JObject([("OMF_TYPES", JObject([("type-id", TypeIdMember)]))])

  const TypeIdMember: Json :=
    JObject([("description", JString("Identify sensor and measurement types")),
             ("type", JString("integer")),
             ("default", JString("0001"))])

  /** The item type-id builds into: a string item with default "0001" and no value. */
  const TypeIdBuilt: CategoryItem :=
    CategoryItem("type-id", "Identify sensor and measurement types", "integer", "", "", "", "0001", StringItem)

  /** What the member lookups of the item constructor find in TypeIdMember. */
  lemma TypeIdMemberLookups()
    ensures var m := TypeIdMember.members;
      Get(m, "type") == Some(JString("integer")) &&
      Get(m, "description") == Some(JString("Identify sensor and measurement types")) &&
      Get(m, "order") == None && Get(m, "readonly") == None && Get(m, "value") == None &&
      Get(m, "default") == Some(JString("0001"))
  {
  }

  lemma TypeIdMemberBuilds(parse: Parser)
    ensures MakeItem("type-id", TypeIdMember, parse) == Ok(TypeIdBuilt)
  {
    var m := TypeIdMember.members;
    TypeIdMemberLookups();
    assert ReadField(m, "value", "integer", parse) == Ok(None);
    assert "integer" != "JSON" && "integer" != "boolean";
    ReadFieldKinds(m, "default", "integer", parse);
    MakeItemOfReads("type-id", TypeIdMember, parse, "integer", "Identify sensor and measurement types", "", "",
                    None, Some(("0001", StringItem)));
  }

  /** plugin_extra_config: the same document on every call. */
  function PluginExtraConfig(): (r: Json)
    ensures r.JObject? && Keys(r.members) == ["OMF_TYPES"]
  {
    AdditionalConfigCategories
  }

  /**
   * Built as a category, OMF_TYPES holds one string item "type-id"
   * declared integer, with default "0001" and no value.
   */
  lemma ExtraConfigTypeId(parse: Parser)
    ensures var types := Get(PluginExtraConfig().members, "OMF_TYPES");
      types.Some? && types.value.JObject? &&
      BuildItems(types.value.members, MakerFor(parse))
        == Ok([TypeIdBuilt])
  {
    assert Get(PluginExtraConfig().members, "OMF_TYPES") == Some(JObject([("type-id", TypeIdMember)]));
    TypeIdMemberBuilds(parse);
    var ms := [("type-id", TypeIdMember)];
    assert MakerFor(parse)(ms[0].0, ms[0].1) == Ok(TypeIdBuilt);
    var r := BuildItems(ms, MakerFor(parse));
    assert r.Ok? && |r.value| == 1 && r.value[0] == TypeIdBuilt;
    assert r.value == [TypeIdBuilt];
  }

}
