/**
 * Plugin discovery (python/foglamp/common/plugin_discovery.py): the Python
 * plugin folders of a direction, the configuration each plugin module
 * reports, the C plugins found through the get_plugin_info utility, and
 * the order in which the lists are joined. Listing a directory and
 * importing a module are oracles.
 */
module PluginDiscovery {
  import opened Common
  import opened Json
  import opened ApiUtils

  /** The dict both fetchers build for a plugin: name, type, description and version. */
  datatype PluginConfig = PluginConfig(name: Json, pluginType: Json, description: Json, version: Json)

  /** The failure the as-written folder listing leads to. */
  datatype PyError = TypeError

  /** v[k0][k1]...: None where Python raises (a missing key, or a value that is not a dict). */
  function Path(v: Json, keys: seq<string>): (r: Option<Json>)
    ensures keys == [] ==> r == Some(v)
    ensures keys != [] && !v.JObject? ==> r.None?
    decreases |keys|
  {
    if keys == [] then Some(v)
    else if !v.JObject? then None
    else
      var child := Get(v.members, keys[0]);
      if child.None? then None else Path(child.value, keys[1..])
  }

  /** bool() of a parsed JSON value: null, false, 0, 0.0, "", [] and {} are false. */
  predicate Truthy(v: Json)
  {
    match v
    case JNull => false
    case JBool(b) => b
    case JInt(i) => i != 0
    case JDouble(literal) => exists k :: 0 <= k < |literal| && '1' <= literal[k] <= '9' && !Exponent(literal, k)
    case JString(s) => s != []
    case JArray(elems) => elems != []
    case JObject(members) => members != []
  }

  /** The digit at k of a floating-point literal belongs to its exponent. */
  predicate Exponent(literal: string, k: nat)
    requires k < |literal|
  {
    exists j :: 0 <= j < k && (literal[j] == 'e' || literal[j] == 'E')
  }

  // ---------------------------------------------------------------------
  // Python plugins

  /** An entry os.listdir returned: its name, and whether os.path.isdir holds for it. */
  type Listing = seq<(string, bool)>

  /** A plugin folder: a directory whose name does not start with "__" and is neither "empty" nor "common". */
  predicate IsPluginFolder(entry: (string, bool))
  {
    entry.1 && !StartsWith(entry.0, "__") && entry.0 != "empty" && entry.0 != "common"
  }

  /** The plugin folders of a listing, in listing order. */
  function FolderNames(listing: Listing): (r: seq<string>)
    ensures forall d :: d in r <==> exists e :: e in listing && IsPluginFolder(e) && d == e.0
  {
    FlatMap(listing, (e: (string, bool)) => if IsPluginFolder(e) then [e.0] else [])
  }

  /** The folder filter keeps listing order: a split listing gives split folders. */
  lemma FolderNamesAppend(a: Listing, b: Listing)
    ensures FolderNames(a + b) == FolderNames(a) + FolderNames(b)
  {
    FlatMapAppend(a, b, (e: (string, bool)) => if IsPluginFolder(e) then [e.0] else []);
  }

  /** The directory of a direction's Python plugins. */
  function PluginsDir(root: string, pluginType: string): string
  {
    root + "/python/foglamp/plugins/" + pluginType
  }

  /**
   * get_plugin_folders as written: the plugin folders of the listing, and
   * None (not an empty list) when os.listdir raised FileNotFoundError,
   * because the else branch that returns the list is skipped then.
   */
  function GetPluginFolders(listing: Option<Listing>): (r: Option<seq<string>>)
    ensures r.None? <==> listing.None?
    ensures listing.Some? ==> r.value == FolderNames(listing.value)
  {
    if listing.None? then None else Some(FolderNames(listing.value))
  }

  /** get_plugin_folders as intended: an empty list for a missing directory. */
  function GetPluginFoldersIntended(listing: Option<Listing>): (r: seq<string>)
    ensures listing.None? ==> r == []
    ensures listing.Some? ==> Some(r) == GetPluginFolders(listing)
  {
    if listing.None? then [] else FolderNames(listing.value)
  }

  /** What importing a module and calling its plugin_info() gives; None for ImportError or any other exception. */
  type Importer = string -> Option<Json>

  /** The module get_plugin_config imports: <package>.<dir>.<dir>, the south package only for "south". */
  function ModuleName(pluginDir: string, pluginType: string): (r: string)
    ensures pluginType == "south" ==> r == "foglamp.plugins.south." + pluginDir + "." + pluginDir
    ensures pluginType != "south" ==> r == "foglamp.plugins.north." + pluginDir + "." + pluginDir
  {
    var path := if pluginType == "south" then "foglamp.plugins.south" else "foglamp.plugins.north";
    path + "." + pluginDir + "." + pluginDir
  }

  /**
   * get_plugin_config: the plugin's name from config.plugin.default, its
   * type, description and version from plugin_info(); None when the import
   * or any lookup fails.
   */
  function GetPluginConfig(pluginDir: string, pluginType: string, importer: Importer): (r: Option<PluginConfig>)
    ensures importer(ModuleName(pluginDir, pluginType)).None? ==> r.None?
    ensures r.Some? <==>
      var info := importer(ModuleName(pluginDir, pluginType));
      info.Some? && Path(info.value, ["config", "plugin", "default"]).Some? && Path(info.value, ["type"]).Some? &&
      Path(info.value, ["config", "plugin", "description"]).Some? && Path(info.value, ["version"]).Some?
    ensures r.Some? ==>
      var info := importer(ModuleName(pluginDir, pluginType)).value;
      r.value.name == Path(info, ["config", "plugin", "default"]).value && r.value.pluginType == Path(info, ["type"]).value &&
      r.value.description == Path(info, ["config", "plugin", "description"]).value && r.value.version == Path(info, ["version"]).value
  {
    var info := importer(ModuleName(pluginDir, pluginType));
    if info.None? then None
    else
      var name := Path(info.value, ["config", "plugin", "default"]);
      var kind := Path(info.value, ["type"]);
      var description := Path(info.value, ["config", "plugin", "description"]);
      var version := Path(info.value, ["version"]);
      if name.None? || kind.None? || description.None? || version.None? then None
      else Some(PluginConfig(name.value, kind.value, description.value, version.value))
  }

  /** The configuration one folder contributes: its configuration, or nothing for None. */
  function ConfigOf(d: string, pluginType: string, importer: Importer): seq<PluginConfig>
  {
    var config := GetPluginConfig(d, pluginType, importer);
    if config.Some? then [config.value] else []
  }

  /**
   * The configurations of the folders that report one, one per folder and
   * in folder order: one folder gives its ConfigOf, and the result of a
   * split folder list is the results of its parts, in order.
   */
  function FetchConfigs(folders: seq<string>, pluginType: string, importer: Importer): (r: seq<PluginConfig>)
    ensures forall c :: c in r <==> exists d :: d in folders && GetPluginConfig(d, pluginType, importer) == Some(c)
    ensures |folders| == 1 ==> r == ConfigOf(folders[0], pluginType, importer)
    ensures forall i :: 0 < i < |folders| ==>
      r == FetchConfigs(folders[..i], pluginType, importer) + FetchConfigs(folders[i..], pluginType, importer)
    decreases |folders|
  {
    var one := (d: string) => ConfigOf(d, pluginType, importer);
    FlatMapSplit(folders, one);
    FlatMap(folders, one)
  }

  /** At most one configuration per folder. */
  lemma {:induction false} FetchConfigsLength(folders: seq<string>, pluginType: string, importer: Importer)
    ensures |FetchConfigs(folders, pluginType, importer)| <= |folders|
    decreases |folders|
  {
    if |folders| > 1 {
      FetchConfigsLength(folders[..1], pluginType, importer);
      FetchConfigsLength(folders[1..], pluginType, importer);
    } else if |folders| == 0 {
      assert FetchConfigs(folders, pluginType, importer) == [];
    }
  }

  /**
   * fetch_plugins_installed as written: iterating over the None a missing
   * directory gives raises TypeError.
   */
  function FetchPluginsInstalledAsWritten(listing: Option<Listing>, pluginType: string, importer: Importer): (r: Result<seq<PluginConfig>, PyError>)
    ensures listing.None? ==> r == Err(TypeError)
    ensures listing.Some? ==> r == Ok(FetchPluginsInstalled(listing, pluginType, importer))
  {
    var folders := GetPluginFolders(listing);
    if folders.None? then Err(TypeError) else Ok(FetchConfigs(folders.value, pluginType, importer))
  }

  /**
   * fetch_plugins_installed over the intended folder list: the non-None
   * configurations of the plugin folders, in listing order and one per
   * folder, and none for a missing directory. A listing of one entry gives
   * that folder's configuration when the entry is a plugin folder, and the
   * result for a split listing is the results of its parts, in order.
   */
  function FetchPluginsInstalled(listing: Option<Listing>, pluginType: string, importer: Importer): (r: seq<PluginConfig>)
    ensures listing.None? ==> r == []
    ensures forall c :: c in r <==>
      exists d :: d in GetPluginFoldersIntended(listing) && GetPluginConfig(d, pluginType, importer) == Some(c)
    ensures listing.Some? && |listing.value| == 1 ==>
      r == (if IsPluginFolder(listing.value[0]) then ConfigOf(listing.value[0].0, pluginType, importer) else [])
    ensures listing.Some? ==> forall i :: 0 < i < |listing.value| ==>
      r == FetchPluginsInstalled(Some(listing.value[..i]), pluginType, importer) +
           FetchPluginsInstalled(Some(listing.value[i..]), pluginType, importer)
    decreases if listing.Some? then |listing.value| else 0
  {
    if listing.Some? then
      var l := listing.value;
      FlatMapSplit(l, (e: (string, bool)) => if IsPluginFolder(e) then [e.0] else []);
      assert forall i :: 0 < i < |l| ==> FolderNames(l) == FolderNames(l[..i]) + FolderNames(l[i..]);
      FetchConfigsAppendAll(l, pluginType, importer);
      FetchConfigs(FolderNames(l), pluginType, importer)
    else
      []
  }

  /** FetchConfigs over the folder names of a split listing is the concatenation. */
  lemma FetchConfigsAppendAll(l: Listing, pluginType: string, importer: Importer)
    ensures forall i :: 0 < i < |l| ==>
      FetchConfigs(FolderNames(l), pluginType, importer) ==
      FetchConfigs(FolderNames(l[..i]), pluginType, importer) + FetchConfigs(FolderNames(l[i..]), pluginType, importer)
  {
    forall i | 0 < i < |l|
      ensures FetchConfigs(FolderNames(l), pluginType, importer) ==
              FetchConfigs(FolderNames(l[..i]), pluginType, importer) + FetchConfigs(FolderNames(l[i..]), pluginType, importer)
    {
      assert l == l[..i] + l[i..];
      FolderNamesAppend(l[..i], l[i..]);
      FetchConfigsAppend(FolderNames(l[..i]), FolderNames(l[i..]), pluginType, importer);
    }
  }

  /** FetchConfigs of two folder lists one after the other. */
  lemma FetchConfigsAppend(a: seq<string>, b: seq<string>, pluginType: string, importer: Importer)
    ensures FetchConfigs(a + b, pluginType, importer) == FetchConfigs(a, pluginType, importer) + FetchConfigs(b, pluginType, importer)
  {
    if a != [] && b != [] {
      assert (a + b)[..|a|] == a && (a + b)[|a|..] == b;
    } else if a == [] {
      assert a + b == b;
    } else {
      assert a + b == a;
    }
  }

  // ---------------------------------------------------------------------
  // C plugins

  /**
   * The entry fetch_c_plugins_installed makes for a library: none when the
   * plugin information is falsy, none when a lookup raises (the exception is
   * logged), and otherwise the library name, the requested type, and the
   * description and version of the information.
   */
  function CPluginConfig(lib: string, pluginType: string, jdoc: Json): (r: Option<PluginConfig>)
    ensures !Truthy(jdoc) ==> r.None?
    ensures r.Some? <==>
      Truthy(jdoc) && Path(jdoc, ["config", "plugin", "description"]).Some? && Path(jdoc, ["version"]).Some?
    ensures r.Some? ==>
      r.value == PluginConfig(JString(lib), JString(pluginType),
                              Path(jdoc, ["config", "plugin", "description"]).value, Path(jdoc, ["version"]).value)
  {
    if !Truthy(jdoc) then None
    else
      var description := Path(jdoc, ["config", "plugin", "description"]);
      var version := Path(jdoc, ["version"]);
      if description.None? || version.None? then None
      else Some(PluginConfig(JString(lib), JString(pluginType), description.value, version.value))
  }

  /**
   * fetch_c_plugins_installed over the libraries found and the information
   * each one reports: one entry at most per library, in library order; a
   * single library gives its CPluginConfig, and the result for a split
   * library list is the results of its parts, in order.
   */
  function FetchCPluginsInstalled(libs: seq<string>, pluginType: string, infoOf: string -> Json): (r: seq<PluginConfig>)
    ensures forall c :: c in r <==> exists l :: l in libs && CPluginConfig(l, pluginType, infoOf(l)) == Some(c)
    ensures forall c :: c in r ==> c.pluginType == JString(pluginType) && exists l :: l in libs && c.name == JString(l)
    ensures |libs| == 1 ==>
      r == (if CPluginConfig(libs[0], pluginType, infoOf(libs[0])).Some?
            then [CPluginConfig(libs[0], pluginType, infoOf(libs[0])).value] else [])
    ensures forall i :: 0 < i < |libs| ==>
      r == FetchCPluginsInstalled(libs[..i], pluginType, infoOf) + FetchCPluginsInstalled(libs[i..], pluginType, infoOf)
    decreases |libs|
  {
    var one := (l: string) =>
      var config := CPluginConfig(l, pluginType, infoOf(l));
      if config.Some? then [config.value] else [];
    FlatMapSplit(libs, one);
    FlatMap(libs, one)
  }

  // ---------------------------------------------------------------------
  // All plugins

  /** The installation discovery looks at. */
  datatype Installation = Installation(
    fs: FileSystem,
    listdir: string -> Option<Listing>,   // os.listdir with isdir; None for FileNotFoundError
    importer: Importer,
    run: Runner,
    parse: Parser)

  /**
   * The Python plugins of a direction: the configuration of each plugin
   * folder under its directory that reports one, none when the directory
   * is missing.
   */
  function PythonPlugins(inst: Installation, pluginType: string): (r: seq<PluginConfig>)
    ensures inst.listdir(PluginsDir(inst.fs.root, pluginType)).None? ==> r == []
    ensures forall c :: c in r <==>
      exists d :: d in GetPluginFoldersIntended(inst.listdir(PluginsDir(inst.fs.root, pluginType))) &&
                  GetPluginConfig(d, pluginType, inst.importer) == Some(c)
  {
    FetchPluginsInstalled(inst.listdir(PluginsDir(inst.fs.root, pluginType)), pluginType, inst.importer)
  }

  /**
   * The C plugins of a direction: the entry of each library found for it
   * whose reported information is truthy and complete.
   */
  function CPlugins(inst: Installation, pluginType: string): (r: seq<PluginConfig>)
    ensures forall c :: c in r <==>
      exists l :: l in FindCPluginLibs(inst.fs, pluginType) &&
                  CPluginConfig(l, pluginType, GetPluginInfo(inst.fs, inst.run, inst.parse, l)) == Some(c)
  {
    FetchCPluginsInstalled(FindCPluginLibs(inst.fs, pluginType), pluginType,
                           (l: string) => GetPluginInfo(inst.fs, inst.run, inst.parse, l))
  }

  /**
   * get_plugins_installed: without a type, the Python north plugins, the C
   * north plugins, the Python south plugins and the C south plugins, in that
   * order; with a type, its Python plugins and then its C plugins.
   */
  function GetPluginsInstalled(inst: Installation, pluginType: Option<string>): (r: seq<PluginConfig>)
    ensures pluginType.Some? ==>
      var py := PythonPlugins(inst, pluginType.value);
      |r| == |py| + |CPlugins(inst, pluginType.value)| && r[..|py|] == py && r[|py|..] == CPlugins(inst, pluginType.value)
    ensures pluginType.None? ==>
      r == GetPluginsInstalled(inst, Some("north")) + GetPluginsInstalled(inst, Some("south"))
    decreases if pluginType.None? then 1 else 0
  {
    if pluginType.None? then
      var r := PythonPlugins(inst, "north") + CPlugins(inst, "north") + PythonPlugins(inst, "south") + CPlugins(inst, "south");
      Regroup(PythonPlugins(inst, "north"), CPlugins(inst, "north"), PythonPlugins(inst, "south"), CPlugins(inst, "south"));
      r
    else
      PythonPlugins(inst, pluginType.value) + CPlugins(inst, pluginType.value)
  }

  /**
   * A C plugin listed for a type carries that type and the name of one of
   * the libraries found for it, and every such library whose information
   * is truthy and complete is listed.
   */
  lemma CPluginsOfType(inst: Installation, pluginType: string)
    ensures forall c :: c in CPlugins(inst, pluginType) ==>
      c.pluginType == JString(pluginType) && exists l :: l in FindCPluginLibs(inst.fs, pluginType) && c.name == JString(l)
    ensures forall l :: (l in FindCPluginLibs(inst.fs, pluginType) &&
                         CPluginConfig(l, pluginType, GetPluginInfo(inst.fs, inst.run, inst.parse, l)).Some?) ==>
        CPluginConfig(l, pluginType, GetPluginInfo(inst.fs, inst.run, inst.parse, l)).value in CPlugins(inst, pluginType)
  {
    var infoOf := (l: string) => GetPluginInfo(inst.fs, inst.run, inst.parse, l);
    assert CPlugins(inst, pluginType) == FetchCPluginsInstalled(FindCPluginLibs(inst.fs, pluginType), pluginType, infoOf);
  }

  /** A typed list starts with that type's Python plugins, and without a type the north ones come first. */
  lemma AllPluginsNorthThenSouth(inst: Installation, t: string)
    ensures GetPluginsInstalled(inst, Some(t))[..|PythonPlugins(inst, t)|] == PythonPlugins(inst, t)
    ensures GetPluginsInstalled(inst, None)[..|PythonPlugins(inst, "north")|] == PythonPlugins(inst, "north")
  {
    var north := GetPluginsInstalled(inst, Some("north"));
    assert GetPluginsInstalled(inst, None)[..|north|] == north;
    assert north[..|PythonPlugins(inst, "north")|] == PythonPlugins(inst, "north");
  }

  lemma Regroup<T>(a: seq<T>, b: seq<T>, c: seq<T>, d: seq<T>)
    ensures a + b + c + d == (a + b) + (c + d)
  {
  }

  /** A missing plugin directory: the code as written raises, the intended listing is empty. */
  lemma MissingDirectory(inst: Installation, pluginType: string)
    requires inst.listdir(PluginsDir(inst.fs.root, pluginType)).None?
    ensures FetchPluginsInstalledAsWritten(inst.listdir(PluginsDir(inst.fs.root, pluginType)), pluginType, inst.importer) == Err(TypeError)
    ensures PythonPlugins(inst, pluginType) == []
    ensures GetPluginsInstalled(inst, Some(pluginType)) == CPlugins(inst, pluginType)
  {
    assert PythonPlugins(inst, pluginType) == [];
  }
}
