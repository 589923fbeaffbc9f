/**
 * The get_plugin_info utility (C/plugins/utils/get_plugin_info.cpp): a
 * straight decision from the arguments and what access, dlopen and dlsym
 * report to an exit status and the lines it writes.
 */
module GetPluginInfo {
  import opened Common
  import opened PluginApi

  /** What the file system and the dynamic loader answer for this run. */
  datatype Loader = Loader(
    accessible: bool,            // access(argv[1], F_OK|R_OK) == 0
    loads: bool,                 // dlopen succeeds
    hasSymbol: bool,             // dlsym finds argv[2]
    dlerror: string,
    info: PluginInformation,     // what plugin_info returns
    extraConfig: Option<string>) // what plugin_extra_config returns; None for NULL

  /** The diagnostics written on stderr. */
  datatype Diagnostic =
    | Usage(program: string)
    | CannotAccess(library: string)
    | NoSuchFunction(library: string, symbol: string, dlerror: string)
    | DlopenFailed(dlerror: string)

  datatype Run = Run(exitStatus: int, stdout: seq<string>, stderr: seq<Diagnostic>)

  /** The line printed for plugin_info: the information block's strings inserted as they are. */
  function InfoLine(info: PluginInformation): string
  {
    "{\"name\": \"" + info.name + "\", \"version\": \"" + info.version + "\", \"type\": \"" + info.pluginType +
    "\", \"interface\": \"" + info.interfaceVersion + "\", \"config\": " + info.config + "}"
  }

  /** The categories document printed for plugin_extra_config: "{}" for NULL or empty. */
  function Categories(doc: Option<string>): (r: string)
    ensures r != []
    ensures doc.Some? && doc.value != [] ==> r == doc.value
  {
    if doc.None? || doc.value == [] then "{}" else doc.value
  }

  function ExtraConfigLine(doc: Option<string>): string
  {
    "{ \"name\": \"Additional configuration\", \"description\": \"Additional configuration categories " +
    "to pass to plugin_init\", \"categories\" : " + Categories(doc) + "}"
  }

  function UnknownFormatLine(symbol: string): string
  {
    "Output data format doesn't exist for function '" + symbol + "'"
  }

  /**
   * main(argc, argv) with args == argv. With only a library argument,
   * argv[2] is the terminating NULL and is modelled as the empty symbol
   * name, which dlsym does not find.
   */
  function Execute(args: seq<string>, loader: Loader): (r: Run)
    ensures |args| < 2 ==> r.exitStatus == 1 && r.stdout == [] && |r.stderr| == 1 && r.stderr[0].Usage?
    ensures |args| >= 2 && !loader.accessible ==> r == Run(2, [], [CannotAccess(args[1])])
    ensures |args| >= 2 && loader.accessible && !loader.loads ==> r == Run(0, [], [DlopenFailed(loader.dlerror)])
    ensures |args| >= 2 && loader.accessible && loader.loads && !loader.hasSymbol ==> r.exitStatus == 3 && r.stdout == []
    ensures r.exitStatus == 0 && r.stderr == [] ==> |r.stdout| == 1
  {
    if |args| < 2 then Run(1, [], [Usage(if |args| == 0 then "" else args[0])])
    else if !loader.accessible then Run(2, [], [CannotAccess(args[1])])
    else if !loader.loads then Run(0, [], [DlopenFailed(loader.dlerror)])
    else
      var symbol := if |args| >= 3 then args[2] else "";
      if !loader.hasSymbol then Run(3, [], [NoSuchFunction(args[1], symbol, loader.dlerror)])
      else if symbol == "plugin_info" then Run(0, [InfoLine(loader.info)], [])
      else if symbol == "plugin_extra_config" then Run(0, [ExtraConfigLine(loader.extraConfig)], [])
      else Run(0, [UnknownFormatLine(symbol)], [])
  }

  /** The exit status is 0 exactly when the arguments suffice, the file is readable and the symbol (if the library loads) is found. */
  lemma ExitStatusZero(args: seq<string>, loader: Loader)
    ensures Execute(args, loader).exitStatus == 0 <==>
            |args| >= 2 && loader.accessible && (!loader.loads || loader.hasSymbol)
  {
  }

  /** A found symbol writes exactly one line on stdout, chosen by its name. */
  lemma FoundSymbolOutput(args: seq<string>, loader: Loader)
    requires |args| >= 3 && loader.accessible && loader.loads && loader.hasSymbol
    ensures Execute(args, loader).stderr == []
    ensures args[2] == "plugin_info" ==> Execute(args, loader).stdout == [InfoLine(loader.info)]
    ensures args[2] == "plugin_extra_config" ==> Execute(args, loader).stdout == [ExtraConfigLine(loader.extraConfig)]
    ensures args[2] != "plugin_info" && args[2] != "plugin_extra_config" ==>
              Execute(args, loader).stdout == [UnknownFormatLine(args[2])]
  {
  }

  /** A NULL or empty extra configuration prints the same line as the document "{}". */
  lemma EmptyExtraConfig(doc: Option<string>)
    requires doc.None? || doc.value == []
    ensures ExtraConfigLine(doc) == ExtraConfigLine(Some("{}"))
  {
  }
}
