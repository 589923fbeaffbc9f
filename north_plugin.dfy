/**
 * NorthPlugin (C/tasks/north/sending_process/north_plugin.cpp): the
 * entry points resolved from a loaded north plugin and the instance its
 * plugin_init returned. The plugin's own code is foreign: each entry
 * point is a function given with the loaded library.
 */
module NorthPluginFacade {
  import opened Common
  import opened ConfigCategory
  import opened PluginApi

  /** What resolveSymbol finds in a loaded library, None for a missing symbol. */
  datatype Library = Library(
    pluginInit: Option<seq<CategoryItem> -> Handle>,
    pluginShutdown: Option<()>,
    pluginSend: Option<(Handle, seq<Reading>) -> nat>,
    pluginInfo: Option<PluginInformation>,
    pluginExtraConfig: Option<string>)

  class NorthPlugin {
    const pluginInit: Option<seq<CategoryItem> -> Handle>
    const pluginShutdown: Option<()>
    const pluginSend: Option<(Handle, seq<Reading>) -> nat>
    const pluginInfo: Option<PluginInformation>
    const pluginExtraConfig: Option<string>
    /** m_instance; None until init has run (the constructor leaves it unset). */
    var instance: Option<Handle>
    /** The instances plugin_shutdown has been called with, in order. */
    var shutdowns: seq<Handle>

    /** Resolves the five entry points of the loaded library. */
    constructor (lib: Library)
      ensures pluginInit == lib.pluginInit && pluginShutdown == lib.pluginShutdown
      ensures pluginSend == lib.pluginSend && pluginInfo == lib.pluginInfo
      ensures pluginExtraConfig == lib.pluginExtraConfig
      ensures instance == None && shutdowns == []
    {
      pluginInit := lib.pluginInit;
      pluginShutdown := lib.pluginShutdown;
      pluginSend := lib.pluginSend;
      pluginInfo := lib.pluginInfo;
      pluginExtraConfig := lib.pluginExtraConfig;
      instance := None;
      shutdowns := [];
    }

    /** init: stores what plugin_init returns, and answers NULL exactly when that is NULL. */
    method Init(config: seq<CategoryItem>) returns (handle: Option<Handle>)
      requires pluginInit.Some?
      modifies this
      ensures instance == Some(pluginInit.value(config))
      ensures handle.None? <==> pluginInit.value(config) == 0
      ensures handle.Some? ==> handle == instance
      ensures shutdowns == old(shutdowns)
    {
      var h := pluginInit.value(config);
      instance := Some(h);
      if h != 0 {
        handle := Some(h);
      } else {
        handle := None;
      }
    }

    /** send: the stored instance and the readings go to plugin_send, whose count comes back unchanged. */
    method Send(readings: seq<Reading>) returns (count: nat)
      requires pluginSend.Some? && instance.Some?
      ensures count == pluginSend.value(instance.value, readings)
    {
      count := pluginSend.value(instance.value, readings);
    }

    method Info() returns (info: PluginInformation)
      requires pluginInfo.Some?
      ensures info == pluginInfo.value
    {
      info := pluginInfo.value;
    }

    /** extra_config: the plugin's document, or the shared empty string when the entry point is missing. */
    method ExtraConfig() returns (doc: string)
      ensures pluginExtraConfig.Some? ==> doc == pluginExtraConfig.value
      ensures pluginExtraConfig.None? ==> doc == ""
    {
      if pluginExtraConfig.Some? {
        doc := pluginExtraConfig.value;
      } else {
        doc := "";
      }
    }

    /** shutdown: plugin_shutdown is called with the stored instance. */
    method Shutdown()
      requires pluginShutdown.Some? && instance.Some?
      modifies this
      ensures instance == old(instance) && shutdowns == old(shutdowns) + [instance.value]
    {
      shutdowns := shutdowns + [instance.value];
    }
  }

  /** The lifecycle: the instance init stores is the one send and shutdown hand to the plugin. */
  method Lifecycle(lib: Library, config: seq<CategoryItem>, readings: seq<Reading>)
    returns (handle: Option<Handle>, count: nat, plugin: NorthPlugin)
    requires lib.pluginInit.Some? && lib.pluginSend.Some? && lib.pluginShutdown.Some?
    ensures handle.None? <==> lib.pluginInit.value(config) == 0
    ensures count == lib.pluginSend.value(lib.pluginInit.value(config), readings)
    ensures plugin.shutdowns == [lib.pluginInit.value(config)]
  {
    plugin := new NorthPlugin(lib);
    handle := plugin.Init(config);
    count := plugin.Send(readings);
    plugin.Shutdown();
  }
}
