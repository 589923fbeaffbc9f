/**
 * The values C plugins and the services exchange: readings (the shape of
 * C/common/include/reading.h), sets of readings, and the information
 * block a plugin describes itself with.
 */
module PluginApi {
  import opened Json

  /** One reading: an id, an asset, its datapoints and its user timestamp. */
  datatype Reading = Reading(id: nat, asset: string, datapoints: Members, userTs: string)

  /** A block of readings fetched together and the id of its last reading. */
  datatype ReadingSet = ReadingSet(readings: seq<Reading>, lastId: nat)

  /** PLUGIN_INFORMATION: name, version, flags, type, interface version and default configuration text. */
  datatype PluginInformation = PluginInformation(
    name: string, version: string, options: nat, pluginType: string, interfaceVersion: string, config: string)

  /** A plugin's opaque handle: 0 stands for NULL. */
  type Handle = nat
}
