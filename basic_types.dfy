/**
 * The rich records of the basic exports (`farmanager/src/basic.rs`): what the plugin returns
 * from `get_global_info` and `get_plugin_info`, and what it is given by `open`.
 */
module BasicTypes {
  import opened Wrappers
  import Ffi
  import opened WideStr

  datatype GlobalInfo = GlobalInfo(
    minFarVersion: Ffi.VersionInfo, version: Ffi.VersionInfo, guid: Ffi.Guid,
    title: WideString, description: WideString, author: WideString)

  datatype MenuItem = MenuItem(guid: Ffi.Guid, labelText: WideString)

  datatype PluginInfo = PluginInfo(
    flags: bv64, diskMenu: seq<MenuItem>, pluginMenu: seq<MenuItem>, pluginConfig: seq<MenuItem>,
    commandPrefix: Option<WideString>)

  datatype PluginStartupInfo = PluginStartupInfo(moduleName: WideString)

  datatype FarMenuItem = FarMenuItem(flags: bv64, text: WideString, accelKey: Ffi.FarKey)

  datatype OpenCommandLineInfo = OpenCommandLineInfo(commandLine: WideString)

  datatype OpenShortcutInfo = OpenShortcutInfo(hostFile: Option<WideString>, shortcutData: Option<WideString>, flags: bv64)

  datatype OpenDlgPluginData = OpenDlgPluginData(hDlg: Ffi.Handle)

  datatype AnalyseInfo = AnalyseInfo(fileName: WideString, buffer: seq<bv8>, opMode: bv64)

  datatype OpenAnalyseInfo = OpenAnalyseInfo(info: AnalyseInfo, handle: Ffi.Handle)

  /** `OpenFrom`: why the host opens the plugin, with the data it passes for that reason. */
  datatype OpenFrom =
    | LeftDiskMenu
    | PluginsMenu
    | FindList
    | Shortcut(shortcut: OpenShortcutInfo)
    | CommandLine(commandLine: OpenCommandLineInfo)
    | Editor
    | Viewer
    | FilePanel
    | Dialog(dialog: OpenDlgPluginData)
    | Analyse(analyse: OpenAnalyseInfo)
    | RightDiskMenu
    | FromMacro
    | LuaMacro

  /** `MessageItems`: separate lines, or one text the host splits itself. */
  datatype MessageItems = Lines(lines: seq<WideString>) | AllInOne(text: WideString)
}
