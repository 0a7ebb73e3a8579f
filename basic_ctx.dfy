/**
 * The basic-exports context (`farmanager/src/basic/ctx.rs`): the owned copies of the global
 * and plugin information whose strings and arrays the host keeps pointers to.
 */
module BasicCtx {
  import opened Wrappers
  import Ffi
  import opened WideStr
  import BT = BasicTypes

  /** `GlobalInfoContext`: the plugin's guid and owned copies of its three texts. */
  datatype GlobalInfoContext = GlobalInfoContext(guid: Ffi.Guid, title: WideString, description: WideString, author: WideString)

  /** `PluginMenuItem`: the flat menu struct, the guid array and the label array it points at. */
  datatype PluginMenuItem = PluginMenuItem(inner: Ffi.PluginMenuItem, guids: seq<Ffi.Guid>, strings: WideStringArray)

  /**
   * `m` is the menu struct built from `items`: one guid and one owned label per item, in
   * order, and a flat struct pointing at both arrays with their common length.
   */
  predicate Represents(m: PluginMenuItem, items: seq<BT.MenuItem>) {
    && m.strings.Valid() && |m.guids| == |items| && m.strings.len == |items|
    && (forall i :: 0 <= i < |items| ==> m.guids[i] == items[i].guid && m.strings.buf[i] == Clone(items[i].labelText))
    && m.inner == Ffi.PluginMenuItem(Some(m.guids), Some(m.strings.ptrs), |items|)
  }

  /** `PluginMenuItem::from`: pushes each item's guid and a copy of its label, then points at both. */
  method PluginMenuItemFrom(items: seq<BT.MenuItem>) returns (m: PluginMenuItem)
    ensures Represents(m, items)
    ensures m.inner.count == |items| && m.inner.guids.Some? && m.inner.strings.Some?
    ensures |m.inner.guids.value| == |items| && |m.inner.strings.value| == |items|
    ensures forall i :: 0 <= i < |items| ==>
      m.inner.guids.value[i] == items[i].guid
      && m.inner.strings.value[i].Some? && FromPtrStr(m.inner.strings.value[i]) == items[i].labelText
  {
    var guids: seq<Ffi.Guid> := [];
    var strings: seq<WideString> := [];
    var k := 0;
    while k < |items|
      invariant 0 <= k <= |items|
      invariant |guids| == k && |strings| == k
      invariant forall i :: 0 <= i < k ==> guids[i] == items[i].guid && strings[i] == Clone(items[i].labelText)
    {
      guids := guids + [items[k].guid];
      // `WideString::from(item.label.as_str())`: a copy of the label with the same content.
      strings := strings + [Clone(items[k].labelText)];
      k := k + 1;
    }
    var stringsArray := ArrayFromWide(strings);
    m := PluginMenuItem(Ffi.PluginMenuItem(Some(guids), Some(ArrayAsPtr(stringsArray)), ArrayLen(stringsArray)), guids, stringsArray);
    forall i | 0 <= i < |items| ensures FromPtrStr(m.inner.strings.value[i]) == items[i].labelText {
      PointerRoundTrip(items[i].labelText);
    }
  }

  /** `as_raw` */
  function AsRaw(m: PluginMenuItem): Ffi.PluginMenuItem {
    m.inner
  }

  /** `PluginInfoContext`: the flags, the three menus and an owned command prefix. */
  datatype PluginInfoContext = PluginInfoContext(
    flags: bv64, diskMenu: PluginMenuItem, pluginMenu: PluginMenuItem, pluginConfig: PluginMenuItem,
    commandPrefix: Option<WideString>)

  /** `c` is the context built from `src`. */
  predicate RepresentsInfo(c: PluginInfoContext, src: BT.PluginInfo) {
    && c.flags == src.flags
    && Represents(c.diskMenu, src.diskMenu)
    && Represents(c.pluginMenu, src.pluginMenu)
    && Represents(c.pluginConfig, src.pluginConfig)
    && (c.commandPrefix.Some? <==> src.commandPrefix.Some?)
    && (src.commandPrefix.Some? ==> c.commandPrefix.value == Clone(src.commandPrefix.value))
  }

  /** `From<PluginInfo> for PluginInfoContext` */
  method PluginInfoContextFrom(src: BT.PluginInfo) returns (c: PluginInfoContext)
    ensures RepresentsInfo(c, src)
  {
    var diskMenu := PluginMenuItemFrom(src.diskMenu);
    var pluginMenu := PluginMenuItemFrom(src.pluginMenu);
    var pluginConfig := PluginMenuItemFrom(src.pluginConfig);
    // `WideString::from(prefix.as_str())`: a copy with the same content.
    var commandPrefix := match src.commandPrefix case None => None case Some(prefix) => Some(Clone(prefix));
    c := PluginInfoContext(src.flags, diskMenu, pluginMenu, pluginConfig, commandPrefix);
  }

  const GLOBAL_INFO_NOT_INITIALIZED: string := "Global info struct is not initialized"

  /** `ctx::Context` of the basic exports. */
  class Context {
    var pluginInfo: Option<PluginInfoContext>
    var globalInfo: Option<GlobalInfoContext>

    /** `Context::default`: neither plugin information nor global information. */
    constructor ()
      ensures pluginInfo.None? && globalInfo.None?
    {
      pluginInfo := None;
      globalInfo := None;
    }

    /** `plugin_guid`: the stored guid; a panic when no global information is stored. */
    function PluginGuid(): (r: Result<Ffi.Guid, Panic>)
      reads this
      ensures r.Ok? <==> globalInfo.Some?
      ensures r.Ok? ==> r.value == globalInfo.value.guid
      ensures r.Err? ==> r.error == Panic(GLOBAL_INFO_NOT_INITIALIZED)
    {
      match globalInfo
      case Some(info) => Ok(info.guid)
      case None => Err(Panic(GLOBAL_INFO_NOT_INITIALIZED))
    }

    /**
     * `GlobalInfo::enrich`: stores a fresh `GlobalInfoContext`, then fills the host struct
     * from `src` and points its texts at the stored copies.
     */
    method EnrichGlobalInfo(info: Ffi.GlobalInfo, src: BT.GlobalInfo) returns (out: Ffi.GlobalInfo)
      modifies this
      ensures globalInfo == Some(GlobalInfoContext(src.guid, Clone(src.title), Clone(src.description), Clone(src.author)))
      ensures pluginInfo == old(pluginInfo)
      ensures out == info.(
        structSize := Ffi.SizeOf(Ffi.GlobalInfoKind), minFarVersion := src.minFarVersion, version := src.version,
        guid := src.guid, title := AsPtr(globalInfo.value.title),
        description := AsPtr(globalInfo.value.description), author := AsPtr(globalInfo.value.author))
      ensures FromPtrStr(out.title) == src.title && FromPtrStr(out.description) == src.description
      ensures FromPtrStr(out.author) == src.author
    {
      // `WideString::from(x.as_str())` re-encodes the text `x` holds: a copy with the same content.
      globalInfo := Some(GlobalInfoContext(src.guid, Clone(src.title), Clone(src.description), Clone(src.author)));
      var infoRef := globalInfo.value;
      out := info;
      out := out.(structSize := Ffi.SizeOf(Ffi.GlobalInfoKind));
      out := out.(minFarVersion := src.minFarVersion);
      out := out.(version := src.version);
      out := out.(guid := infoRef.guid);
      out := out.(title := AsPtr(infoRef.title));
      out := out.(description := AsPtr(infoRef.description));
      out := out.(author := AsPtr(infoRef.author));
      PointerRoundTrip(src.title);
      PointerRoundTrip(src.description);
      PointerRoundTrip(src.author);
    }

    /**
     * `PluginInfo::enrich`: replaces the stored plugin information, then copies the flags and
     * the three flat menu structs into the host struct and points `command_prefix` at the
     * stored copy (null without one). `struct_size` is left as the host set it.
     */
    method EnrichPluginInfo(info: Ffi.PluginInfo, src: BT.PluginInfo) returns (out: Ffi.PluginInfo)
      modifies this
      ensures pluginInfo.Some? && RepresentsInfo(pluginInfo.value, src)
      ensures globalInfo == old(globalInfo)
      ensures out == info.(
        flags := src.flags, diskMenu := pluginInfo.value.diskMenu.inner,
        pluginMenu := pluginInfo.value.pluginMenu.inner, pluginConfig := pluginInfo.value.pluginConfig.inner,
        commandPrefix := AsPtrOrNull(pluginInfo.value.commandPrefix))
      ensures out.structSize == info.structSize
      ensures out.commandPrefix.None? <==> src.commandPrefix.None?
    {
      var c := PluginInfoContextFrom(src);
      pluginInfo := Some(c);
      var infoRef := pluginInfo.value;
      out := info;
      out := out.(flags := infoRef.flags);
      out := out.(diskMenu := AsRaw(infoRef.diskMenu));
      out := out.(pluginMenu := AsRaw(infoRef.pluginMenu));
      out := out.(pluginConfig := AsRaw(infoRef.pluginConfig));
      out := out.(commandPrefix := AsPtrOrNull(infoRef.commandPrefix));
    }
  }
}
