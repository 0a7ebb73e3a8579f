/**
 * The basic exports and host services (`farmanager/src/basic.rs`): the menu, message and
 * input-box calls into the host, the `OpenW` dispatch, and the exports that fill or empty the
 * runtime's slots.
 *
 * A call into the host is modelled by the arguments it is given (a `...Call` record) and by
 * the host's answer, which is a parameter. A GUID the bindings generate is a parameter too.
 */
module BasicExports {
  import opened Wrappers
  import opened Utf16
  import opened WideStr
  import Ffi
  import BT = BasicTypes
  import BasicCtx
  import Lib

  /** The message of `unimplemented!()`. */
  const NOT_IMPLEMENTED: string := "not implemented"

  /**
   * `plugin_guid()` through `context()`: the stored guid; a missing context or missing global
   * information panics.
   */
  function PluginGuidOf(ctx: BasicCtx.Context?): (r: Result<Ffi.Guid, Panic>)
    reads ctx
    ensures ctx == null ==> r == Err(Panic(Lib.PLUGIN_NOT_INITIALIZED))
    ensures ctx != null ==> r == ctx.PluginGuid()
    ensures r.Ok? <==> ctx != null && ctx.globalInfo.Some?
  {
    if ctx == null then Err(Panic(Lib.PLUGIN_NOT_INITIALIZED)) else ctx.PluginGuid()
  }

  /** `x.map_or(ptr::null(), |s| s.as_ptr())` after `map(WideString::from)` */
  function OptStrPtr(s: Option<string>): (p: Ffi.WPtr)
    ensures p.None? <==> s.None?
    ensures s.Some? ==> p == AsPtr(FromStr(s.value))
  {
    AsPtrOrNull(FromOptStr(s))
  }

  /** An `intptr_t` answer of -1 is `None`; any other is `Some(result as usize)`. */
  function OptionalIndex(result: Ffi.ISize): (r: Option<Ffi.U64>)
    ensures r.None? <==> result == -1
    ensures 0 <= result ==> r == Some(result)
  {
    if result == -1 then None else Some(Ffi.AsUsize(result))
  }

  // ---------------------------------------------------------------- menu

  /** The arguments `menu` passes to the host's `Menu` entry point. */
  datatype MenuCall = MenuCall(
    guid: Ffi.Guid, eventGuid: Ffi.Guid, x: int, y: int, maxHeight: int, flags: bv64,
    title: Ffi.WPtr, bottom: Ffi.WPtr, helpTopic: Ffi.WPtr,
    breakKeys: seq<Ffi.FarKey>, items: seq<Ffi.FarMenuItem>, itemsNumber: nat)

  /** The key `menu` ends the break-key list with. */
  const BREAK_KEYS_TERMINATOR: Ffi.FarKey := Ffi.FarKey(0, 0)

  /** The flat menu item of a rich one: its label addressed, no user data. */
  function RawMenuItem(item: BT.FarMenuItem): (r: Ffi.FarMenuItem)
    ensures r.flags == item.flags && r.accelKey == item.accelKey
    ensures r.text == AsPtr(item.text) && RawTextOf(r) == item.text
    ensures r.userData == 0 && r.reserved == [0, 0]
  {
    PointerRoundTrip(item.text);
    Ffi.FarMenuItem(item.flags, AsPtr(item.text), item.accelKey, 0, [0, 0])
  }

  /** What the host reads through a menu item's text pointer. */
  function RawTextOf(r: Ffi.FarMenuItem): WideString
    requires r.text.Some?
  {
    FromPtrStr(r.text)
  }

  /**
   * The call `menu` makes: the plugin's and the event's guids, -1 for a missing position, 0 for
   * a missing height, the flags as given, the optional texts addressed (a missing one is
   * null), the break keys (the given ones, or none) ended by the zero key, and one flat item
   * per item, in order, with their count.
   */
  predicate IsMenuCall(
    c: MenuCall, guid: Ffi.Guid, eventGuid: Ffi.Guid,
    x: Option<int>, y: Option<int>, maxHeight: Option<int>, flags: bv64,
    title: Option<string>, bottom: Option<string>, helpTopic: Option<string>,
    breakKeys: Option<seq<Ffi.FarKey>>, items: seq<BT.FarMenuItem>)
  {
    && c.guid == guid && c.eventGuid == eventGuid
    && c.x == (if x.Some? then x.value else -1)
    && c.y == (if y.Some? then y.value else -1)
    && c.maxHeight == (if maxHeight.Some? then maxHeight.value else 0)
    && c.flags == flags
    && c.title == OptStrPtr(title) && c.bottom == OptStrPtr(bottom)
    && c.helpTopic == OptStrPtr(helpTopic)
    && c.breakKeys == (if breakKeys.Some? then breakKeys.value else []) + [BREAK_KEYS_TERMINATOR]
    && |c.items| == |items| == c.itemsNumber
    && (forall i :: 0 <= i < |items| ==> c.items[i] == RawMenuItem(items[i]))
  }

  /**
   * `menu`: gets the plugin's guid, then, with the API table, builds the break keys and the
   * flat items and calls the host (`IsMenuCall`). `hostResult` and `hostBreakCode` are the
   * host's answers; -1 is `None`.
   */
  method Menu(
    rt: Lib.Runtime, eventGuid: Ffi.Guid,
    x: Option<int>, y: Option<int>, maxHeight: Option<int>, flags: bv64,
    title: Option<string>, bottom: Option<string>, helpTopic: Option<string>,
    breakKeys: Option<seq<Ffi.FarKey>>, items: seq<BT.FarMenuItem>,
    hostResult: Ffi.ISize, hostBreakCode: Ffi.ISize)
    returns (r: Result<(Option<Ffi.U64>, Option<Ffi.U64>), Panic>, call: Option<MenuCall>)
    ensures PluginGuidOf(rt.basicContext).Err? ==> r == Err(PluginGuidOf(rt.basicContext).error) && call.None?
    ensures PluginGuidOf(rt.basicContext).Ok? && rt.farApi.None? ==>
      r == Err(Panic(Lib.PLUGIN_NOT_INITIALIZED)) && call.None?
    ensures r.Ok? <==> call.Some?
    ensures call.Some? ==>
      && PluginGuidOf(rt.basicContext).Ok? && rt.farApi.Some?
      && IsMenuCall(call.value, PluginGuidOf(rt.basicContext).value, eventGuid, x, y, maxHeight, flags,
                    title, bottom, helpTopic, breakKeys, items)
    ensures r.Ok? ==> r.value == (OptionalIndex(hostResult), OptionalIndex(hostBreakCode))
  {
    var guid := PluginGuidOf(rt.basicContext);
    if guid.Err? {
      return Err(guid.error), None;
    }
    var api := rt.FarApi();
    if api.Err? {
      return Err(api.error), None;
    }
    var c := BuildMenuCall(guid.value, eventGuid, x, y, maxHeight, flags, title, bottom, helpTopic, breakKeys, items);
    call := Some(c);
    r := Ok((OptionalIndex(hostResult), OptionalIndex(hostBreakCode)));
  }

  /** The argument building of `menu`, once the guid and the API table are there. */
  method BuildMenuCall(
    guid: Ffi.Guid, eventGuid: Ffi.Guid,
    x: Option<int>, y: Option<int>, maxHeight: Option<int>, flags: bv64,
    title: Option<string>, bottom: Option<string>, helpTopic: Option<string>,
    breakKeys: Option<seq<Ffi.FarKey>>, items: seq<BT.FarMenuItem>)
    returns (call: MenuCall)
    ensures IsMenuCall(call, guid, eventGuid, x, y, maxHeight, flags, title, bottom, helpTopic, breakKeys, items)
  {
    var breakKeysRaw := if breakKeys.Some? then breakKeys.value else [];
    breakKeysRaw := breakKeysRaw + [BREAK_KEYS_TERMINATOR];
    var itemsRaw := MenuItemsRaw(items);
    call := MenuCall(
      guid, eventGuid,
      if x.Some? then x.value else -1,
      if y.Some? then y.value else -1,
      if maxHeight.Some? then maxHeight.value else 0,
      flags, OptStrPtr(title), OptStrPtr(bottom), OptStrPtr(helpTopic),
      breakKeysRaw, itemsRaw, |itemsRaw|);
  }

  /** `menu`'s item pass: each label kept alive in a list, and one flat item per item, in order. */
  method MenuItemsRaw(items: seq<BT.FarMenuItem>) returns (itemsRaw: seq<Ffi.FarMenuItem>)
    ensures |itemsRaw| == |items|
    ensures forall i :: 0 <= i < |items| ==> itemsRaw[i] == RawMenuItem(items[i])
  {
    var menuItemLabels: seq<WideString> := [];
    itemsRaw := [];
    var k := 0;
    while k < |items|
      invariant 0 <= k <= |items|
      invariant |menuItemLabels| == k && |itemsRaw| == k
      invariant forall i :: 0 <= i < k ==> menuItemLabels[i] == items[i].text
      invariant forall i :: 0 <= i < k ==> itemsRaw[i] == RawMenuItem(items[i])
    {
      menuItemLabels := menuItemLabels + [items[k].text];
      itemsRaw := itemsRaw + [Ffi.FarMenuItem(items[k].flags, AsPtr(menuItemLabels[k]), items[k].accelKey, 0, [0, 0])];
      k := k + 1;
    }
  }

  // ---------------------------------------------------------------- message

  /** What a message's items pointer addresses: an array of line pointers, or one text. */
  datatype MessageText = LinePtrs(lines: seq<Ffi.WPtr>) | SingleText(text: Ffi.WPtr)

  /** The arguments `message` passes to the host's `Message` entry point. */
  datatype MessageCall = MessageCall(
    guid: Ffi.Guid, eventGuid: Ffi.Guid, flags: bv64, helpTopic: Ffi.WPtr,
    items: MessageText, itemsNumber: nat, buttonsNumber: nat)

  /**
   * `message`: with the API table and the plugin's guid, calls the host with the lines
   * (without `FMSG_ALLINONE`, and their count) or with one text (with `FMSG_ALLINONE`, and a
   * count of 0). A host answer of -1 is `None`.
   */
  method Message(
    rt: Lib.Runtime, eventGuid: Ffi.Guid, flags: bv64, helpTopic: Option<WideString>,
    items: BT.MessageItems, buttonsNumber: nat, hostResult: Ffi.ISize)
    returns (r: Result<Option<Ffi.U64>, Panic>, call: Option<MessageCall>)
    ensures rt.farApi.None? ==> r == Err(Panic(Lib.PLUGIN_NOT_INITIALIZED)) && call.None?
    ensures rt.farApi.Some? && PluginGuidOf(rt.basicContext).Err? ==>
      r == Err(PluginGuidOf(rt.basicContext).error) && call.None?
    ensures r.Ok? <==> call.Some?
    ensures call.Some? ==>
      && rt.farApi.Some? && PluginGuidOf(rt.basicContext).Ok?
      && call.value.guid == PluginGuidOf(rt.basicContext).value && call.value.eventGuid == eventGuid
      && call.value.helpTopic == AsPtrOrNull(helpTopic) && call.value.buttonsNumber == buttonsNumber
      && call.value.flags & Ffi.FMSG_ALLINONE == (if items.AllInOne? then Ffi.FMSG_ALLINONE else 0)
      && call.value.flags & !Ffi.FMSG_ALLINONE == flags & !Ffi.FMSG_ALLINONE
    ensures call.Some? && items.Lines? ==>
      && call.value.itemsNumber == |items.lines|
      && call.value.items.LinePtrs? && |call.value.items.lines| == |items.lines|
      && (forall i :: 0 <= i < |items.lines| ==>
            call.value.items.lines[i].Some? && FromPtrStr(call.value.items.lines[i]) == items.lines[i])
    ensures call.Some? && items.AllInOne? ==>
      call.value.itemsNumber == 0 && call.value.items == SingleText(AsPtr(items.text))
    ensures r.Ok? ==> r.value == OptionalIndex(hostResult)
  {
    var api := rt.FarApi();
    if api.Err? {
      return Err(api.error), None;
    }
    var guid := PluginGuidOf(rt.basicContext);
    if guid.Err? {
      return Err(guid.error), None;
    }
    match items {
      case Lines(lines) =>
        var wlines := ArrayFromWide(lines);
        call := Some(MessageCall(
          guid.value, eventGuid, flags & !Ffi.FMSG_ALLINONE, AsPtrOrNull(helpTopic),
          LinePtrs(ArrayAsPtr(wlines)), ArrayLen(wlines), buttonsNumber));
      case AllInOne(line) =>
        call := Some(MessageCall(
          guid.value, eventGuid, flags | Ffi.FMSG_ALLINONE, AsPtrOrNull(helpTopic),
          SingleText(AsPtr(line)), 0, buttonsNumber));
    }
    r := Ok(OptionalIndex(hostResult));
  }

  // ---------------------------------------------------------------- input box

  /** The arguments `input_box` passes to the host's `InputBox` entry point. */
  datatype InputBoxCall = InputBoxCall(
    guid: Ffi.Guid, eventGuid: Ffi.Guid, title: Ffi.WPtr, subTitle: Ffi.WPtr, historyName: Ffi.WPtr,
    srcText: Ffi.WPtr, destText: seq<CodeUnit>, destSize: nat, helpTopic: Ffi.WPtr, flags: bv64)

  /**
   * `input_box`: gets the plugin's guid, gives the host a zeroed buffer of `inputLength` units
   * and, when the host answers nonzero, the text the host left in it up to the first 0.
   * `hostText` is the buffer's content after the call.
   */
  method InputBox(
    rt: Lib.Runtime, eventGuid: Ffi.Guid,
    title: Option<WideString>, subTitle: Option<WideString>, historyName: Option<WideString>,
    srcText: Option<WideString>, inputLength: nat, helpTopic: Option<WideString>, flags: bv64,
    hostReturnCode: int, hostText: seq<CodeUnit>)
    returns (r: Result<Option<WideString>, Panic>, call: Option<InputBoxCall>)
    requires |hostText| == inputLength
    ensures PluginGuidOf(rt.basicContext).Err? ==> r == Err(PluginGuidOf(rt.basicContext).error) && call.None?
    ensures PluginGuidOf(rt.basicContext).Ok? && rt.farApi.None? ==>
      r == Err(Panic(Lib.PLUGIN_NOT_INITIALIZED)) && call.None?
    ensures r.Ok? <==> call.Some?
    ensures call.Some? ==>
      call.value == InputBoxCall(
        PluginGuidOf(rt.basicContext).value, eventGuid, AsPtrOrNull(title), AsPtrOrNull(subTitle),
        AsPtrOrNull(historyName), AsPtrOrNull(srcText), seq(inputLength, _ => 0), inputLength,
        AsPtrOrNull(helpTopic), flags)
    ensures r.Ok? ==> (r.value.Some? <==> hostReturnCode != 0)
    ensures r.Ok? && r.value.Some? ==> r.value.value.units == UnitsBeforeNul(hostText)
  {
    var guid := PluginGuidOf(rt.basicContext);
    if guid.Err? {
      return Err(guid.error), None;
    }
    var destTextBuf: seq<CodeUnit> := seq(inputLength, _ => 0);
    var api := rt.FarApi();
    if api.Err? {
      return Err(api.error), None;
    }
    call := Some(InputBoxCall(
      guid.value, eventGuid, AsPtrOrNull(title), AsPtrOrNull(subTitle), AsPtrOrNull(historyName),
      AsPtrOrNull(srcText), destTextBuf, inputLength, AsPtrOrNull(helpTopic), flags));
    if hostReturnCode != 0 {
      r := Ok(Some(FromSlice(hostText)));
    } else {
      r := Ok(None);
    }
  }

  // ---------------------------------------------------------------- OpenW

  /**
   * `OpenShortcutInfo` as `OpenW` builds it: whether `shortcut_data` is read is decided by
   * whether `host_file` is null.
   */
  function ShortcutInfoAsWritten(data: Ffi.OpenShortcutInfo): (r: BT.OpenShortcutInfo)
    requires data.hostFile.Some? ==> data.shortcutData.Some?
    ensures r.hostFile.None? <==> data.hostFile.None?
    ensures r.shortcutData.None? <==> data.hostFile.None?
    ensures r.flags == data.flags
  {
    BT.OpenShortcutInfo(
      if data.hostFile.Some? then Some(FromPtrStr(data.hostFile)) else None,
      if data.hostFile.Some? then Some(FromPtrStr(data.shortcutData)) else None,
      data.flags)
  }

  /** A shortcut without a host file loses its data as written. */
  lemma ShortcutDataLost()
    ensures var data := Ffi.OpenShortcutInfo(24, None, Some([0x61, 0]), 0);
      && ShortcutInfoAsWritten(data).shortcutData.None?
      && ShortcutInfoFrom(data).shortcutData == Some(WideString([0x61]))
  {
    var data := Ffi.OpenShortcutInfo(24, None, Some([0x61, 0]), 0);
    assert FromPtrStr(data.shortcutData).units == [0x61];
  }

  /** `OpenShortcutInfo` with each optional string read from its own pointer. */
  function ShortcutInfoFrom(data: Ffi.OpenShortcutInfo): (r: BT.OpenShortcutInfo)
    ensures r.hostFile.None? <==> data.hostFile.None?
    ensures r.shortcutData.None? <==> data.shortcutData.None?
    ensures data.hostFile.Some? ==> r.hostFile.value == FromPtrStr(data.hostFile)
    ensures data.shortcutData.Some? ==> r.shortcutData.value == FromPtrStr(data.shortcutData)
    ensures r.flags == data.flags
  {
    BT.OpenShortcutInfo(
      if data.hostFile.Some? then Some(FromPtrStr(data.hostFile)) else None,
      if data.shortcutData.Some? then Some(FromPtrStr(data.shortcutData)) else None,
      data.flags)
  }

  /** Both agree whenever the host passes both pointers or neither. */
  lemma ShortcutInfoAgrees(data: Ffi.OpenShortcutInfo)
    requires data.hostFile.Some? <==> data.shortcutData.Some?
    ensures ShortcutInfoAsWritten(data) == ShortcutInfoFrom(data)
  {
  }

  /** The open mode each `OpenFrom` variant stands for. */
  function OpenFromCode(o: BT.OpenFrom): Ffi.OPENFROM {
    match o
    case LeftDiskMenu => Ffi.OPEN_LEFTDISKMENU
    case PluginsMenu => Ffi.OPEN_PLUGINSMENU
    case FindList => Ffi.OPEN_FINDLIST
    case Shortcut(_) => Ffi.OPEN_SHORTCUT
    case CommandLine(_) => Ffi.OPEN_COMMANDLINE
    case Editor => Ffi.OPEN_EDITOR
    case Viewer => Ffi.OPEN_VIEWER
    case FilePanel => Ffi.OPEN_FILEPANEL
    case Dialog(_) => Ffi.OPEN_DIALOG
    case Analyse(_) => Ffi.OPEN_ANALYSE
    case RightDiskMenu => Ffi.OPEN_RIGHTDISKMENU
    case FromMacro => Ffi.OPEN_FROMMACRO
    case LuaMacro => Ffi.OPEN_LUAMACRO
  }

  /** The struct of each open mode is there, and its strings are not null. */
  predicate ReadableOpenInfo(info: Ffi.OpenInfo) {
    && Ffi.WellFormedOpenInfo(info)
    && (info.openFrom.OPEN_COMMANDLINE? ==> info.data.commandLine.commandLine.Some?)
    && (info.openFrom.OPEN_ANALYSE? ==> info.data.analyse.info.fileName.Some?)
    && (info.openFrom.OPEN_SHORTCUT? && info.data.shortcut.hostFile.Some? ==> info.data.shortcut.shortcutData.Some?)
  }

  /**
   * `OpenW`'s dispatch: the `OpenFrom` variant of the open mode, with its data read from the
   * host's struct. `OPEN_FROMMACRO` panics with `unimplemented!()`.
   */
  function OpenFromOf(info: Ffi.OpenInfo): (r: Result<BT.OpenFrom, Panic>)
    requires ReadableOpenInfo(info)
    ensures r.Err? <==> info.openFrom.OPEN_FROMMACRO?
    ensures r.Err? ==> r.error == Panic(NOT_IMPLEMENTED)
    ensures r.Ok? ==> OpenFromCode(r.value) == info.openFrom
    ensures r.Ok? && r.value.Shortcut? ==> r.value.shortcut == ShortcutInfoAsWritten(info.data.shortcut)
    ensures r.Ok? && r.value.CommandLine? ==>
      r.value.commandLine.commandLine == FromPtrStr(info.data.commandLine.commandLine)
    ensures r.Ok? && r.value.Dialog? ==> r.value.dialog.hDlg == info.data.dialog.hDlg
    ensures r.Ok? && r.value.Analyse? ==>
      && r.value.analyse.handle == info.data.analyse.handle
      && r.value.analyse.info.fileName == FromPtrStr(info.data.analyse.info.fileName)
      && r.value.analyse.info.buffer == info.data.analyse.info.buffer
      && r.value.analyse.info.opMode == info.data.analyse.info.opMode
  {
    match info.openFrom
    case OPEN_LEFTDISKMENU => Ok(BT.LeftDiskMenu)
    case OPEN_PLUGINSMENU => Ok(BT.PluginsMenu)
    case OPEN_FINDLIST => Ok(BT.FindList)
    case OPEN_SHORTCUT => Ok(BT.Shortcut(ShortcutInfoAsWritten(info.data.shortcut)))
    case OPEN_COMMANDLINE => Ok(BT.CommandLine(BT.OpenCommandLineInfo(FromPtrStr(info.data.commandLine.commandLine))))
    case OPEN_EDITOR => Ok(BT.Editor)
    case OPEN_VIEWER => Ok(BT.Viewer)
    case OPEN_FILEPANEL => Ok(BT.FilePanel)
    case OPEN_DIALOG => Ok(BT.Dialog(BT.OpenDlgPluginData(info.data.dialog.hDlg)))
    case OPEN_ANALYSE =>
      var analyseInfo := info.data.analyse.info;
      Ok(BT.Analyse(BT.OpenAnalyseInfo(
        BT.AnalyseInfo(FromPtrStr(analyseInfo.fileName), analyseInfo.buffer, analyseInfo.opMode),
        info.data.analyse.handle)))
    case OPEN_RIGHTDISKMENU => Ok(BT.RightDiskMenu)
    case OPEN_FROMMACRO => Err(Panic(NOT_IMPLEMENTED))
    case OPEN_LUAMACRO => Ok(BT.LuaMacro)
  }

  /**
   * `OpenW`: the handle the plugin's `open` returns; a wrong `struct_size`, `OPEN_FROMMACRO`
   * and a panic of the plugin are caught and give the null handle 0.
   */
  function OpenW(info: Ffi.OpenInfo, open: BT.OpenFrom -> Lib.Invocation<Ffi.Handle>): (h: Ffi.Handle)
    requires info.structSize == Ffi.SizeOf(Ffi.OpenInfoKind) ==> ReadableOpenInfo(info)
    ensures info.structSize != Ffi.SizeOf(Ffi.OpenInfoKind) ==> h == 0
    ensures info.structSize == Ffi.SizeOf(Ffi.OpenInfoKind) && info.openFrom.OPEN_FROMMACRO? ==> h == 0
    ensures info.structSize == Ffi.SizeOf(Ffi.OpenInfoKind) && OpenFromOf(info).Ok? ==>
      h == match open(OpenFromOf(info).value) case Returned(v) => v case Panicked(_) => 0
  {
    if info.structSize != Ffi.SizeOf(Ffi.OpenInfoKind) then 0
    else
      match OpenFromOf(info)
      case Err(_) => 0
      case Ok(openFrom) =>
        match open(openFrom)
        case Returned(v) => v
        case Panicked(_) => 0
  }

  /**
   * Through `OpenW`, a shortcut whose host file is null reaches the plugin without its
   * shortcut data, although the host passed one.
   */
  lemma OpenWLosesShortcutData(open: BT.OpenFrom -> Lib.Invocation<Ffi.Handle>)
    ensures var info := Ffi.OpenInfo(Ffi.SizeOf(Ffi.OpenInfoKind), Ffi.OPEN_SHORTCUT, Ffi.DEFAULT_GUID,
                                     Ffi.ShortcutData(Ffi.OpenShortcutInfo(24, None, Some([0x61, 0]), 0)), 0);
      && OpenFromOf(info).Ok? && OpenFromOf(info).value.Shortcut?
      && OpenFromOf(info).value.shortcut.shortcutData.None?
      && info.data.shortcut.shortcutData.Some?
      && OpenW(info, open) == match open(OpenFromOf(info).value) case Returned(v) => v case Panicked(_) => 0
  {
    ShortcutDataLost();
  }

  /**
   * `OpenW` hands the plugin the corrected shortcut reading whenever the host passes both
   * strings or neither.
   */
  lemma OpenFromOfShortcutAgrees(info: Ffi.OpenInfo)
    requires ReadableOpenInfo(info) && info.openFrom.OPEN_SHORTCUT?
    requires info.data.shortcut.hostFile.Some? <==> info.data.shortcut.shortcutData.Some?
    ensures OpenFromOf(info) == Ok(BT.Shortcut(ShortcutInfoFrom(info.data.shortcut)))
  {
    ShortcutInfoAgrees(info.data.shortcut);
  }

  /** The trait's default `open` returns null, so `OpenW` returns 0 for every open mode. */
  lemma OpenWDefault(info: Ffi.OpenInfo)
    requires info.structSize == Ffi.SizeOf(Ffi.OpenInfoKind) ==> ReadableOpenInfo(info)
    ensures OpenW(info, _ => Lib.Returned(0)) == 0
  {
  }

  // ---------------------------------------------------------------- the exports that fill the slots

  /**
   * `SetStartupInfoW`: stores a copy of the host's API table and a copy of its standard
   * functions, points the stored table at the stored copy, then hands the module name to the
   * plugin. It runs outside `catch_unwind`: a missing plugin or a panic in it aborts.
   */
  method SetStartupInfo(rt: Lib.Runtime, psi: Ffi.PluginStartupInfo, setStartupInfo: BT.PluginStartupInfo -> Lib.Invocation<()>)
    returns (r: Lib.Outcome<()>)
    requires psi.moduleName.Some?
    modifies rt
    ensures rt.standardFunctions != null && fresh(rt.standardFunctions)
    ensures rt.standardFunctions.structSize == psi.farStandardFunctions.structSize
    ensures rt.standardFunctions.functions == psi.farStandardFunctions.functions
    ensures rt.farApi == Some(psi.(farStandardFunctions := rt.standardFunctions))
    ensures rt.farApi.value.farStandardFunctions != psi.farStandardFunctions
    ensures rt.plugin == old(rt.plugin) && rt.basicContext == old(rt.basicContext) && rt.panelContext == old(rt.panelContext)
    ensures r.Completes? <==>
      rt.plugin.Some? && setStartupInfo(BT.PluginStartupInfo(FromPtrStr(psi.moduleName))).Returned?
  {
    var moduleNameWs := FromPtrStr(psi.moduleName);
    rt.farApi := Some(psi);
    var farStandardFunctions := new Ffi.FarStandardFunctions(psi.farStandardFunctions.structSize, psi.farStandardFunctions.functions);
    rt.standardFunctions := farStandardFunctions;
    var farApi := rt.FarApi();
    if farApi.Err? {
      assert false;
      return Lib.Aborts;
    }
    rt.farApi := Some(farApi.value.(farStandardFunctions := rt.standardFunctions));
    var plugin := rt.Plugin();
    if plugin.Err? {
      return Lib.Aborts;
    }
    match setStartupInfo(BT.PluginStartupInfo(moduleNameWs))
    case Returned(_) => r := Lib.Completes(());
    case Panicked(_) => r := Lib.Aborts;
  }

  /**
   * `get_global_info`: `init` with the plugin instance, then the plugin's global information
   * written into the host's struct through the fresh basic context. A panic of the plugin is
   * caught and leaves the host's struct as it was.
   */
  method GetGlobalInfo(rt: Lib.Runtime, p: Lib.FarPlugin, info: Ffi.GlobalInfo, getGlobalInfo: () -> Lib.Invocation<BT.GlobalInfo>)
    returns (out: Ffi.GlobalInfo)
    modifies rt
    ensures rt.plugin == Some(p) && rt.farApi == old(rt.farApi) && rt.standardFunctions == old(rt.standardFunctions)
    ensures rt.basicContext != null && fresh(rt.basicContext) && rt.basicContext.pluginInfo.None?
    ensures rt.panelContext != null && fresh(rt.panelContext) && rt.panelContext.activePanels == map[]
    ensures getGlobalInfo().Panicked? ==> out == info && rt.basicContext.globalInfo.None?
    ensures getGlobalInfo().Returned? ==>
      var src := getGlobalInfo().value;
      && rt.basicContext.globalInfo == Some(BasicCtx.GlobalInfoContext(src.guid, Clone(src.title), Clone(src.description), Clone(src.author)))
      && out.structSize == Ffi.SizeOf(Ffi.GlobalInfoKind) && out.guid == src.guid
      && out.minFarVersion == src.minFarVersion && out.version == src.version
      && out.title.Some? && out.description.Some? && out.author.Some?
      && FromPtrStr(out.title) == src.title && FromPtrStr(out.description) == src.description
      && FromPtrStr(out.author) == src.author && out.instance == info.instance
  {
    rt.Init(p);
    out := info;
    var globalInfo := getGlobalInfo();
    if globalInfo.Panicked? {
      return;
    }
    var ctx := rt.basicContext;
    out := ctx.EnrichGlobalInfo(info, globalInfo.value);
  }

  /**
   * `GetPluginInfoW`: the plugin's information written into the host's struct through the
   * basic context. Nothing is caught: a missing plugin or context, or a panic, aborts.
   */
  method GetPluginInfo(rt: Lib.Runtime, info: Ffi.PluginInfo, getPluginInfo: () -> Lib.Invocation<BT.PluginInfo>)
    returns (r: Lib.Outcome<Ffi.PluginInfo>)
    modifies rt.basicContext
    ensures rt.basicContext != null ==> rt.basicContext.globalInfo == old(rt.basicContext.globalInfo)
    ensures r.Completes? <==> rt.plugin.Some? && getPluginInfo().Returned? && rt.basicContext != null
    ensures r.Completes? ==>
      && rt.basicContext.pluginInfo.Some? && BasicCtx.RepresentsInfo(rt.basicContext.pluginInfo.value, getPluginInfo().value)
      && r.value.flags == getPluginInfo().value.flags && r.value.structSize == info.structSize
      && r.value.diskMenu == rt.basicContext.pluginInfo.value.diskMenu.inner
      && r.value.pluginMenu == rt.basicContext.pluginInfo.value.pluginMenu.inner
      && r.value.pluginConfig == rt.basicContext.pluginInfo.value.pluginConfig.inner
      && (r.value.commandPrefix.None? <==> getPluginInfo().value.commandPrefix.None?)
    ensures r.Completes? ==>
      r.value == info.(
        flags := getPluginInfo().value.flags,
        diskMenu := rt.basicContext.pluginInfo.value.diskMenu.inner,
        pluginMenu := rt.basicContext.pluginInfo.value.pluginMenu.inner,
        pluginConfig := rt.basicContext.pluginInfo.value.pluginConfig.inner,
        commandPrefix := AsPtrOrNull(rt.basicContext.pluginInfo.value.commandPrefix))
    ensures r.Completes? && getPluginInfo().value.commandPrefix.Some? ==>
      FromPtrStr(r.value.commandPrefix) == getPluginInfo().value.commandPrefix.value
    ensures r.Aborts? && rt.basicContext != null ==> rt.basicContext.pluginInfo == old(rt.basicContext.pluginInfo)
  {
    if rt.plugin.None? {
      return Lib.Aborts;
    }
    var pluginInfo := getPluginInfo();
    if pluginInfo.Panicked? || rt.basicContext == null {
      return Lib.Aborts;
    }
    var ctx := rt.basicContext;
    var out := ctx.EnrichPluginInfo(info, pluginInfo.value);
    if pluginInfo.value.commandPrefix.Some? {
      PointerRoundTrip(ctx.pluginInfo.value.commandPrefix.value);
    }
    r := Lib.Completes(out);
  }

  /**
   * `ExitFARW`: tells the plugin the host is exiting, then empties every slot. The plugin call
   * is not caught: a missing plugin or a panic in it aborts before anything is released.
   */
  method ExitFar(rt: Lib.Runtime, exitFar: () -> Lib.Invocation<()>) returns (r: Lib.Outcome<seq<Lib.Slot>>)
    modifies rt
    ensures r.Completes? <==> old(rt.plugin).Some? && exitFar().Returned?
    ensures r.Aborts? ==>
      && rt.plugin == old(rt.plugin) && rt.farApi == old(rt.farApi) && rt.standardFunctions == old(rt.standardFunctions)
      && rt.basicContext == old(rt.basicContext) && rt.panelContext == old(rt.panelContext)
    ensures r.Completes? ==>
      && rt.plugin.None? && rt.farApi.None? && rt.standardFunctions == null
      && rt.basicContext == null && rt.panelContext == null
      && r.value == Lib.Released(
           old(rt.panelContext) != null, old(rt.basicContext) != null, old(rt.standardFunctions) != null,
           old(rt.farApi).Some?, true)
  {
    if rt.plugin.None? || exitFar().Panicked? {
      return Lib.Aborts;
    }
    var released := rt.Destroy();
    r := Lib.Completes(released);
  }
}
