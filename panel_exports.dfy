/**
 * The panel exports (`farmanager/src/panel.rs`): the flat host structs turned into rich
 * records, and each exported entry point as a step from the host's struct, the plugin's
 * behaviour and the panel context to the value returned to the host, the host fields
 * written and the new context.
 *
 * The plugin's behaviour is a function parameter returning a `Lib.Invocation`: a value, or a
 * panic. The panics `plugin()` raises when no plugin is stored and the `unimplemented!()` of
 * a plugin without panel exports are panics of the invocation too. A missing panel context
 * is a null `ctx`; `context()` panics then.
 */
module PanelExports {
  import opened Wrappers
  import opened Utf16
  import opened WideStr
  import Ffi
  import Rich = PanelTypes
  import W = PanelWrapper
  import PanelCtx
  import Lib

  // ---------------------------------------------------------------- raw -> rich

  /** `WideString::from_ptr_str(p).to_string_lossy()` */
  function RawText(p: Ffi.WPtr): (s: string)
    requires p.Some?
    ensures '\0' !in s
  {
    ToStringLossy(FromPtrStr(p))
  }

  /** An optional text pointer: `None` exactly when it is null. */
  function RawOptText(p: Ffi.WPtr): (s: Option<string>)
    ensures s.None? <==> p.None?
    ensures p.Some? ==> s.value == RawText(p)
  {
    if p.Some? then Some(RawText(p)) else None
  }

  /** The host items a conversion reads: at least `n` of them, each with a file name. */
  predicate ReadableItems(items: seq<Ffi.PluginPanelItem>, n: nat) {
    n <= |items| && forall i :: 0 <= i < n ==> items[i].fileName.Some?
  }

  /** `From<&ffi::PluginPanelItem>`; what it keeps of the host's item is `FromRawFields`. */
  function FromRaw(ppi: Ffi.PluginPanelItem): Rich.PluginPanelItem
    requires ppi.fileName.Some?
  {
    Rich.PluginPanelItem(
      ppi.creationTime, ppi.lastAccessTime, ppi.lastWriteTime, ppi.changeTime,
      ppi.fileSize, ppi.allocationSize,
      RawText(ppi.fileName), RawOptText(ppi.alternateFileName), RawOptText(ppi.description), RawOptText(ppi.owner),
      ppi.flags, Rich.FromBitsTruncate(ppi.fileAttributes), ppi.numberOfLinks, ppi.crc32)
  }

  /**
   * A host item read into the rich form: times, sizes, flags, link count and CRC are copied,
   * the names are read back (a null optional name is `None`) and unknown attribute bits are
   * dropped.
   */
  lemma FromRawFields(ppi: Ffi.PluginPanelItem)
    requires ppi.fileName.Some?
    ensures var r := FromRaw(ppi);
      && r.creationTime == ppi.creationTime && r.lastAccessTime == ppi.lastAccessTime
      && r.lastWriteTime == ppi.lastWriteTime && r.changeTime == ppi.changeTime
      && r.fileSize == ppi.fileSize && r.allocationSize == ppi.allocationSize
      && r.fileName == RawText(ppi.fileName)
      && (r.alternateFileName.None? <==> ppi.alternateFileName.None?)
      && (r.description.None? <==> ppi.description.None?)
      && (r.owner.None? <==> ppi.owner.None?)
      && r.flags == ppi.flags
      && r.fileAttributes == ppi.fileAttributes & Rich.ALL_ATTRIBUTES
      && r.numberOfLinks == ppi.numberOfLinks && r.crc32 == ppi.crc32
  {
  }

  /** A text mapped through `TextBeforeNul` when present. */
  function OptBeforeNul(s: Option<string>): (r: Option<string>)
    ensures r.None? <==> s.None?
    ensures s.Some? ==> r.value == TextBeforeNul(s.value)
  {
    match s
    case None => None
    case Some(t) => Some(TextBeforeNul(t))
  }

  /** The name a converted name pointer reads back as. */
  lemma NameReadsBack(s: string)
    ensures RawText(AsPtr(FromStr(s))) == TextBeforeNul(s)
  {
    PointerRoundTrip(FromStr(s));
    StrRoundTripWithNul(s);
  }

  /** An optional name reads back as itself, cut at a NUL. */
  lemma OptNameReadsBack(s: Option<string>)
    ensures RawOptText(AsPtrOrNull(FromOptStr(s))) == OptBeforeNul(s)
  {
    if s.Some? { NameReadsBack(s.value); }
  }

  /**
   * Rich, then flat, then rich again: names, optional names, times, sizes and attributes come
   * back (texts up to their first NUL); the flags, link count and CRC come back as 0.
   */
  lemma RichRawRich(src: Rich.PluginPanelItem)
    ensures W.FromRich(src).inner.fileName.Some?
    ensures FromRaw(W.FromRich(src).inner) == src.(
      fileName := TextBeforeNul(src.fileName),
      alternateFileName := OptBeforeNul(src.alternateFileName),
      description := OptBeforeNul(src.description),
      owner := OptBeforeNul(src.owner),
      flags := Ffi.PPIF_NONE, numberOfLinks := 0, crc32 := 0)
  {
    NameReadsBack(src.fileName);
    OptNameReadsBack(src.alternateFileName);
    OptNameReadsBack(src.description);
    OptNameReadsBack(src.owner);
  }

  /** For names without a NUL the round trip is exact, apart from the three reset fields. */
  lemma RichRawRichNulFree(src: Rich.PluginPanelItem)
    requires '\0' !in src.fileName
    requires src.alternateFileName.Some? ==> '\0' !in src.alternateFileName.value
    requires src.description.Some? ==> '\0' !in src.description.value
    requires src.owner.Some? ==> '\0' !in src.owner.value
    ensures W.FromRich(src).inner.fileName.Some?
    ensures FromRaw(W.FromRich(src).inner) == src.(flags := Ffi.PPIF_NONE, numberOfLinks := 0, crc32 := 0)
  {
    RichRawRich(src);
    TextBeforeNulOfNulFree(src.fileName);
    if src.alternateFileName.Some? { TextBeforeNulOfNulFree(src.alternateFileName.value); }
    if src.description.Some? { TextBeforeNulOfNulFree(src.description.value); }
    if src.owner.Some? { TextBeforeNulOfNulFree(src.owner.value); }
  }

  /** `n` host items, each converted with `FromRaw`. */
  function RichItems(raw: seq<Ffi.PluginPanelItem>, n: nat): (r: seq<Rich.PluginPanelItem>)
    requires ReadableItems(raw, n)
    ensures |r| == n
  {
    seq(n, i requires 0 <= i < n => FromRaw(raw[i]))
  }

  /** The loop `for raw_item in slice::from_raw_parts(panel_item, items_number) { items.push(..) }`. */
  method ConvertRawItems(raw: seq<Ffi.PluginPanelItem>, n: nat) returns (items: seq<Rich.PluginPanelItem>)
    requires ReadableItems(raw, n)
    ensures |items| == n
    ensures forall i :: 0 <= i < n ==> items[i] == FromRaw(raw[i])
    ensures items == RichItems(raw, n)
  {
    items := [];
    var k := 0;
    while k < n
      invariant 0 <= k <= n
      invariant |items| == k
      invariant forall i :: 0 <= i < k ==> items[i] == FromRaw(raw[i])
    {
      items := items + [FromRaw(raw[k])];
      k := k + 1;
    }
  }

  /**
   * `GetFilesW`'s attribute conversion: `from_bits`, and on unknown bits (after logging)
   * `from_bits_truncate`. It is `from_bits_truncate` either way.
   */
  function GetFilesAttributes(bits: bv64): (a: Rich.FileAttributes)
    ensures a == Rich.FromBitsTruncate(bits)
  {
    match Rich.FromBits(bits)
    case Some(attributes) => Rich.TruncateKeepsDeclared(bits); attributes
    case None => Rich.FromBitsTruncate(bits)
  }

  /** `GetFilesW`'s own item conversion, which gives what `From<&ffi::PluginPanelItem>` gives. */
  function GetFilesItem(item: Ffi.PluginPanelItem): (r: Rich.PluginPanelItem)
    requires item.fileName.Some?
    ensures r == FromRaw(item)
  {
    Rich.PluginPanelItem(
      item.creationTime, item.lastAccessTime, item.lastWriteTime, item.changeTime,
      item.fileSize, item.allocationSize,
      RawText(item.fileName), RawOptText(item.alternateFileName), RawOptText(item.description), RawOptText(item.owner),
      item.flags, GetFilesAttributes(item.fileAttributes), item.numberOfLinks, item.crc32)
  }

  /** `From<&ffi::FarPanelDirectory>` */
  function FarPanelDirectoryFrom(src: Ffi.FarPanelDirectory): (r: Rich.FarPanelDirectory)
    requires src.name.Some? && src.file.Some?
    ensures r.name == RawText(src.name) && r.file == RawText(src.file) && r.pluginId == src.pluginId
  {
    Rich.FarPanelDirectory(RawText(src.name), src.pluginId, RawText(src.file))
  }

  /** `From<&ffi::MakeDirectoryInfo>` */
  function MakeDirectoryInfoFrom(info: Ffi.MakeDirectoryInfo): (r: Rich.MakeDirectoryInfo)
    requires info.name.Some?
    ensures r.panel == info.hPanel && r.name == RawText(info.name) && r.opMode == info.opMode
  {
    Rich.MakeDirectoryInfo(info.hPanel, RawText(info.name), info.opMode)
  }

  /** The parameter the host passes with each panel event. */
  predicate WellFormedEvent(info: Ffi.ProcessPanelEventInfo) {
    match info.event
    case FE_CHANGEVIEWMODE => info.param.TextParam? && info.param.text.Some?
    case FE_COMMAND => info.param.TextParam? && info.param.text.Some?
    case FE_BREAK => info.param.ValueParam?
    case _ => true
  }

  /** `From<&ffi::ProcessPanelEventInfo>`: one event per `FAR_EVENTS` code. */
  function ProcessPanelEventInfoFrom(info: Ffi.ProcessPanelEventInfo): (r: Rich.ProcessPanelEventInfo)
    requires WellFormedEvent(info)
    ensures r.hPanel == info.hPanel
    ensures info.event.FE_CHANGEVIEWMODE? <==> r.event.ChangeViewMode?
    ensures info.event.FE_REDRAW? <==> r.event.Redraw?
    ensures info.event.FE_IDLE? <==> r.event.Idle?
    ensures info.event.FE_CLOSE? <==> r.event.Close?
    ensures info.event.FE_BREAK? <==> r.event.Break?
    ensures info.event.FE_COMMAND? <==> r.event.Command?
    ensures info.event.FE_GOTFOCUS? <==> r.event.GotFocus?
    ensures info.event.FE_KILLFOCUS? <==> r.event.KillFocus?
    ensures info.event.FE_CHANGESORTPARAMS? <==> r.event.ChangeSortParams?
    ensures r.event.ChangeViewMode? ==> r.event.mode == RawText(info.param.text)
    ensures r.event.Command? ==> r.event.command == RawText(info.param.text)
    ensures r.event.Break? ==> r.event.code == info.param.value % 0x1_0000_0000
  {
    var event := match info.event
      case FE_CHANGEVIEWMODE => Rich.ChangeViewMode(RawText(info.param.text))
      case FE_REDRAW => Rich.Redraw
      case FE_IDLE => Rich.Idle
      case FE_CLOSE => Rich.Close
      case FE_BREAK => Rich.Break(info.param.value % 0x1_0000_0000)
      case FE_COMMAND => Rich.Command(RawText(info.param.text))
      case FE_GOTFOCUS => Rich.GotFocus
      case FE_KILLFOCUS => Rich.KillFocus
      case FE_CHANGESORTPARAMS => Rich.ChangeSortParams;
    Rich.ProcessPanelEventInfo(event, info.hPanel)
  }

  /** `From<&ffi::ProcessHostFileInfo>` */
  function ProcessHostFileInfoFrom(info: Ffi.ProcessHostFileInfo): (r: Rich.ProcessHostFileInfo)
    requires ReadableItems(info.panelItem, info.itemsNumber)
    ensures r.hPanel == info.hPanel && r.opMode == info.opMode
    ensures |r.panelItem| == info.itemsNumber
    ensures forall i :: 0 <= i < info.itemsNumber ==> r.panelItem[i] == FromRaw(info.panelItem[i])
  {
    Rich.ProcessHostFileInfo(info.hPanel, RichItems(info.panelItem, info.itemsNumber), info.opMode)
  }

  /** `From<&ffi::ProcessPanelInputInfo>` */
  function ProcessPanelInputInfoFrom(info: Ffi.ProcessPanelInputInfo): (r: Rich.ProcessPanelInputInfo)
    ensures r.hPanel == info.hPanel && r.record == info.rec
  {
    Rich.ProcessPanelInputInfo(info.hPanel, info.rec)
  }

  /** `From<&ffi::PutFilesInfo>`: `move_file` is true for any nonzero value. */
  function PutFilesInfoFrom(info: Ffi.PutFilesInfo): (r: Rich.PutFilesInfo)
    requires ReadableItems(info.panelItem, info.itemsNumber) && info.srcPath.Some?
    ensures r.panel == info.hPanel && r.opMode == info.opMode
    ensures r.moveFile <==> info.moveFile != 0
    ensures r.srcPath == RawText(info.srcPath)
    ensures |r.panelItem| == info.itemsNumber
    ensures forall i :: 0 <= i < info.itemsNumber ==> r.panelItem[i] == FromRaw(info.panelItem[i])
  {
    Rich.PutFilesInfo(
      info.hPanel, RichItems(info.panelItem, info.itemsNumber),
      match info.moveFile case 0 => false case _ => true,
      RawText(info.srcPath), info.opMode)
  }

  /** `From<&ffi::SetFindListInfo>` */
  function SetFindListInfoFrom(info: Ffi.SetFindListInfo): (r: Rich.SetFindListInfo)
    requires ReadableItems(info.panelItem, info.itemsNumber)
    ensures r.hPanel == info.hPanel
    ensures |r.panelItem| == info.itemsNumber
    ensures forall i :: 0 <= i < info.itemsNumber ==> r.panelItem[i] == FromRaw(info.panelItem[i])
  {
    Rich.SetFindListInfo(info.hPanel, RichItems(info.panelItem, info.itemsNumber))
  }

  /** `Into<ffi::HANDLE> for Panel` */
  function PanelToHandle(p: Rich.Panel): (h: Ffi.Handle)
    ensures p.Active? ==> h == Ffi.PANEL_ACTIVE
    ensures p.Passive? ==> h == Ffi.PANEL_PASSIVE
    ensures p.OfHandle? ==> h == p.handle
    ensures p.NoPanel? ==> h == Ffi.PANEL_NONE
  {
    match p
    case Active => Ffi.PANEL_ACTIVE
    case Passive => Ffi.PANEL_PASSIVE
    case OfHandle(handle) => handle
    case NoPanel => Ffi.PANEL_NONE
  }

  /** `Active` and `None` give the same handle, -1; `Passive` gives -2; a handle is passed through. */
  lemma PanelHandles(h: Ffi.Handle)
    ensures PanelToHandle(Rich.Active) == PanelToHandle(Rich.NoPanel) == -1
    ensures PanelToHandle(Rich.Passive) == -2
    ensures PanelToHandle(Rich.OfHandle(h)) == h
    ensures PanelToHandle(Rich.OfHandle(-1)) == PanelToHandle(Rich.Active)
  {
  }

  // ---------------------------------------------------------------- return codes

  /** How `Ok(true)`, `Ok(false)` and a caught panic of the boolean exports reach the host. */
  function BoolCode(r: Lib.Invocation<bool>): (code: int)
    ensures code == 1 <==> r == Lib.Returned(true)
    ensures code == 0 <==> r != Lib.Returned(true)
  {
    match r
    case Returned(true) => 1
    case Returned(false) => 0
    case Panicked(_) => 0
  }

  /** `CompareW`'s mapping of the plugin's answer. */
  function OrderingCode(o: Option<Rich.Ordering>): (n: int)
    ensures n == -2 <==> o.None?
    ensures n == -1 <==> o == Some(Rich.Less)
    ensures n == 0 <==> o == Some(Rich.Equal)
    ensures n == 1 <==> o == Some(Rich.Greater)
  {
    match o
    case Some(Less) => -1
    case Some(Equal) => 0
    case Some(Greater) => 1
    case None => -2
  }

  /** Distinct answers give distinct codes, and the sign of a code is the order. */
  lemma OrderingCodeInjective(o1: Option<Rich.Ordering>, o2: Option<Rich.Ordering>)
    ensures OrderingCode(o1) == OrderingCode(o2) ==> o1 == o2
    ensures o1.Some? ==> (OrderingCode(o1) < 0 <==> o1.value.Less?)
    ensures o1.Some? ==> (OrderingCode(o1) > 0 <==> o1.value.Greater?)
  {
  }

  // ---------------------------------------------------------------- exports without state

  /**
   * `AnalyseW`: the handle the plugin returns. A wrong `struct_size` and a panic of the
   * plugin both reach the `unimplemented!()` of the `Err` arm, outside `catch_unwind`.
   */
  function AnalyseW(info: Ffi.AnalyseInfo, analyse: Rich.AnalyseInfo -> Lib.Invocation<Ffi.Handle>): (r: Lib.Outcome<Ffi.Handle>)
    requires info.structSize == Ffi.SizeOf(Ffi.AnalyseInfoKind) ==> info.fileName.Some?
    ensures r.Completes? <==>
      info.structSize == Ffi.SizeOf(Ffi.AnalyseInfoKind)
      && analyse(Rich.AnalyseInfo(RawText(info.fileName), info.buffer, info.opMode)).Returned?
    ensures r.Completes? ==> r.value == analyse(Rich.AnalyseInfo(RawText(info.fileName), info.buffer, info.opMode)).value
  {
    if info.structSize != Ffi.SizeOf(Ffi.AnalyseInfoKind) then Lib.Aborts
    else
      match analyse(Rich.AnalyseInfo(RawText(info.fileName), info.buffer, info.opMode))
      case Returned(h) => Lib.Completes(h)
      case Panicked(_) => Lib.Aborts
  }

  /**
   * `CloseAnalyseW` as written: it checks `struct_size` against the size of `AnalyseInfo`
   * instead of `CloseAnalyseInfo`, and a failed check ends in `unimplemented!()`.
   */
  function CloseAnalyseWAsWritten(info: Ffi.CloseAnalyseInfo, closeAnalyse: Rich.CloseAnalyseInfo -> Lib.Invocation<()>): (r: Lib.Outcome<()>)
    ensures r.Completes? <==>
      info.structSize == Ffi.SizeOf(Ffi.AnalyseInfoKind) && closeAnalyse(Rich.CloseAnalyseInfo(info.handle)).Returned?
  {
    if info.structSize != Ffi.SizeOf(Ffi.AnalyseInfoKind) then Lib.Aborts
    else
      match closeAnalyse(Rich.CloseAnalyseInfo(info.handle))
      case Returned(_) => Lib.Completes(())
      case Panicked(_) => Lib.Aborts
  }

  /** As written, every call with the struct the host actually passes aborts the process. */
  lemma CloseAnalyseWAsWrittenAborts(info: Ffi.CloseAnalyseInfo, closeAnalyse: Rich.CloseAnalyseInfo -> Lib.Invocation<()>)
    requires info.structSize == Ffi.SizeOf(Ffi.CloseAnalyseInfoKind)
    ensures CloseAnalyseWAsWritten(info, closeAnalyse) == Lib.Aborts
  {
    assert Ffi.SizeOf(Ffi.CloseAnalyseInfoKind) != Ffi.SizeOf(Ffi.AnalyseInfoKind);
  }

  /** `CloseAnalyseW` with the check against `CloseAnalyseInfo`'s own size. */
  function CloseAnalyseW(info: Ffi.CloseAnalyseInfo, closeAnalyse: Rich.CloseAnalyseInfo -> Lib.Invocation<()>): (r: Lib.Outcome<()>)
    ensures r.Completes? <==>
      info.structSize == Ffi.SizeOf(Ffi.CloseAnalyseInfoKind) && closeAnalyse(Rich.CloseAnalyseInfo(info.handle)).Returned?
  {
    if info.structSize != Ffi.SizeOf(Ffi.CloseAnalyseInfoKind) then Lib.Aborts
    else
      match closeAnalyse(Rich.CloseAnalyseInfo(info.handle))
      case Returned(_) => Lib.Completes(())
      case Panicked(_) => Lib.Aborts
  }

  /** With the intended check, a well-formed struct reaches the plugin, which is given the host's handle. */
  lemma CloseAnalyseWCompletes(info: Ffi.CloseAnalyseInfo, closeAnalyse: Rich.CloseAnalyseInfo -> Lib.Invocation<()>)
    requires info.structSize == Ffi.SizeOf(Ffi.CloseAnalyseInfoKind)
    requires forall i :: closeAnalyse(i).Returned?
    ensures CloseAnalyseW(info, closeAnalyse) == Lib.Completes(())
  {
    assert closeAnalyse(Rich.CloseAnalyseInfo(info.handle)).Returned?;
  }

  /**
   * `CompareW`: -1, 0, 1 for the plugin's order and -2 when it has none. A wrong
   * `struct_size` or a panic is not contained: the `Err` arm calls `unimplemented!()`.
   */
  function CompareW(info: Ffi.CompareInfo, compare: Rich.CompareInfo -> Lib.Invocation<Option<Rich.Ordering>>): (r: Lib.Outcome<int>)
    requires info.structSize == Ffi.SizeOf(Ffi.CompareInfoKind) ==> info.item1.fileName.Some? && info.item2.fileName.Some?
    ensures r.Completes? <==>
      info.structSize == Ffi.SizeOf(Ffi.CompareInfoKind)
      && compare(Rich.CompareInfo(info.hPanel, FromRaw(info.item1), FromRaw(info.item2), info.mode)).Returned?
    ensures r.Completes? ==>
      r.value == OrderingCode(compare(Rich.CompareInfo(info.hPanel, FromRaw(info.item1), FromRaw(info.item2), info.mode)).value)
    ensures r.Completes? ==> -2 <= r.value <= 1
  {
    if info.structSize != Ffi.SizeOf(Ffi.CompareInfoKind) then Lib.Aborts
    else
      match compare(Rich.CompareInfo(info.hPanel, FromRaw(info.item1), FromRaw(info.item2), info.mode))
      case Returned(o) => Lib.Completes(OrderingCode(o))
      case Panicked(_) => Lib.Aborts
  }

  /** The trait's default `compare` (no order) makes a well-formed `CompareW` return -2. */
  lemma CompareWDefault(info: Ffi.CompareInfo)
    requires info.structSize == Ffi.SizeOf(Ffi.CompareInfoKind)
    requires info.item1.fileName.Some? && info.item2.fileName.Some?
    ensures CompareW(info, _ => Lib.Returned(None)) == Lib.Completes(-2)
  {
  }

  /** `PutFilesW`: the plugin's code, or 0 for an `Err`, a panic or a wrong `struct_size`. */
  function PutFilesW(info: Ffi.PutFilesInfo, putFiles: Rich.PutFilesInfo -> Lib.Invocation<Result<Rich.PutFilesReturnCode, Lib.Error>>): (code: int)
    requires info.structSize == Ffi.SizeOf(Ffi.PutFilesInfoKind) ==>
      ReadableItems(info.panelItem, info.itemsNumber) && info.srcPath.Some?
    ensures code in {0, 1, 2, -1}
    ensures code != 0 <==>
      info.structSize == Ffi.SizeOf(Ffi.PutFilesInfoKind)
      && putFiles(PutFilesInfoFrom(info)).Returned? && putFiles(PutFilesInfoFrom(info)).value.Ok?
    ensures code != 0 ==> code == Rich.PutFilesCode(putFiles(PutFilesInfoFrom(info)).value.value)
  {
    if info.structSize != Ffi.SizeOf(Ffi.PutFilesInfoKind) then 0
    else
      match putFiles(PutFilesInfoFrom(info))
      case Returned(Ok(c)) => Rich.PutFilesCode(c)
      case Returned(Err(_)) => 0
      case Panicked(_) => 0
  }

  /** `ProcessPanelEventW`: 1 when the plugin handled the event, else 0. */
  function ProcessPanelEventW(info: Ffi.ProcessPanelEventInfo, processPanelEvent: Rich.ProcessPanelEventInfo -> Lib.Invocation<bool>): (code: int)
    requires info.structSize == Ffi.SizeOf(Ffi.ProcessPanelEventInfoKind) ==> WellFormedEvent(info)
    ensures code == 1 <==>
      info.structSize == Ffi.SizeOf(Ffi.ProcessPanelEventInfoKind)
      && processPanelEvent(ProcessPanelEventInfoFrom(info)) == Lib.Returned(true)
    ensures code == 0 || code == 1
  {
    if info.structSize != Ffi.SizeOf(Ffi.ProcessPanelEventInfoKind) then 0
    else BoolCode(processPanelEvent(ProcessPanelEventInfoFrom(info)))
  }

  /** `ProcessHostFileW`: 1 when the plugin processed the host file, else 0. */
  function ProcessHostFileW(info: Ffi.ProcessHostFileInfo, processHostFile: Rich.ProcessHostFileInfo -> Lib.Invocation<bool>): (code: int)
    requires info.structSize == Ffi.SizeOf(Ffi.ProcessHostFileInfoKind) ==> ReadableItems(info.panelItem, info.itemsNumber)
    ensures code == 1 <==>
      info.structSize == Ffi.SizeOf(Ffi.ProcessHostFileInfoKind)
      && processHostFile(ProcessHostFileInfoFrom(info)) == Lib.Returned(true)
    ensures code == 0 || code == 1
  {
    if info.structSize != Ffi.SizeOf(Ffi.ProcessHostFileInfoKind) then 0
    else BoolCode(processHostFile(ProcessHostFileInfoFrom(info)))
  }

  /** `ProcessPanelInputW`: 1 when the plugin consumed the input, else 0. */
  function ProcessPanelInputW(info: Ffi.ProcessPanelInputInfo, processPanelInput: Rich.ProcessPanelInputInfo -> Lib.Invocation<bool>): (code: int)
    ensures code == 1 <==>
      info.structSize == Ffi.SizeOf(Ffi.ProcessPanelInputInfoKind)
      && processPanelInput(Rich.ProcessPanelInputInfo(info.hPanel, info.rec)) == Lib.Returned(true)
    ensures code == 0 || code == 1
  {
    if info.structSize != Ffi.SizeOf(Ffi.ProcessPanelInputInfoKind) then 0
    else BoolCode(processPanelInput(ProcessPanelInputInfoFrom(info)))
  }

  /** `SetFindListW`: 1 when the plugin accepted the list, else 0. */
  function SetFindListW(info: Ffi.SetFindListInfo, setFindList: Rich.SetFindListInfo -> Lib.Invocation<bool>): (code: int)
    requires info.structSize == Ffi.SizeOf(Ffi.SetFindListInfoKind) ==> ReadableItems(info.panelItem, info.itemsNumber)
    ensures code == 1 <==>
      info.structSize == Ffi.SizeOf(Ffi.SetFindListInfoKind)
      && setFindList(SetFindListInfoFrom(info)) == Lib.Returned(true)
    ensures code == 0 || code == 1
  {
    if info.structSize != Ffi.SizeOf(Ffi.SetFindListInfoKind) then 0
    else BoolCode(setFindList(SetFindListInfoFrom(info)))
  }

  /**
   * `FreeFindDataW`: the handle the bindings try to pass to the plugin's `free_find_data`;
   * nothing when the `struct_size` check fails. A missing plugin, a plugin without panel
   * exports (`unimplemented!()`) and a panic in the plugin all panic inside `catch_unwind`
   * and are swallowed, so `notified` does not say the plugin was reached.
   */
  function FreeFindDataW(info: Ffi.FreeFindDataInfo): (notified: Option<Ffi.Handle>)
    ensures notified.Some? <==> info.structSize == Ffi.SizeOf(Ffi.FreeFindDataInfoKind)
    ensures notified.Some? ==> notified.value == info.hPanel
  {
    if info.structSize == Ffi.SizeOf(Ffi.FreeFindDataInfoKind) then Some(info.hPanel) else None
  }

  // ---------------------------------------------------------------- exports with state

  /**
   * `DeleteFilesW`: converts the host's items one by one, hands them to the plugin and
   * returns 1 for `Ok`, 0 for `Err`, a panic or a wrong `struct_size`.
   */
  method DeleteFilesW(info: Ffi.DeleteFilesInfo, deleteFiles: Rich.DeleteFilesInfo -> Lib.Invocation<Result<(), Lib.Error>>)
    returns (code: int)
    requires info.structSize == Ffi.SizeOf(Ffi.DeleteFilesInfoKind) ==> ReadableItems(info.panelItem, info.itemsNumber)
    ensures code == 0 || code == 1
    ensures code == 1 <==>
      info.structSize == Ffi.SizeOf(Ffi.DeleteFilesInfoKind)
      && deleteFiles(Rich.DeleteFilesInfo(info.hPanel, RichItems(info.panelItem, info.itemsNumber), info.opMode)).Returned?
      && deleteFiles(Rich.DeleteFilesInfo(info.hPanel, RichItems(info.panelItem, info.itemsNumber), info.opMode)).value.Ok?
  {
    if info.structSize != Ffi.SizeOf(Ffi.DeleteFilesInfoKind) {
      return 0;
    }
    var items := ConvertRawItems(info.panelItem, info.itemsNumber);
    var deleteResult := deleteFiles(Rich.DeleteFilesInfo(info.hPanel, items, info.opMode));
    match deleteResult
    case Returned(Ok(_)) => code := 1;
    case Returned(Err(_)) => code := 0;
    case Panicked(_) => code := 0;
  }

  /**
   * `GetFindDataW`: on the plugin's `Ok`, gets or creates the panel entry of the handle and
   * gives the host the flat items; 1 then, 0 for an `Err`, a panic, a wrong `struct_size` or
   * a missing context.
   */
  method GetFindDataW(
    info: Ffi.GetFindDataInfo, ctx: PanelCtx.Context?,
    getFindData: Rich.GetFindDataInfo -> Lib.Invocation<Result<W.PluginPanelItems, Lib.Error>>)
    returns (code: int, out: Ffi.GetFindDataInfo)
    requires ctx != null ==> ctx.Valid()
    modifies ctx
    ensures ctx != null ==> ctx.Valid()
    ensures code == 0 || code == 1
    ensures code == 1 <==>
      info.structSize == Ffi.SizeOf(Ffi.GetFindDataInfoKind) && ctx != null
      && getFindData(Rich.GetFindDataInfo(info.hPanel, info.opMode)).Returned?
      && getFindData(Rich.GetFindDataInfo(info.hPanel, info.opMode)).value.Ok?
    ensures code == 1 ==>
      out == PanelCtx.EnrichGetFindDataInfo(info, getFindData(Rich.GetFindDataInfo(info.hPanel, info.opMode)).value.value)
      && ctx.activePanels == PanelCtx.WithPanel(old(ctx.activePanels), info.hPanel)
    ensures code == 0 ==> out == info && (ctx != null ==> ctx.activePanels == old(ctx.activePanels))
  {
    out := info;
    code := 0;
    if info.structSize != Ffi.SizeOf(Ffi.GetFindDataInfoKind) {
      return;
    }
    var handle := info.hPanel;
    var panelItems := getFindData(Rich.GetFindDataInfo(handle, info.opMode));
    if panelItems.Returned? && panelItems.value.Ok? && ctx != null {
      var panel := ctx.Panel(handle);
      out := PanelCtx.EnrichGetFindDataInfo(info, panelItems.value.value);
      code := 1;
    }
  }

  /**
   * `MakeDirectoryW`. The context is entered first and the `struct_size` checked; the panel
   * entry of the handle is then got or created, and the plugin may edit the name. Outside
   * silent mode the (edited) name is stored in the entry and the host's name pointer is
   * redirected to that copy, with `Ok` and with `Err`; the result is 1 on `Ok`. In silent
   * mode the result is the plugin's code. `Err`, a panic, a wrong size or a missing context
   * give 0.
   */
  method MakeDirectoryW(
    info: Ffi.MakeDirectoryInfo, ctx: PanelCtx.Context?,
    makeDirectory: Rich.MakeDirectoryInfo -> Lib.Invocation<(Rich.MakeDirectoryInfo, Result<Lib.ReturnCode, Lib.Error>)>)
    returns (code: int, out: Ffi.MakeDirectoryInfo)
    requires ctx != null ==> ctx.Valid()
    requires info.structSize == Ffi.SizeOf(Ffi.MakeDirectoryInfoKind) ==> info.name.Some?
    modifies ctx
    ensures ctx != null ==> ctx.Valid()
    ensures ctx == null || info.structSize != Ffi.SizeOf(Ffi.MakeDirectoryInfoKind) ==>
      code == 0 && out == info && (ctx != null ==> ctx.activePanels == old(ctx.activePanels))
    ensures ctx != null && info.structSize == Ffi.SizeOf(Ffi.MakeDirectoryInfoKind) ==>
      var entries := PanelCtx.WithPanel(old(ctx.activePanels), info.hPanel);
      var silent := info.opMode & Ffi.OPM_SILENT != 0;
      match makeDirectory(MakeDirectoryInfoFrom(info))
      case Panicked(_) => code == 0 && out == info && ctx.activePanels == entries
      case Returned((dirInfo, result)) =>
        && code == (if result.Err? then 0 else if silent then Lib.ReturnCodeValue(result.value) else 1)
        && (silent ==> out == info && ctx.activePanels == entries)
        && (!silent ==>
              && out == info.(name := AsPtr(FromStr(dirInfo.name)))
              && ctx.activePanels == entries[info.hPanel := entries[info.hPanel].(makeDirectoryName := Some(FromStr(dirInfo.name)))])
  {
    code := 0;
    out := info;
    if ctx == null || info.structSize != Ffi.SizeOf(Ffi.MakeDirectoryInfoKind) {
      return;
    }
    var dirInfo := MakeDirectoryInfoFrom(info);
    var panel := ctx.Panel(info.hPanel);
    var silentMode := info.opMode & Ffi.OPM_SILENT != 0;
    var makeDirectoryResult := makeDirectory(dirInfo);
    match makeDirectoryResult
    case Panicked(_) =>
    case Returned((edited, result)) =>
      if !silentMode {
        var name := ctx.SetMakeDirectoryName(info.hPanel, edited.name);
        out := out.(name := name);
      }
      code := match result
        case Ok(c) => if silentMode then Lib.ReturnCodeValue(c) else Lib.ReturnCodeValue(Lib.Success)
        case Err(_) => 0;
  }

  /** What `MakeDirectoryW`'s result can be: 0, the plugin's code in silent mode, and 1 otherwise. */
  lemma MakeDirectoryCodes(silent: bool, result: Result<Lib.ReturnCode, Lib.Error>)
    ensures (if result.Err? then 0 else if silent then Lib.ReturnCodeValue(result.value) else 1) in {0, 1, -1}
    ensures !silent && result.Ok? ==> (if result.Err? then 0 else if silent then Lib.ReturnCodeValue(result.value) else 1) == 1
  {
  }

  /**
   * The raw items after `GetFilesW`'s write-back: item `i` takes the flags of the plugin's item
   * `i` when the plugin's list has one; nothing else changes.
   */
  function FlagsWrittenBack(raw: seq<Ffi.PluginPanelItem>, rich: seq<Rich.PluginPanelItem>): (r: seq<Ffi.PluginPanelItem>)
    ensures |r| == |raw|
    ensures forall i :: 0 <= i < |raw| ==> r[i].(flags := raw[i].flags) == raw[i]
    ensures forall i :: 0 <= i < |raw| && i < |rich| ==> r[i].flags == rich[i].flags
    ensures forall i :: 0 <= i < |raw| && |rich| <= i ==> r[i] == raw[i]
  {
    seq(|raw|, i requires 0 <= i < |raw| => if i < |rich| then raw[i].(flags := rich[i].flags) else raw[i])
  }

  /** The `GetFilesInfo` the plugin is given for the host's struct and items. */
  function GetFilesInfoFrom(info: Ffi.GetFilesInfo, raw: seq<Ffi.PluginPanelItem>): (r: Rich.GetFilesInfo)
    requires |raw| == info.itemsNumber && ReadableItems(raw, |raw|) && info.destPath.Some?
    ensures r.panel == info.hPanel && r.itemsNumber == info.itemsNumber && r.opMode == info.opMode
    ensures r.moveFile <==> info.moveFile != 0
    ensures r.destPath == RawText(info.destPath)
    ensures r.panelItems == RichItems(raw, |raw|)
  {
    Rich.GetFilesInfo(info.hPanel, RichItems(raw, |raw|), info.itemsNumber, info.moveFile != 0, RawText(info.destPath), info.opMode)
  }

  /**
   * `GetFilesW`: converts the host's items, lets the plugin work on the `GetFilesInfo` and,
   * on `Ok`, copies the flags of the plugin's items back into the host's array, index by
   * index. `Err`, a panic and a wrong `struct_size` give 0 and leave the array alone.
   */
  method GetFilesW(
    info: Ffi.GetFilesInfo, items: array<Ffi.PluginPanelItem>,
    getFiles: Rich.GetFilesInfo -> Lib.Invocation<(Rich.GetFilesInfo, Result<Lib.ReturnCode, Lib.Error>)>)
    returns (code: int)
    requires info.structSize == Ffi.SizeOf(Ffi.GetFilesInfoKind) ==>
      items.Length == info.itemsNumber && ReadableItems(items[..], items.Length) && info.destPath.Some?
    modifies items
    ensures info.structSize != Ffi.SizeOf(Ffi.GetFilesInfoKind) ==> code == 0 && items[..] == old(items[..])
    ensures info.structSize == Ffi.SizeOf(Ffi.GetFilesInfoKind) ==>
      match getFiles(GetFilesInfoFrom(info, old(items[..])))
      case Returned((edited, Ok(c))) => code == Lib.ReturnCodeValue(c) && items[..] == FlagsWrittenBack(old(items[..]), edited.panelItems)
      case _ => code == 0 && items[..] == old(items[..])
  {
    if info.structSize != Ffi.SizeOf(Ffi.GetFilesInfoKind) {
      return 0;
    }
    var richItems := ReadRawItems(items);
    var getFilesInfo := Rich.GetFilesInfo(
      info.hPanel, richItems, info.itemsNumber, info.moveFile != 0, RawText(info.destPath), info.opMode);
    var getFilesResult := getFiles(getFilesInfo);
    if getFilesResult.Panicked? || getFilesResult.value.1.Err? {
      return 0;
    }
    code := Lib.ReturnCodeValue(getFilesResult.value.1.value);
    WriteBackFlags(items, getFilesResult.value.0.panelItems);
  }

  /** `GetFilesW`'s first pass: the host's items converted, index by index. */
  method ReadRawItems(items: array<Ffi.PluginPanelItem>) returns (richItems: seq<Rich.PluginPanelItem>)
    requires ReadableItems(items[..], items.Length)
    ensures richItems == RichItems(items[..], items.Length)
  {
    richItems := [];
    var i := 0;
    while i < items.Length
      invariant 0 <= i <= items.Length
      invariant |richItems| == i
      invariant forall j :: 0 <= j < i ==> richItems[j] == FromRaw(items[j])
    {
      richItems := richItems + [GetFilesItem(items[i])];
      i := i + 1;
    }
  }

  /** `GetFilesW`'s write-back pass: the plugin's flags copied into the host's array. */
  method WriteBackFlags(items: array<Ffi.PluginPanelItem>, rich: seq<Rich.PluginPanelItem>)
    modifies items
    ensures items[..] == FlagsWrittenBack(old(items[..]), rich)
  {
    ghost var raw := items[..];
    var i := 0;
    while i < items.Length
      invariant 0 <= i <= items.Length
      invariant items[..i] == FlagsWrittenBack(raw, rich)[..i]
      invariant items[i..] == raw[i..]
    {
      if i < |rich| {
        items[i] := items[i].(flags := rich[i].flags);
      }
      i := i + 1;
    }
    assert items[..] == items[..items.Length];
  }

  /**
   * `GetOpenPanelInfoW`: asks the plugin for the panel's information and, through the
   * panel entry of the handle (created if missing), fills the host's struct from it.
   */
  method GetOpenPanelInfoW(
    info: Ffi.OpenPanelInfo, ctx: PanelCtx.Context?,
    getOpenPanelInfo: Ffi.Handle -> Lib.Invocation<Rich.OpenPanelInfo>)
    returns (out: Ffi.OpenPanelInfo)
    requires ctx != null ==> ctx.Valid()
    modifies ctx
    ensures ctx != null ==> ctx.Valid()
    ensures
      if info.structSize == Ffi.SizeOf(Ffi.OpenPanelInfoKind) && ctx != null && getOpenPanelInfo(info.hPanel).Returned? then
        var entries := PanelCtx.WithPanel(old(ctx.activePanels), info.hPanel);
        var src := getOpenPanelInfo(info.hPanel).value;
        && ctx.activePanels == entries[info.hPanel := PanelCtx.EnrichedPanel(entries[info.hPanel], src)]
        && out == PanelCtx.EnrichedInfo(info, ctx.activePanels[info.hPanel], src)
      else
        out == info && (ctx != null ==> ctx.activePanels == old(ctx.activePanels))
  {
    out := info;
    if info.structSize != Ffi.SizeOf(Ffi.OpenPanelInfoKind) {
      return;
    }
    var hPanel := info.hPanel;
    var openPanelInfo := getOpenPanelInfo(hPanel);
    if openPanelInfo.Returned? && ctx != null {
      out := ctx.EnrichOpenPanelInfo(info, hPanel, openPanelInfo.value);
    }
  }

  /**
   * `ClosePanelW`: removes the handle's entry from the context, then tells the plugin; the
   * result is the handle the bindings try to pass to the plugin's `close_panel`. A missing
   * context panics before the plugin is reached. A missing plugin, a plugin without panel
   * exports (`unimplemented!()`) or a panic in the plugin panic after the entry is removed and
   * are swallowed, so `notified` does not say the plugin was reached.
   */
  method ClosePanelW(info: Ffi.ClosePanelInfo, ctx: PanelCtx.Context?) returns (notified: Option<Ffi.Handle>)
    requires ctx != null ==> ctx.Valid()
    modifies ctx
    ensures ctx != null ==> ctx.Valid()
    ensures notified.Some? <==> info.structSize == Ffi.SizeOf(Ffi.ClosePanelInfoKind) && ctx != null
    ensures notified.Some? ==> notified.value == info.hPanel && ctx.activePanels == old(ctx.activePanels) - {info.hPanel}
    ensures notified.None? && ctx != null ==> ctx.activePanels == old(ctx.activePanels)
  {
    if info.structSize != Ffi.SizeOf(Ffi.ClosePanelInfoKind) || ctx == null {
      return None;
    }
    ctx.RemovePanel(info.hPanel);
    notified := Some(info.hPanel);
  }

  /**
   * `SetDirectoryW`: asks the plugin to change directory and, on `Ok`, records the path as the
   * current directory of the handle's entry (created if missing); 1 then, otherwise 0.
   */
  method SetDirectoryW(
    info: Ffi.SetDirectoryInfo, ctx: PanelCtx.Context?,
    setDirectory: (Ffi.Handle, string) -> Lib.Invocation<Result<(), Lib.Error>>)
    returns (code: int)
    requires ctx != null ==> ctx.Valid()
    requires info.structSize == Ffi.SizeOf(Ffi.SetDirectoryInfoKind) ==> info.dir.Some?
    modifies ctx
    ensures ctx != null ==> ctx.Valid()
    ensures code == 0 || code == 1
    ensures code == 1 <==>
      info.structSize == Ffi.SizeOf(Ffi.SetDirectoryInfoKind) && ctx != null
      && setDirectory(info.hPanel, RawText(info.dir)).Returned? && setDirectory(info.hPanel, RawText(info.dir)).value.Ok?
    ensures code == 1 ==>
      var entries := PanelCtx.WithPanel(old(ctx.activePanels), info.hPanel);
      ctx.activePanels == entries[info.hPanel := PanelCtx.SetCurrentDirectory(entries[info.hPanel], RawText(info.dir))]
    ensures code == 0 && ctx != null ==> ctx.activePanels == old(ctx.activePanels)
  {
    code := 0;
    if info.structSize != Ffi.SizeOf(Ffi.SetDirectoryInfoKind) {
      return;
    }
    var handle := info.hPanel;
    var path := RawText(info.dir);
    var setDirectoryResult := setDirectory(handle, path);
    if setDirectoryResult.Returned? && setDirectoryResult.value.Ok? && ctx != null {
      ctx.SetPanelCurrentDirectory(handle, path);
      code := 1;
    }
  }

  // ---------------------------------------------------------------- directory lists

  /** The host calls `get_dir_list` and `get_plugin_dir_list` make, in order. */
  datatype HostCall =
    | GetDirListCall(dir: WideString)
    | FreeDirListCall(itemsNumber: nat)
    | GetPluginDirListCall(pluginId: Ffi.Guid, hPanel: Ffi.Handle, dir: WideString)
    | FreePluginDirListCall(hPanel: Ffi.Handle, itemsNumber: nat)

  /** The host's answer to a directory-list request: its return code, the list and its length. */
  datatype DirListReply = DirListReply(returnCode: int, panelItems: seq<Ffi.PluginPanelItem>, itemsNumber: nat)

  /** A nonzero reply delivers a list the conversion can read. */
  predicate ReadableReply(reply: DirListReply) {
    reply.returnCode != 0 ==> ReadableItems(reply.panelItems, reply.itemsNumber)
  }

  const DIR_LIST_ERROR: Lib.Error := Lib.Error("")

  /**
   * `get_dir_list`: asks the host for the items of `dir`; a return code of 0 is an `Err`.
   * Otherwise each host item is converted, in order, and then the host's list is freed. Without
   * an API table `far_api` panics.
   */
  method GetDirList(rt: Lib.Runtime, dir: string, reply: DirListReply)
    returns (r: Result<Result<seq<Rich.PluginPanelItem>, Lib.Error>, Panic>, calls: seq<HostCall>)
    requires ReadableReply(reply)
    ensures rt.farApi.None? ==> r == Err(Panic(Lib.PLUGIN_NOT_INITIALIZED)) && calls == []
    ensures rt.farApi.Some? && reply.returnCode == 0 ==>
      r == Ok(Err(DIR_LIST_ERROR)) && calls == [GetDirListCall(FromStr(dir))]
    ensures rt.farApi.Some? && reply.returnCode != 0 ==>
      r == Ok(Ok(RichItems(reply.panelItems, reply.itemsNumber)))
      && calls == [GetDirListCall(FromStr(dir)), FreeDirListCall(reply.itemsNumber)]
  {
    calls := [];
    var api := rt.FarApi();
    if api.Err? {
      return Err(api.error), calls;
    }
    var dirWs := FromStr(dir);
    calls := calls + [GetDirListCall(dirWs)];
    if reply.returnCode == 0 {
      return Ok(Err(DIR_LIST_ERROR)), calls;
    }
    var items := ConvertRawItems(reply.panelItems, reply.itemsNumber);
    calls := calls + [FreeDirListCall(reply.itemsNumber)];
    r := Ok(Ok(items));
  }

  /** `get_plugin_dir_list`: the same steps through the plugin-list entry points of the host. */
  method GetPluginDirList(rt: Lib.Runtime, pluginId: Ffi.Guid, hPanel: Ffi.Handle, dir: string, reply: DirListReply)
    returns (r: Result<Result<seq<Rich.PluginPanelItem>, Lib.Error>, Panic>, calls: seq<HostCall>)
    requires ReadableReply(reply)
    ensures rt.farApi.None? ==> r == Err(Panic(Lib.PLUGIN_NOT_INITIALIZED)) && calls == []
    ensures rt.farApi.Some? && reply.returnCode == 0 ==>
      r == Ok(Err(DIR_LIST_ERROR)) && calls == [GetPluginDirListCall(pluginId, hPanel, FromStr(dir))]
    ensures rt.farApi.Some? && reply.returnCode != 0 ==>
      r == Ok(Ok(RichItems(reply.panelItems, reply.itemsNumber)))
      && calls == [GetPluginDirListCall(pluginId, hPanel, FromStr(dir)), FreePluginDirListCall(hPanel, reply.itemsNumber)]
  {
    calls := [];
    var api := rt.FarApi();
    if api.Err? {
      return Err(api.error), calls;
    }
    var dirWs := FromStr(dir);
    calls := calls + [GetPluginDirListCall(pluginId, hPanel, dirWs)];
    if reply.returnCode == 0 {
      return Ok(Err(DIR_LIST_ERROR)), calls;
    }
    var items := ConvertRawItems(reply.panelItems, reply.itemsNumber);
    calls := calls + [FreePluginDirListCall(hPanel, reply.itemsNumber)];
    r := Ok(Ok(items));
  }
}
