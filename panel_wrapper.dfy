/**
 * Rich panel records turned into the flat host structs (`farmanager/src/panel/wrapper.rs`):
 * each wrapper owns the wide strings its inner struct points at.
 */
module PanelWrapper {
  import opened Wrappers
  import opened Utf16
  import Ffi
  import opened WideStr
  import CommonFfi
  import Rich = PanelTypes

  /** A flat panel item together with the owned strings its pointers address. */
  datatype PluginPanelItem = PluginPanelItem(
    inner: Ffi.PluginPanelItem, fileName: WideString,
    alternateFileName: Option<WideString>, description: Option<WideString>, owner: Option<WideString>)

  /** `as_inner` */
  function AsInner(item: PluginPanelItem): Ffi.PluginPanelItem {
    item.inner
  }

  /** Writing through `as_mut_inner`: the inner struct is replaced, the owned strings stay. */
  function WithInner(item: PluginPanelItem, inner: Ffi.PluginPanelItem): (r: PluginPanelItem)
    ensures AsInner(r) == inner
    ensures r.fileName == item.fileName && r.alternateFileName == item.alternateFileName
    ensures r.description == item.description && r.owner == item.owner
  {
    item.(inner := inner)
  }

  /**
   * `From<&panel::PluginPanelItem>`: the names are copied into owned buffers; times, sizes and
   * attributes are copied; flags, custom columns, user data, link count and CRC are constants.
   */
  function FromRich(src: Rich.PluginPanelItem): (w: PluginPanelItem)
    ensures w.fileName == FromStr(src.fileName) && w.inner.fileName == AsPtr(w.fileName)
    ensures w.alternateFileName == FromOptStr(src.alternateFileName)
    ensures w.description == FromOptStr(src.description)
    ensures w.owner == FromOptStr(src.owner)
    ensures w.inner.alternateFileName.None? <==> src.alternateFileName.None?
    ensures w.inner.description.None? <==> src.description.None?
    ensures w.inner.owner.None? <==> src.owner.None?
    ensures w.inner.alternateFileName == AsPtrOrNull(w.alternateFileName)
    ensures w.inner.description == AsPtrOrNull(w.description)
    ensures w.inner.owner == AsPtrOrNull(w.owner)
    ensures w.inner.creationTime == src.creationTime && w.inner.lastAccessTime == src.lastAccessTime
    ensures w.inner.lastWriteTime == src.lastWriteTime && w.inner.changeTime == src.changeTime
    ensures w.inner.fileSize == src.fileSize && w.inner.allocationSize == src.allocationSize
    ensures w.inner.fileAttributes == src.fileAttributes
    ensures w.inner.flags == Ffi.PPIF_NONE
    ensures w.inner.customColumnData.None? && w.inner.customColumnNumber == 0
    ensures w.inner.userData == Ffi.NULL_USER_DATA
    ensures w.inner.numberOfLinks == 0 && w.inner.crc32 == 0
    ensures w.inner.reserved == [0, 0]
  {
    var fileName := FromStr(src.fileName);
    var alternateFileName := FromOptStr(src.alternateFileName);
    var description := FromOptStr(src.description);
    var owner := FromOptStr(src.owner);
    var inner := Ffi.PluginPanelItem(
      src.creationTime, src.lastAccessTime, src.lastWriteTime, src.changeTime,
      src.fileSize, src.allocationSize,
      AsPtr(fileName), AsPtrOrNull(alternateFileName), AsPtrOrNull(description), AsPtrOrNull(owner),
      None, 0, Ffi.PPIF_NONE, Ffi.NULL_USER_DATA,
      src.fileAttributes, 0, 0, [0, 0]);
    PluginPanelItem(inner, fileName, alternateFileName, description, owner)
  }

  /** What the host reads through each name pointer of a converted item is the encoding of the name. */
  lemma FromRichReadsBack(src: Rich.PluginPanelItem)
    ensures FromPtrStr(FromRich(src).inner.fileName).units == Encode(TextBeforeNul(src.fileName))
    ensures src.alternateFileName.Some? ==>
      FromPtrStr(FromRich(src).inner.alternateFileName).units == Encode(TextBeforeNul(src.alternateFileName.value))
    ensures src.description.Some? ==>
      FromPtrStr(FromRich(src).inner.description).units == Encode(TextBeforeNul(src.description.value))
    ensures src.owner.Some? ==>
      FromPtrStr(FromRich(src).inner.owner).units == Encode(TextBeforeNul(src.owner.value))
  {
    var w := FromRich(src);
    PointerRoundTrip(w.fileName);
    if src.alternateFileName.Some? { PointerRoundTrip(w.alternateFileName.value); }
    if src.description.Some? { PointerRoundTrip(w.description.value); }
    if src.owner.Some? { PointerRoundTrip(w.owner.value); }
  }

  /** A flat info-panel line together with its owned texts. */
  datatype InfoPanelLine = InfoPanelLine(inner: Ffi.InfoPanelLine, text: WideString, data: WideString)

  /** `as_inner` */
  function InfoPanelLineAsInner(line: InfoPanelLine): Ffi.InfoPanelLine {
    line.inner
  }

  /** `From<&panel::InfoPanelLine>`: owned copies of both texts, the flags as given. */
  function InfoPanelLineFrom(src: Rich.InfoPanelLine): (line: InfoPanelLine)
    ensures line.text == FromStr(src.text) && line.data == FromStr(src.data)
    ensures line.inner.text == AsPtr(line.text) && line.inner.data == AsPtr(line.data)
    ensures line.inner.flags == src.flags
  {
    var text := FromStr(src.text);
    var data := FromStr(src.data);
    InfoPanelLine(Ffi.InfoPanelLine(AsPtr(text), AsPtr(data), src.flags), text, data)
  }

  /** Both texts of a converted line read back as the source texts, cut at a NUL. */
  lemma InfoPanelLineReadsBack(src: Rich.InfoPanelLine)
    ensures ToStringLossy(FromPtrStr(InfoPanelLineFrom(src).inner.text)) == TextBeforeNul(src.text)
    ensures ToStringLossy(FromPtrStr(InfoPanelLineFrom(src).inner.data)) == TextBeforeNul(src.data)
  {
    var line := InfoPanelLineFrom(src);
    PointerRoundTrip(line.text);
    PointerRoundTrip(line.data);
    StrRoundTripWithNul(src.text);
    StrRoundTripWithNul(src.data);
  }

  /** The open-panel information a panel entry keeps: the flat struct and the buffers it points at. */
  datatype OpenPanelInfo = OpenPanelInfo(
    inner: Ffi.OpenPanelInfo,
    hostFile: Option<WideString>, curDir: WideString, format: Option<WideString>, panelTitle: WideString,
    infoLines: CommonFfi.Array<InfoPanelLine, Ffi.InfoPanelLine>, descrFiles: Option<WideStringArray>)

  /** `panel::PluginPanelItems`: the items a plugin returns from `get_find_data`. */
  datatype PluginPanelItemsData = PluginPanelItems(panelItems: CommonFfi.Array<PluginPanelItem, Ffi.PluginPanelItem>)

  /** Its array is only ever built by `Array::from`, so its two buffers are parallel. */
  type PluginPanelItems = r: PluginPanelItemsData | CommonFfi.Parallel(r.panelItems, AsInner)
    witness PluginPanelItems(CommonFfi.Array([], [], 0))

  /** `From<Vec<panel::PluginPanelItem>>`: one converted item per rich item, in order. */
  function PluginPanelItemsFrom(src: seq<Rich.PluginPanelItem>): (r: PluginPanelItems)
    ensures r.panelItems.len == |src|
    ensures forall i :: 0 <= i < |src| ==> r.panelItems.buf[i] == FromRich(src[i])
  {
    PluginPanelItems(CommonFfi.From(seq(|src|, i requires 0 <= i < |src| => FromRich(src[i])), AsInner))
  }
}
