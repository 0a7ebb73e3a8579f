/**
 * The rich panel records the plugin sees (`farmanager/src/panel.rs`): owned texts instead of
 * wide-string pointers, options instead of null, and the `FILE_ATTRIBUTES` bit set.
 */
module PanelTypes {
  import opened Wrappers
  import Ffi

  // ---------------------------------------------------------------- FILE_ATTRIBUTES

  const READONLY: bv64 := 0x00000001
  const HIDDEN: bv64 := 0x00000002
  const SYSTEM: bv64 := 0x00000004
  const DIRECTORY: bv64 := 0x00000010
  const ARCHIVE: bv64 := 0x00000020
  const NORMAL: bv64 := 0x00000080
  const TEMPORARY: bv64 := 0x00000100
  const SPARSE_FILE: bv64 := 0x00000200
  const REPARSE_POINT: bv64 := 0x00000400
  const COMPRESSED: bv64 := 0x00000800
  const OFFLINE: bv64 := 0x00001000
  const NOT_CONTENT_INDEXED: bv64 := 0x00002000
  const ENCRYPTED: bv64 := 0x00004000
  const VIRTUAL: bv64 := 0x00010000

  /** `FILE_ATTRIBUTES::all()`: the union of the declared attribute bits. */
  const ALL_ATTRIBUTES: bv64 := 0x17FB7

  /** A `FILE_ATTRIBUTES` value: no bit outside the declared ones. */
  type FileAttributes = a: bv64 | a & !ALL_ATTRIBUTES == 0

  /** `ALL_ATTRIBUTES` is exactly the union of the fourteen declared flags. */
  lemma AllAttributesIsUnion()
    ensures ALL_ATTRIBUTES == READONLY | HIDDEN | SYSTEM | DIRECTORY | ARCHIVE | NORMAL | TEMPORARY
                              | SPARSE_FILE | REPARSE_POINT | COMPRESSED | OFFLINE
                              | NOT_CONTENT_INDEXED | ENCRYPTED | VIRTUAL
  {
  }

  /** `from_bits_truncate`: keeps the declared bits and drops the others. */
  function FromBitsTruncate(bits: bv64): (a: FileAttributes)
    ensures a & ALL_ATTRIBUTES == bits & ALL_ATTRIBUTES
  {
    bits & ALL_ATTRIBUTES
  }

  /** Truncating a value that has only declared bits gives the value itself. */
  lemma TruncateKeepsDeclared(bits: bv64)
    requires bits & !ALL_ATTRIBUTES == 0
    ensures FromBitsTruncate(bits) == bits
  {
  }

  /** `from_bits`: the value itself when it has only declared bits, `None` otherwise. */
  function FromBits(bits: bv64): (a: Option<FileAttributes>)
    ensures a.Some? <==> bits & !ALL_ATTRIBUTES == 0
    ensures a.Some? ==> a.value == bits
  {
    if bits & !ALL_ATTRIBUTES == 0 then Some(bits) else None
  }

  // ---------------------------------------------------------------- records

  datatype PluginPanelItem = PluginPanelItem(
    creationTime: Ffi.FileTime, lastAccessTime: Ffi.FileTime,
    lastWriteTime: Ffi.FileTime, changeTime: Ffi.FileTime,
    fileSize: Ffi.U64, allocationSize: Ffi.U64,
    fileName: string, alternateFileName: Option<string>, description: Option<string>, owner: Option<string>,
    flags: bv64, fileAttributes: FileAttributes, numberOfLinks: Ffi.U64, crc32: Ffi.U64)

  datatype InfoPanelLine = InfoPanelLine(text: string, data: string, flags: bv64)

  /** `OPENPANELINFO_SORTORDERS` */
  datatype SortOrder = ASC | DESC

  datatype PanelMode = PanelMode(
    columnTypes: string, columnWidths: string, columnTitles: seq<string>,
    statusColumnTypes: string, statusColumnWidths: string, flags: bv64)

  datatype KeyBarLabel = KeyBarLabel(key: Ffi.FarKey, text: string, longText: string)

  datatype OpenPanelInfo = OpenPanelInfo(
    flags: bv64, hostFile: Option<string>, curDir: string, format: Option<string>, panelTitle: string,
    infoLines: seq<InfoPanelLine>, descrFiles: Option<seq<string>>, panelModesArray: seq<PanelMode>,
    startPanelMode: nat, startSortMode: int, startSortOrder: SortOrder,
    keyBar: Option<seq<KeyBarLabel>>, shortcutData: Option<string>, freeSize: Ffi.U64)

  datatype AnalyseInfo = AnalyseInfo(fileName: string, buffer: seq<bv8>, opMode: bv64)

  datatype CloseAnalyseInfo = CloseAnalyseInfo(handle: Ffi.Handle)

  datatype FarPanelDirectory = FarPanelDirectory(name: string, pluginId: Ffi.Guid, file: string)

  datatype GetFindDataInfo = GetFindDataInfo(handle: Ffi.Handle, opMode: bv64)

  datatype CompareInfo = CompareInfo(panel: Ffi.Handle, item1: PluginPanelItem, item2: PluginPanelItem, opMode: int)

  datatype DeleteFilesInfo = DeleteFilesInfo(panel: Ffi.Handle, panelItems: seq<PluginPanelItem>, opMode: bv64)

  datatype GetFilesInfo = GetFilesInfo(
    panel: Ffi.Handle, panelItems: seq<PluginPanelItem>, itemsNumber: nat,
    moveFile: bool, destPath: string, opMode: bv64)

  datatype MakeDirectoryInfo = MakeDirectoryInfo(panel: Ffi.Handle, name: string, opMode: bv64)

  /** A `DWORD`: 32 bits, unsigned. */
  type Dword = x: int | 0 <= x < 0x1_0000_0000

  datatype PanelEvent =
    | ChangeViewMode(mode: string)
    | Redraw
    | Idle
    | Close
    | Break(code: Dword)
    | Command(command: string)
    | GotFocus
    | KillFocus
    | ChangeSortParams

  datatype ProcessPanelEventInfo = ProcessPanelEventInfo(event: PanelEvent, hPanel: Ffi.Handle)

  datatype ProcessHostFileInfo = ProcessHostFileInfo(hPanel: Ffi.Handle, panelItem: seq<PluginPanelItem>, opMode: bv64)

  datatype ProcessPanelInputInfo = ProcessPanelInputInfo(hPanel: Ffi.Handle, record: Ffi.InputRecord)

  datatype PutFilesInfo = PutFilesInfo(
    panel: Ffi.Handle, panelItem: seq<PluginPanelItem>, moveFile: bool, srcPath: string, opMode: bv64)

  datatype SetFindListInfo = SetFindListInfo(hPanel: Ffi.Handle, panelItem: seq<PluginPanelItem>)

  /** `Panel`: `Active`, `Passive`, `Handle(h)` and `None` are `Active`, `Passive`, `OfHandle(h)` and `NoPanel`. */
  datatype Panel = Active | Passive | OfHandle(handle: Ffi.Handle) | NoPanel

  /** `PutFilesReturnCode`: `Success`, `SuccessNoFileSelect` and `UserCancel`. */
  datatype PutFilesReturnCode = PutSuccess | SuccessNoFileSelect | PutUserCancel

  /** The discriminants of `PutFilesReturnCode`, which `code as intptr_t` returns to the host. */
  function PutFilesCode(c: PutFilesReturnCode): (n: int)
    ensures n in {1, 2, -1}
    ensures c.PutSuccess? <==> n == 1
    ensures c.SuccessNoFileSelect? <==> n == 2
  {
    match c
    case PutSuccess => 1
    case SuccessNoFileSelect => 2
    case PutUserCancel => -1
  }

  /** `std::cmp::Ordering` */
  datatype Ordering = Less | Equal | Greater
}
