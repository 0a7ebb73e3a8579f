/**
 * The host ABI of Far Manager 3 as the bindings declare it: constants, flag masks, the enums
 * the host passes by value, and the flat `repr(C)` structs. A struct is a datatype; a pointer
 * field is a `WPtr` (a wide string), an `Option` of the array it addresses, or an `Address`.
 */
module Ffi {
  import opened Wrappers
  import opened Utf16

  const TWO_64: int := 0x1_0000_0000_0000_0000

  /** Unsigned 64-bit values (`c_ulonglong`, `uintptr_t`, a pointer's address). */
  type U64 = x: int | 0 <= x < TWO_64

  /** Signed pointer-sized values (`intptr_t`, `isize`). */
  type ISize = x: int | -TWO_64 / 2 <= x < TWO_64 / 2

  /** An untyped pointer (`*const c_void`, `*mut c_void`) by its address; 0 is null. */
  type Address = U64
  const NULL: Address := 0

  /** A `HANDLE`, as the pointer-sized signed value the host passes around. */
  type Handle = int

  /** A `*const wchar_t`: null, or the code units that can be read from it. */
  type WPtr = Option<seq<CodeUnit>>

  /** `x as usize` for an `isize` value: two's complement wrap-around on 64 bits. */
  function AsUsize(x: int): (r: U64)
    requires -TWO_64 / 2 <= x < TWO_64 / 2
    ensures 0 <= x ==> r == x
    ensures x < 0 ==> r == x + TWO_64
  {
    if x < 0 then x + TWO_64 else x
  }

  const TRUE: int := 1
  const FALSE: int := 0

  const FARMANAGERVERSION_MAJOR: nat := 3
  const FARMANAGERVERSION_MINOR: nat := 0
  const FARMANAGERVERSION_REVISION: nat := 0
  const FARMANAGERVERSION_BUILD: nat := 5300

  datatype FileTime = FileTime(lowDateTime: bv32, highDateTime: bv32)

  datatype Guid = Guid(data1: bv32, data2: bv16, data3: bv16, data4: seq<bv8>)

  const DEFAULT_GUID: Guid := Guid(0, 0, 0, [0, 0, 0, 0, 0, 0, 0, 0])

  datatype VersionStage = VS_RELEASE | VS_ALPHA | VS_BETA | VS_RC

  datatype VersionInfo = VersionInfo(major: bv32, minor: bv32, revision: bv32, build: bv32, stage: VersionStage)

  const DEFAULT_VERSION_INFO: VersionInfo := VersionInfo(0, 0, 0, 0, VS_ALPHA)

  datatype FarKey = FarKey(virtualKeyCode: bv16, controlKeyState: bv32)

  // ---------------------------------------------------------------- colours

  const FCF_FG_4BIT: bv64 := 0x0000000000000001
  const FCF_BG_4BIT: bv64 := 0x0000000000000002
  const FCF_4BITMASK: bv64 := 0x0000000000000003
  const FCF_RAWATTR_MASK: bv64 := 0x000000000000FF00
  const FCF_EXTENDEDFLAGS: bv64 := 0xFFFFFFFFFFFFFFFC
  const FCF_FG_BOLD: bv64 := 0x1000000000000000
  const FCF_FG_ITALIC: bv64 := 0x2000000000000000
  const FCF_FG_UNDERLINE: bv64 := 0x4000000000000000
  const FCF_STYLEMASK: bv64 := 0x7000000000000000

  /** The four bytes of a COLORREF. */
  datatype Rgba = Rgba(r: bv8, g: bv8, b: bv8, a: bv8)

  /** `FarColor`; `reserved` is a pointer the bindings only ever set to null. */
  datatype FarColor = FarColor(flags: bv64, foregroundColor: bv32, backgroundColor: bv32, reserved: Address)

  /** A COLORREF reinterpreted as `rgba` on the little-endian target: least significant byte first. */
  function Unpack(c: bv32): (r: Rgba)
    ensures r.r as bv32 == c & 0xFF && r.g as bv32 == (c >> 8) & 0xFF
    ensures r.b as bv32 == (c >> 16) & 0xFF && r.a as bv32 == c >> 24
  {
    Rgba((c & 0xFF) as bv8, ((c >> 8) & 0xFF) as bv8, ((c >> 16) & 0xFF) as bv8, (c >> 24) as bv8)
  }

  /** The COLORREF whose bytes, least significant first, are `r`, `g`, `b`, `a`. */
  function Pack(x: Rgba): (c: bv32)
    ensures Unpack(c) == x
  {
    x.r as bv32 | (x.g as bv32 << 8) | (x.b as bv32 << 16) | (x.a as bv32 << 24)
  }

  /** The bytes of the foreground colour. */
  function ForegroundRgba(c: FarColor): (x: Rgba)
    ensures Pack(x) == c.foregroundColor
  {
    Unpack(c.foregroundColor)
  }

  /** The bytes of the background colour. */
  function BackgroundRgba(c: FarColor): (x: Rgba)
    ensures Pack(x) == c.backgroundColor
  {
    Unpack(c.backgroundColor)
  }

  /** Reading the bytes of a colour and packing them again gives the colour back, and conversely. */
  lemma RgbaRoundTrip(c: FarColor, x: Rgba)
    ensures Pack(ForegroundRgba(c)) == c.foregroundColor
    ensures Pack(BackgroundRgba(c)) == c.backgroundColor
    ensures Unpack(Pack(x)) == x
  {
  }

  function DefaultFarColor(): (c: FarColor)
    ensures c.flags == FCF_FG_4BIT | FCF_BG_4BIT
    ensures c.foregroundColor == 0 && c.backgroundColor == 0 && c.reserved == NULL
    ensures ForegroundRgba(c) == Rgba(0, 0, 0, 0) && BackgroundRgba(c) == Rgba(0, 0, 0, 0)
  {
    FarColor(FCF_4BITMASK, 0, 0, NULL)
  }

  /** The relations the comments beside the colour flags document. */
  lemma ColourMasks()
    ensures FCF_4BITMASK == FCF_FG_4BIT | FCF_BG_4BIT
    ensures FCF_EXTENDEDFLAGS == !FCF_4BITMASK
    ensures FCF_STYLEMASK == FCF_FG_BOLD | FCF_FG_ITALIC | FCF_FG_UNDERLINE
    ensures FCF_RAWATTR_MASK & FCF_4BITMASK == 0 && FCF_STYLEMASK & FCF_RAWATTR_MASK == 0
  {
  }

  // ---------------------------------------------------------------- other flag layouts

  const FMSG_ALLINONE: bv64 := 0x10

  const EF_OPENMODE_MASK: bv64 := 0xF0000000
  const EF_OPENMODE_QUERY: bv64 := 0x0
  const EF_OPENMODE_NEWIFOPEN: bv64 := 0x10000000
  const EF_OPENMODE_USEEXISTING: bv64 := 0x20000000
  const EF_OPENMODE_BREAKIFOPEN: bv64 := 0x30000000
  const EF_OPENMODE_RELOADIFOPEN: bv64 := 0x40000000

  const KMFLAGS_LANGMASK: bv64 := 0x70
  const KMFLAGS_LUA: bv64 := 0x0
  const KMFLAGS_MOONSCRIPT: bv64 := 0x10

  const PN_LENGTH_BAND: bv64 := 0xFFFF
  const PN_MODE_BAND: bv64 := 0xFF0000
  const PN_FLAGS_BAND: bv64 := 0xFFFFFFFFFF000000
  const PN_CMPNAME: bv64 := 0x0
  const PN_CMPNAMELIST: bv64 := 0x10000
  const PN_GENERATENAME: bv64 := 0x20000
  const PN_CHECKMASK: bv64 := 0x30000
  const PN_SKIPPATH: bv64 := 0x1000000
  const PN_SHOWERRORMESSAGE: bv64 := 0x2000000

  /** `v` uses no bit outside `mask`. */
  predicate Within(v: bv64, mask: bv64) { v & !mask == 0 }

  /** The documented layouts: each value lies inside the band its comment assigns it. */
  lemma FlagLayouts()
    ensures Within(EF_OPENMODE_QUERY, EF_OPENMODE_MASK) && Within(EF_OPENMODE_NEWIFOPEN, EF_OPENMODE_MASK)
    ensures Within(EF_OPENMODE_USEEXISTING, EF_OPENMODE_MASK) && Within(EF_OPENMODE_BREAKIFOPEN, EF_OPENMODE_MASK)
    ensures Within(EF_OPENMODE_RELOADIFOPEN, EF_OPENMODE_MASK)
    ensures Within(KMFLAGS_LUA, KMFLAGS_LANGMASK) && Within(KMFLAGS_MOONSCRIPT, KMFLAGS_LANGMASK)
    ensures Within(PN_CMPNAME, PN_MODE_BAND) && Within(PN_CMPNAMELIST, PN_MODE_BAND)
    ensures Within(PN_GENERATENAME, PN_MODE_BAND) && Within(PN_CHECKMASK, PN_MODE_BAND)
    ensures Within(PN_SKIPPATH, PN_FLAGS_BAND) && Within(PN_SHOWERRORMESSAGE, PN_FLAGS_BAND)
    ensures PN_LENGTH_BAND & PN_MODE_BAND == 0 && PN_MODE_BAND & PN_FLAGS_BAND == 0
    ensures PN_LENGTH_BAND | PN_MODE_BAND | PN_FLAGS_BAND == 0xFFFFFFFFFFFFFFFF
  {
  }

  // ---------------------------------------------------------------- dialogs

  datatype FARDIALOGITEMTYPES =
    | DI_TEXT | DI_VTEXT | DI_SINGLEBOX | DI_DOUBLEBOX | DI_EDIT | DI_PSWEDIT | DI_FIXEDIT
    | DI_BUTTON | DI_CHECKBOX | DI_RADIOBUTTON | DI_COMBOBOX | DI_LISTBOX | DI_USERCONTROL

  /** The host's value of each item type: 0 to 11 in order, and 255 for a user control. */
  function ItemTypeValue(t: FARDIALOGITEMTYPES): (v: int)
    ensures 0 <= v < 256
    ensures v == 255 <==> t.DI_USERCONTROL?
    ensures !t.DI_USERCONTROL? ==> v <= 11
  {
    match t
    case DI_TEXT => 0
    case DI_VTEXT => 1
    case DI_SINGLEBOX => 2
    case DI_DOUBLEBOX => 3
    case DI_EDIT => 4
    case DI_PSWEDIT => 5
    case DI_FIXEDIT => 6
    case DI_BUTTON => 7
    case DI_CHECKBOX => 8
    case DI_RADIOBUTTON => 9
    case DI_COMBOBOX => 10
    case DI_LISTBOX => 11
    case DI_USERCONTROL => 255
  }

  /** `is_edit`: the item types that hold an edit line. */
  function IsEdit(t: FARDIALOGITEMTYPES): (r: int)
    ensures r == TRUE || r == FALSE
    ensures r == TRUE <==> t.DI_EDIT? || t.DI_FIXEDIT? || t.DI_PSWEDIT? || t.DI_COMBOBOX?
  {
    match t
    case DI_EDIT => TRUE
    case DI_FIXEDIT => TRUE
    case DI_PSWEDIT => TRUE
    case DI_COMBOBOX => TRUE
    case _ => FALSE
  }

  /**
   * The `param` of a dialog item. The struct declares it as `*mut c_void`; the dialog
   * conversion stores either a selection state or the reserved value 0 there.
   */
  datatype FarDialogItemParam = Selected(selected: int) | Reserved(reserved: int)

  datatype FarDialogItem = FarDialogItem(
    itemType: FARDIALOGITEMTYPES,
    x1: int, y1: int, x2: int, y2: int,
    param: FarDialogItemParam,
    history: WPtr, mask: WPtr,
    flags: bv64,
    data: WPtr,
    maxLength: nat, userData: int, reserved: seq<int>)

  const INVALID_HANDLE_VALUE: Handle := -1

  /**
   * `FARMESSAGE`, the dialog messages (DM_*) and notifications (DN_*), as the set of its
   * discriminants: 0 to 67 except 8 and 21, 0x1000 to 0x1018, and DM_USER = 0x4000.
   */
  predicate IsMessageCode(v: int) {
    (0 <= v <= 67 && v != 8 && v != 21) || (0x1000 <= v <= 0x1018) || v == 0x4000
  }

  /** `FARMESSAGE`: a message is its discriminant. */
  type FARMESSAGE = v: int | IsMessageCode(v) witness 0

  const DM_FIRST: FARMESSAGE := 0
  const DM_CLOSE: FARMESSAGE := 1
  const DM_ENABLE: FARMESSAGE := 2
  const DM_ENABLEREDRAW: FARMESSAGE := 3
  const DM_GETDLGDATA: FARMESSAGE := 4
  const DM_GETDLGITEM: FARMESSAGE := 5
  const DM_GETDLGRECT: FARMESSAGE := 6
  const DM_GETTEXT: FARMESSAGE := 7
  const DM_KEY: FARMESSAGE := 9
  const DM_MOVEDIALOG: FARMESSAGE := 10
  const DM_SETDLGDATA: FARMESSAGE := 11
  const DM_SETDLGITEM: FARMESSAGE := 12
  const DM_SETFOCUS: FARMESSAGE := 13
  const DM_REDRAW: FARMESSAGE := 14
  const DM_SETTEXT: FARMESSAGE := 15
  const DM_SETMAXTEXTLENGTH: FARMESSAGE := 16
  const DM_SHOWDIALOG: FARMESSAGE := 17
  const DM_GETFOCUS: FARMESSAGE := 18
  const DM_GETCURSORPOS: FARMESSAGE := 19
  const DM_SETCURSORPOS: FARMESSAGE := 20
  const DM_SETTEXTPTR: FARMESSAGE := 22
  const DM_SHOWITEM: FARMESSAGE := 23
  const DM_ADDHISTORY: FARMESSAGE := 24
  const DM_GETCHECK: FARMESSAGE := 25
  const DM_SETCHECK: FARMESSAGE := 26
  const DM_SET3STATE: FARMESSAGE := 27
  const DM_LISTSORT: FARMESSAGE := 28
  const DM_LISTGETITEM: FARMESSAGE := 29
  const DM_LISTGETCURPOS: FARMESSAGE := 30
  const DM_LISTSETCURPOS: FARMESSAGE := 31
  const DM_LISTDELETE: FARMESSAGE := 32
  const DM_LISTADD: FARMESSAGE := 33
  const DM_LISTADDSTR: FARMESSAGE := 34
  const DM_LISTUPDATE: FARMESSAGE := 35
  const DM_LISTINSERT: FARMESSAGE := 36
  const DM_LISTFINDSTRING: FARMESSAGE := 37
  const DM_LISTINFO: FARMESSAGE := 38
  const DM_LISTGETDATA: FARMESSAGE := 39
  const DM_LISTSETDATA: FARMESSAGE := 40
  const DM_LISTSETTITLES: FARMESSAGE := 41
  const DM_LISTGETTITLES: FARMESSAGE := 42
  const DM_RESIZEDIALOG: FARMESSAGE := 43
  const DM_SETITEMPOSITION: FARMESSAGE := 44
  const DM_GETDROPDOWNOPENED: FARMESSAGE := 45
  const DM_SETDROPDOWNOPENED: FARMESSAGE := 46
  const DM_SETHISTORY: FARMESSAGE := 47
  const DM_GETITEMPOSITION: FARMESSAGE := 48
  const DM_SETINPUTNOTIFY: FARMESSAGE := 49
  const DM_EDITUNCHANGEDFLAG: FARMESSAGE := 50
  const DM_GETITEMDATA: FARMESSAGE := 51
  const DM_SETITEMDATA: FARMESSAGE := 52
  const DM_LISTSET: FARMESSAGE := 53
  const DM_GETCURSORSIZE: FARMESSAGE := 54
  const DM_SETCURSORSIZE: FARMESSAGE := 55
  const DM_LISTGETDATASIZE: FARMESSAGE := 56
  const DM_GETSELECTION: FARMESSAGE := 57
  const DM_SETSELECTION: FARMESSAGE := 58
  const DM_GETEDITPOSITION: FARMESSAGE := 59
  const DM_SETEDITPOSITION: FARMESSAGE := 60
  const DM_SETCOMBOBOXEVENT: FARMESSAGE := 61
  const DM_GETCOMBOBOXEVENT: FARMESSAGE := 62
  const DM_GETCONSTTEXTPTR: FARMESSAGE := 63
  const DM_GETDLGITEMSHORT: FARMESSAGE := 64
  const DM_SETDLGITEMSHORT: FARMESSAGE := 65
  const DM_GETDIALOGINFO: FARMESSAGE := 66
  const DM_GETDIALOGTITLE: FARMESSAGE := 67
  const DN_FIRST: FARMESSAGE := 0x1000
  const DN_BTNCLICK: FARMESSAGE := 0x1001
  const DN_CTLCOLORDIALOG: FARMESSAGE := 0x1002
  const DN_CTLCOLORDLGITEM: FARMESSAGE := 0x1003
  const DN_CTLCOLORDLGLIST: FARMESSAGE := 0x1004
  const DN_DRAWDIALOG: FARMESSAGE := 0x1005
  const DN_DRAWDLGITEM: FARMESSAGE := 0x1006
  const DN_EDITCHANGE: FARMESSAGE := 0x1007
  const DN_ENTERIDLE: FARMESSAGE := 0x1008
  const DN_GOTFOCUS: FARMESSAGE := 0x1009
  const DN_HELP: FARMESSAGE := 0x100a
  const DN_HOTKEY: FARMESSAGE := 0x100b
  const DN_INITDIALOG: FARMESSAGE := 0x100c
  const DN_KILLFOCUS: FARMESSAGE := 0x100d
  const DN_LISTCHANGE: FARMESSAGE := 0x100e
  const DN_DRAGGED: FARMESSAGE := 0x100f
  const DN_RESIZECONSOLE: FARMESSAGE := 0x1010
  const DN_DRAWDIALOGDONE: FARMESSAGE := 0x1011
  const DN_LISTHOTKEY: FARMESSAGE := 0x1012
  const DN_INPUT: FARMESSAGE := 0x1013
  const DN_CONTROLINPUT: FARMESSAGE := 0x1014
  const DN_CLOSE: FARMESSAGE := 0x1015
  const DN_GETVALUE: FARMESSAGE := 0x1016
  const DN_DROPDOWNOPENED: FARMESSAGE := 0x1017
  const DN_DRAWDLGITEMDONE: FARMESSAGE := 0x1018
  const DM_USER: FARMESSAGE := 0x4000

  /** `x as i32` for a pointer-sized value: the low 32 bits, read as a signed number. */
  function AsI32(x: int): (r: int)
    ensures -0x8000_0000 <= r < 0x8000_0000
    ensures (r - x) % 0x1_0000_0000 == 0
  {
    var low := x % 0x1_0000_0000;
    if low < 0x8000_0000 then low else low - 0x1_0000_0000
  }

  // ---------------------------------------------------------------- menus and plugin information

  datatype FarMenuItem = FarMenuItem(flags: bv64, text: WPtr, accelKey: FarKey, userData: int, reserved: seq<int>)

  /** `PluginMenuItem`: `count` guids and `count` label pointers. */
  datatype PluginMenuItem = PluginMenuItem(guids: Option<seq<Guid>>, strings: Option<seq<WPtr>>, count: nat)

  datatype GlobalInfo = GlobalInfo(
    structSize: nat, minFarVersion: VersionInfo, version: VersionInfo, guid: Guid,
    title: WPtr, description: WPtr, author: WPtr, instance: Address)

  datatype PluginInfo = PluginInfo(
    structSize: nat, flags: bv64,
    diskMenu: PluginMenuItem, pluginMenu: PluginMenuItem, pluginConfig: PluginMenuItem,
    commandPrefix: WPtr, instance: Address)

  /**
   * The host's `FarStandardFunctions` table. Only its identity matters to the bindings, so
   * it is an object whose contents (function pointers) are one opaque value.
   */
  class FarStandardFunctions {
    const structSize: nat
    const functions: seq<Address>

    constructor (structSize: nat, functions: seq<Address>)
      ensures this.structSize == structSize && this.functions == functions
    {
      this.structSize := structSize;
      this.functions := functions;
    }
  }

  /** `PluginStartupInfo`: the module name, the standard-functions pointer and the other host entry points. */
  datatype PluginStartupInfo = PluginStartupInfo(
    structSize: nat, moduleName: WPtr, farStandardFunctions: FarStandardFunctions,
    functions: seq<Address>, instance: Address)

  // ---------------------------------------------------------------- panels

  const PPIF_SELECTED: bv64 := 0x40000000
  const PPIF_PROCESSDESCR: bv64 := 0x80000000
  const PPIF_NONE: bv64 := 0

  /** `UserDataItem`: the data pointer and the free callback (0 for `None`). */
  datatype UserDataItem = UserDataItem(data: Address, freeData: Address)

  const NULL_USER_DATA: UserDataItem := UserDataItem(NULL, NULL)

  datatype PluginPanelItem = PluginPanelItem(
    creationTime: FileTime, lastAccessTime: FileTime, lastWriteTime: FileTime, changeTime: FileTime,
    fileSize: U64, allocationSize: U64,
    fileName: WPtr, alternateFileName: WPtr, description: WPtr, owner: WPtr,
    customColumnData: Option<seq<WPtr>>, customColumnNumber: nat,
    flags: bv64, userData: UserDataItem,
    fileAttributes: bv64, numberOfLinks: U64, crc32: U64, reserved: seq<int>)

  datatype FarPanelDirectory = FarPanelDirectory(structSize: nat, name: WPtr, param: WPtr, pluginId: Guid, file: WPtr)

  datatype InfoPanelLine = InfoPanelLine(text: WPtr, data: WPtr, flags: bv64)

  /** `OPENPANELINFO_SORTMODES` by discriminant; `SM_DEFAULT` is 0. */
  const SM_DEFAULT: int := 0

  const OPIF_NONE: bv64 := 0
  const OPM_SILENT: bv64 := 0x1

  datatype OpenPanelInfo = OpenPanelInfo(
    structSize: nat, hPanel: Handle, flags: bv64,
    hostFile: WPtr, curDir: WPtr, format: WPtr, panelTitle: WPtr,
    infoLines: Option<seq<InfoPanelLine>>, infoLinesNumber: nat,
    descrFiles: Option<seq<WPtr>>, descrFilesNumber: nat,
    panelModesArray: Address, panelModesNumber: nat,
    startPanelMode: int, startSortMode: int, startSortOrder: int,
    keyBar: Address, shortcutData: WPtr, freeSize: U64,
    userData: UserDataItem, instance: Address)

  const PANEL_NONE: Handle := -1
  const PANEL_ACTIVE: Handle := -1
  const PANEL_PASSIVE: Handle := -2
  const PANEL_STOP: Handle := -1

  /** The pseudo-handles: none, active and stop share -1; passive is -2. */
  lemma PanelPseudoHandles()
    ensures PANEL_NONE == PANEL_ACTIVE == PANEL_STOP == -1
    ensures PANEL_PASSIVE == -2 && PANEL_PASSIVE != PANEL_ACTIVE
  {
  }

  // The panel exports' argument structs. A `panelItem` field holds the `itemsNumber` items
  // the pointer addresses (the host guarantees at least that many can be read).

  datatype GetFindDataInfo = GetFindDataInfo(
    structSize: nat, hPanel: Handle, panelItem: Option<seq<PluginPanelItem>>, itemsNumber: nat,
    opMode: bv64, instance: Address)

  datatype FreeFindDataInfo = FreeFindDataInfo(
    structSize: nat, hPanel: Handle, panelItem: seq<PluginPanelItem>, itemsNumber: nat, instance: Address)

  datatype CompareInfo = CompareInfo(
    structSize: nat, hPanel: Handle, item1: PluginPanelItem, item2: PluginPanelItem, mode: int, instance: Address)

  datatype DeleteFilesInfo = DeleteFilesInfo(
    structSize: nat, hPanel: Handle, panelItem: seq<PluginPanelItem>, itemsNumber: nat,
    opMode: bv64, instance: Address)

  /** `GetFilesInfo`; its `panel_item` array is written in place and is passed to `GetFilesW` separately. */
  datatype GetFilesInfo = GetFilesInfo(
    structSize: nat, hPanel: Handle, itemsNumber: nat, moveFile: int, destPath: WPtr,
    opMode: bv64, instance: Address)

  datatype PutFilesInfo = PutFilesInfo(
    structSize: nat, hPanel: Handle, panelItem: seq<PluginPanelItem>, itemsNumber: nat,
    moveFile: int, srcPath: WPtr, opMode: bv64, instance: Address)

  datatype ProcessHostFileInfo = ProcessHostFileInfo(
    structSize: nat, hPanel: Handle, panelItem: seq<PluginPanelItem>, itemsNumber: nat,
    opMode: bv64, instance: Address)

  datatype MakeDirectoryInfo = MakeDirectoryInfo(
    structSize: nat, hPanel: Handle, name: WPtr, opMode: bv64, instance: Address)

  datatype SetDirectoryInfo = SetDirectoryInfo(
    structSize: nat, hPanel: Handle, dir: WPtr, reserved: int, opMode: bv64,
    userData: UserDataItem, instance: Address)

  datatype SetFindListInfo = SetFindListInfo(
    structSize: nat, hPanel: Handle, panelItem: seq<PluginPanelItem>, itemsNumber: nat, instance: Address)

  /** A console `INPUT_RECORD`, passed through unchanged. */
  datatype InputRecord = InputRecord(eventType: bv16, event: seq<bv8>)

  datatype ProcessPanelInputInfo = ProcessPanelInputInfo(structSize: nat, hPanel: Handle, rec: InputRecord, instance: Address)

  datatype FAR_EVENTS =
    | FE_CHANGEVIEWMODE | FE_REDRAW | FE_IDLE | FE_CLOSE | FE_BREAK | FE_COMMAND
    | FE_GOTFOCUS | FE_KILLFOCUS | FE_CHANGESORTPARAMS

  /**
   * The `param` of a panel event. The host passes a wide string for `FE_CHANGEVIEWMODE` and
   * `FE_COMMAND`, and a number for `FE_BREAK`.
   */
  datatype EventParam = TextParam(text: WPtr) | ValueParam(value: U64)

  datatype ProcessPanelEventInfo = ProcessPanelEventInfo(
    structSize: nat, event: FAR_EVENTS, param: EventParam, hPanel: Handle, instance: Address)

  datatype ClosePanelInfo = ClosePanelInfo(structSize: nat, hPanel: Handle, instance: Address)

  datatype AnalyseInfo = AnalyseInfo(
    structSize: nat, fileName: WPtr, buffer: seq<bv8>, opMode: bv64, instance: Address)

  datatype CloseAnalyseInfo = CloseAnalyseInfo(structSize: nat, handle: Handle, instance: Address)

  // ---------------------------------------------------------------- opening the plugin

  datatype OPENFROM =
    | OPEN_LEFTDISKMENU | OPEN_PLUGINSMENU | OPEN_FINDLIST | OPEN_SHORTCUT | OPEN_COMMANDLINE
    | OPEN_EDITOR | OPEN_VIEWER | OPEN_FILEPANEL | OPEN_DIALOG | OPEN_ANALYSE
    | OPEN_RIGHTDISKMENU | OPEN_FROMMACRO | OPEN_LUAMACRO

  datatype OpenShortcutInfo = OpenShortcutInfo(structSize: nat, hostFile: WPtr, shortcutData: WPtr, flags: bv64)

  datatype OpenCommandLineInfo = OpenCommandLineInfo(structSize: nat, commandLine: WPtr)

  datatype OpenDlgPluginData = OpenDlgPluginData(structSize: nat, hDlg: Handle)

  datatype OpenAnalyseInfo = OpenAnalyseInfo(structSize: nat, info: AnalyseInfo, handle: Handle)

  /**
   * What `OpenInfo.data` addresses. The host chooses the struct by `open_from`; for the
   * other open modes it is a plain number.
   */
  datatype OpenData =
    | ShortcutData(shortcut: OpenShortcutInfo)
    | CommandLineData(commandLine: OpenCommandLineInfo)
    | DialogData(dialog: OpenDlgPluginData)
    | AnalyseData(analyse: OpenAnalyseInfo)
    | ValueData(value: int)

  datatype OpenInfo = OpenInfo(structSize: nat, openFrom: OPENFROM, guid: Guid, data: OpenData, instance: Address)

  /** The data the host is expected to pass for each open mode that carries a struct. */
  predicate WellFormedOpenInfo(info: OpenInfo) {
    match info.openFrom
    case OPEN_SHORTCUT => info.data.ShortcutData?
    case OPEN_COMMANDLINE => info.data.CommandLineData?
    case OPEN_DIALOG => info.data.DialogData?
    case OPEN_ANALYSE => info.data.AnalyseData?
    case _ => true
  }

  // ---------------------------------------------------------------- struct sizes

  /** The host structs whose `struct_size` the bindings check. */
  datatype StructKind =
    | GetFindDataInfoKind | FreeFindDataInfoKind | DeleteFilesInfoKind | GetFilesInfoKind
    | PutFilesInfoKind | MakeDirectoryInfoKind | SetDirectoryInfoKind | SetFindListInfoKind
    | ProcessHostFileInfoKind | ProcessPanelInputInfoKind | ProcessPanelEventInfoKind
    | CompareInfoKind | ClosePanelInfoKind | OpenPanelInfoKind | AnalyseInfoKind
    | CloseAnalyseInfoKind | OpenInfoKind | GlobalInfoKind

  /** `mem::size_of` of each struct on the 64-bit Windows target. */
  function SizeOf(k: StructKind): (n: nat)
    ensures n > 0 && n % 8 == 0
  {
    match k
    case GetFindDataInfoKind => 48
    case FreeFindDataInfoKind => 40
    case DeleteFilesInfoKind => 48
    case GetFilesInfoKind => 64
    case PutFilesInfoKind => 64
    case MakeDirectoryInfoKind => 40
    case SetDirectoryInfoKind => 64
    case SetFindListInfoKind => 40
    case ProcessHostFileInfoKind => 48
    case ProcessPanelInputInfoKind => 48
    case ProcessPanelEventInfoKind => 40
    case CompareInfoKind => 48
    case ClosePanelInfoKind => 24
    case OpenPanelInfoKind => 176
    case AnalyseInfoKind => 48
    case CloseAnalyseInfoKind => 24
    case OpenInfoKind => 40
    case GlobalInfoKind => 96
  }
}
