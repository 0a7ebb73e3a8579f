/**
 * Dialog translation (`farmanager/src/dialog.rs`): the selection states, the rich dialog items
 * and their flat form, the rich dialog messages and the codes the host passes, and the dialog
 * set-up with its window callback.
 */
module Dialog {
  import opened Wrappers
  import opened WideStr
  import Ffi
  import Lib

  /** `u8` */
  type Byte = x: int | 0 <= x < 256

  // ---------------------------------------------------------------- selection states

  /** `DialogItemSelection`: a selection state as the host stores it. */
  datatype DialogItemSelection = DialogItemSelection(value: Byte)

  datatype ButtonSelection = ButtonDeselected | ButtonSelected

  datatype CheckBoxSelection = CheckBoxDeselected | CheckBoxSelected | CheckBoxUndefined

  datatype RadioButtonSelection = RadioPrevious | RadioActive

  /** `ButtonSelection::from`: 0 and 1 are states; any other byte is `unimplemented!()`. */
  function ButtonSelectionFrom(value: Byte): (r: Result<ButtonSelection, Panic>)
    ensures r.Ok? <==> value <= 1
    ensures r.Err? ==> r.error == Panic(NOT_IMPLEMENTED)
  {
    match value
    case 0 => Ok(ButtonDeselected)
    case 1 => Ok(ButtonSelected)
    case _ => Err(Panic(NOT_IMPLEMENTED))
  }

  /** `Into<DialogItemSelection>`: the discriminant. */
  function ButtonSelectionInto(s: ButtonSelection): (r: DialogItemSelection)
    ensures r.value <= 1
  {
    match s
    case ButtonDeselected => DialogItemSelection(0)
    case ButtonSelected => DialogItemSelection(1)
  }

  /** `CheckBoxSelection::from`: 0, 1 and 2 are states; any other byte is `unimplemented!()`. */
  function CheckBoxSelectionFrom(value: Byte): (r: Result<CheckBoxSelection, Panic>)
    ensures r.Ok? <==> value <= 2
    ensures r.Err? ==> r.error == Panic(NOT_IMPLEMENTED)
  {
    match value
    case 0 => Ok(CheckBoxDeselected)
    case 1 => Ok(CheckBoxSelected)
    case 2 => Ok(CheckBoxUndefined)
    case _ => Err(Panic(NOT_IMPLEMENTED))
  }

  function CheckBoxSelectionInto(s: CheckBoxSelection): (r: DialogItemSelection)
    ensures r.value <= 2
  {
    match s
    case CheckBoxDeselected => DialogItemSelection(0)
    case CheckBoxSelected => DialogItemSelection(1)
    case CheckBoxUndefined => DialogItemSelection(2)
  }

  /** `RadioButtonSelection::from`: 0 and 1 are states; any other byte is `unimplemented!()`. */
  function RadioButtonSelectionFrom(value: Byte): (r: Result<RadioButtonSelection, Panic>)
    ensures r.Ok? <==> value <= 1
    ensures r.Err? ==> r.error == Panic(NOT_IMPLEMENTED)
  {
    match value
    case 0 => Ok(RadioPrevious)
    case 1 => Ok(RadioActive)
    case _ => Err(Panic(NOT_IMPLEMENTED))
  }

  function RadioButtonSelectionInto(s: RadioButtonSelection): (r: DialogItemSelection)
    ensures r.value <= 1
  {
    match s
    case RadioPrevious => DialogItemSelection(0)
    case RadioActive => DialogItemSelection(1)
  }

  const NOT_IMPLEMENTED: string := "not implemented"

  /** Each decoder is undone by its conversion back, and the other way round. */
  lemma SelectionRoundTrips(v: Byte, b: ButtonSelection, c: CheckBoxSelection, r: RadioButtonSelection)
    ensures ButtonSelectionFrom(ButtonSelectionInto(b).value) == Ok(b)
    ensures CheckBoxSelectionFrom(CheckBoxSelectionInto(c).value) == Ok(c)
    ensures RadioButtonSelectionFrom(RadioButtonSelectionInto(r).value) == Ok(r)
    ensures ButtonSelectionFrom(v).Ok? ==> ButtonSelectionInto(ButtonSelectionFrom(v).value).value == v
    ensures CheckBoxSelectionFrom(v).Ok? ==> CheckBoxSelectionInto(CheckBoxSelectionFrom(v).value).value == v
    ensures RadioButtonSelectionFrom(v).Ok? ==> RadioButtonSelectionInto(RadioButtonSelectionFrom(v).value).value == v
  {
  }

  /** `as_raw` */
  function AsRaw(s: DialogItemSelection): (v: Byte) {
    s.value
  }

  /** `as_button`: decodes through the check-box states, so 2 is accepted. */
  function AsButton(s: DialogItemSelection): (r: Result<CheckBoxSelection, Panic>)
    ensures r == CheckBoxSelectionFrom(s.value)
    ensures r.Ok? <==> s.value <= 2
  {
    CheckBoxSelectionFrom(s.value)
  }

  /** `as_check_box` */
  function AsCheckBox(s: DialogItemSelection): (r: Result<CheckBoxSelection, Panic>)
    ensures r == CheckBoxSelectionFrom(s.value)
    ensures r.Ok? <==> s.value <= 2
  {
    CheckBoxSelectionFrom(s.value)
  }

  /** `as_radio_button` */
  function AsRadioButton(s: DialogItemSelection): (r: Result<RadioButtonSelection, Panic>)
    ensures r == RadioButtonSelectionFrom(s.value)
    ensures r.Ok? <==> s.value <= 1
  {
    RadioButtonSelectionFrom(s.value)
  }

  /** A button in state 2 is read by `as_button`, although `ButtonSelection` refuses it. */
  lemma AsButtonAcceptsUndefined()
    ensures AsButton(DialogItemSelection(2)) == Ok(CheckBoxUndefined)
    ensures ButtonSelectionFrom(2).Err?
  {
  }

  // ---------------------------------------------------------------- dialog items

  /** `FarDialogItem`: the item kinds a plugin can put in a dialog. */
  datatype FarDialogItem =
    | CheckBox(x: Ffi.ISize, y: Ffi.ISize, selected: DialogItemSelection, flags: bv64, text: WideString)
    | Text(x1: Ffi.ISize, y: Ffi.ISize, x2: Ffi.ISize, mask: Option<WideString>, flags: bv64, optText: Option<WideString>)
    | VText(x: Ffi.ISize, y1: Ffi.ISize, y2: Ffi.ISize, mask: Option<WideString>, flags: bv64, optText: Option<WideString>)
    | SingleBox(x1: Ffi.ISize, y1: Ffi.ISize, x2: Ffi.ISize, y2: Ffi.ISize, flags: bv64, title: Option<WideString>)
    | DoubleBox(x1: Ffi.ISize, y1: Ffi.ISize, x2: Ffi.ISize, y2: Ffi.ISize, flags: bv64, title: Option<WideString>)
    | Edit(x1: Ffi.ISize, y: Ffi.ISize, x2: Ffi.ISize, history: Option<WideString>, flags: bv64, optText: Option<WideString>)
    | FixEdit(x1: Ffi.ISize, y: Ffi.ISize, x2: Ffi.ISize, history: Option<WideString>, mask: Option<WideString>, flags: bv64, optText: Option<WideString>)
    | PswEdit(x1: Ffi.ISize, y: Ffi.ISize, x2: Ffi.ISize, flags: bv64, optText: Option<WideString>)
    | RadioButton(x: Ffi.ISize, y: Ffi.ISize, selected: DialogItemSelection, flags: bv64, text: WideString)
    | Button(x: Ffi.ISize, y: Ffi.ISize, selected: DialogItemSelection, flags: bv64, text: WideString)

  /** The host item type of each kind. */
  function ItemTypeOf(item: FarDialogItem): Ffi.FARDIALOGITEMTYPES {
    match item
    case CheckBox(_, _, _, _, _) => Ffi.DI_CHECKBOX
    case Text(_, _, _, _, _, _) => Ffi.DI_TEXT
    case VText(_, _, _, _, _, _) => Ffi.DI_VTEXT
    case SingleBox(_, _, _, _, _, _) => Ffi.DI_SINGLEBOX
    case DoubleBox(_, _, _, _, _, _) => Ffi.DI_DOUBLEBOX
    case Edit(_, _, _, _, _, _) => Ffi.DI_EDIT
    case FixEdit(_, _, _, _, _, _, _) => Ffi.DI_FIXEDIT
    case PswEdit(_, _, _, _, _) => Ffi.DI_PSWEDIT
    case RadioButton(_, _, _, _, _) => Ffi.DI_RADIOBUTTON
    case Button(_, _, _, _, _) => Ffi.DI_BUTTON
  }

  /** The kinds that carry a selection state. */
  predicate IsSelectable(item: FarDialogItem) {
    item.CheckBox? || item.RadioButton? || item.Button?
  }

  /** The kinds that occupy one row. */
  predicate IsSingleRow(item: FarDialogItem) {
    !(item.VText? || item.SingleBox? || item.DoubleBox?)
  }

  /** The item's text (its title for a box), when it has one. */
  function DataOf(item: FarDialogItem): Option<WideString> {
    if IsSelectable(item) then Some(item.text)
    else if item.SingleBox? || item.DoubleBox? then item.title
    else item.optText
  }

  /** The history name, which only the edit lines without a password carry. */
  function HistoryOf(item: FarDialogItem): Option<WideString> {
    if item.Edit? || item.FixEdit? then item.history else None
  }

  /** The input mask, which only the texts and the fixed edit line carry. */
  function MaskOf(item: FarDialogItem): Option<WideString> {
    if item.Text? || item.VText? || item.FixEdit? then item.mask else None
  }

  /**
   * `Into<ffi::FarDialogItem>`: the host item of the variant's type, with the selection state
   * in `param` of the selectable kinds and the reserved 0 elsewhere, each optional text null
   * exactly when it is absent, and no length limit, user data or reserved words. Where the
   * texts and the coordinates go is `DialogItemTexts` and `DialogItemGeometry`.
   */
  function FarDialogItemInto(item: FarDialogItem): (r: Ffi.FarDialogItem)
    ensures r.itemType == ItemTypeOf(item)
    ensures IsSelectable(item) ==> r.param == Ffi.Selected(item.selected.value)
    ensures !IsSelectable(item) ==> r.param == Ffi.Reserved(0)
    ensures r.flags == item.flags
    ensures r.maxLength == 0 && r.userData == 0 && r.reserved == [0, 0]
  {
    match item
    case CheckBox(x, y, selected, flags, text) =>
      Ffi.FarDialogItem(Ffi.DI_CHECKBOX, x, y, 0, y, Ffi.Selected(selected.value), None, None, flags, AsPtr(text), 0, 0, [0, 0])
    case Text(x1, y, x2, mask, flags, text) =>
      Ffi.FarDialogItem(Ffi.DI_TEXT, x1, y, x2, y, Ffi.Reserved(0), None, AsPtrOrNull(mask), flags, AsPtrOrNull(text), 0, 0, [0, 0])
    case VText(x, y1, y2, mask, flags, text) =>
      Ffi.FarDialogItem(Ffi.DI_VTEXT, x, y1, x, y2, Ffi.Reserved(0), None, AsPtrOrNull(mask), flags, AsPtrOrNull(text), 0, 0, [0, 0])
    case SingleBox(x1, y1, x2, y2, flags, title) =>
      Ffi.FarDialogItem(Ffi.DI_SINGLEBOX, x1, y1, x2, y2, Ffi.Reserved(0), None, None, flags, AsPtrOrNull(title), 0, 0, [0, 0])
    case DoubleBox(x1, y1, x2, y2, flags, title) =>
      Ffi.FarDialogItem(Ffi.DI_DOUBLEBOX, x1, y1, x2, y2, Ffi.Reserved(0), None, None, flags, AsPtrOrNull(title), 0, 0, [0, 0])
    case Edit(x1, y, x2, history, flags, text) =>
      Ffi.FarDialogItem(Ffi.DI_EDIT, x1, y, x2, y, Ffi.Reserved(0), AsPtrOrNull(history), None, flags, AsPtrOrNull(text), 0, 0, [0, 0])
    case FixEdit(x1, y, x2, history, mask, flags, text) =>
      Ffi.FarDialogItem(Ffi.DI_FIXEDIT, x1, y, x2, y, Ffi.Reserved(0), AsPtrOrNull(history), AsPtrOrNull(mask), flags, AsPtrOrNull(text), 0, 0, [0, 0])
    case PswEdit(x1, y, x2, flags, text) =>
      Ffi.FarDialogItem(Ffi.DI_PSWEDIT, x1, y, x2, y, Ffi.Reserved(0), None, None, flags, AsPtrOrNull(text), 0, 0, [0, 0])
    case RadioButton(x, y, selected, flags, text) =>
      Ffi.FarDialogItem(Ffi.DI_RADIOBUTTON, x, y, 0, y, Ffi.Selected(selected.value), None, None, flags, AsPtr(text), 0, 0, [0, 0])
    case Button(x, y, selected, flags, text) =>
      Ffi.FarDialogItem(Ffi.DI_BUTTON, x, y, 0, y, Ffi.Selected(selected.value), None, None, flags, AsPtr(text), 0, 0, [0, 0])
  }

  /** A converted item points at its own text, history name and mask, and holds null for each it lacks. */
  lemma DialogItemTexts(item: FarDialogItem)
    ensures FarDialogItemInto(item).data == AsPtrOrNull(DataOf(item))
    ensures FarDialogItemInto(item).history == AsPtrOrNull(HistoryOf(item))
    ensures FarDialogItemInto(item).mask == AsPtrOrNull(MaskOf(item))
  {
  }

  /**
   * The coordinates of a converted item: a one-row item's `y2` equals its `y1`, a vertical
   * text's `x2` its `x1`, and a selectable item's `x2` is 0; the others are the item's own.
   */
  lemma DialogItemGeometry(item: FarDialogItem)
    ensures var r := FarDialogItemInto(item);
      && (IsSingleRow(item) ==> r.y2 == r.y1)
      && (item.VText? ==> r.x2 == r.x1 == item.x && r.y1 == item.y1 && r.y2 == item.y2)
      && (IsSelectable(item) ==> r.x1 == item.x && r.y1 == item.y && r.x2 == 0)
      && ((item.Text? || item.Edit? || item.FixEdit? || item.PswEdit?) ==> r.x1 == item.x1 && r.y1 == item.y && r.x2 == item.x2)
      && ((item.SingleBox? || item.DoubleBox?) ==> r.x1 == item.x1 && r.y1 == item.y1 && r.x2 == item.x2 && r.y2 == item.y2)
  {
  }

  /** None of the converted kinds is a list, a combo box or a user control, so only the edit lines are edits. */
  lemma ConvertedEditKinds(item: FarDialogItem)
    ensures Ffi.IsEdit(FarDialogItemInto(item).itemType) == Ffi.TRUE <==> (item.Edit? || item.FixEdit? || item.PswEdit?)
  {
  }

  // ---------------------------------------------------------------- dialog messages

  /** The two codes `FarMessage::from` has no variant for. */
  predicate IsUntranslated(msg: Ffi.FARMESSAGE) {
    msg == Ffi.DM_GETDLGDATA || msg == Ffi.DM_SETDLGDATA
  }

  /** The codes whose variant carries the two parameters unchanged. */
  type GenericCode = msg: Ffi.FARMESSAGE | !IsUntranslated(msg) && msg != Ffi.DN_BTNCLICK
    witness Ffi.DM_FIRST

  /**
   * `FarMessage`: a dialog message with its two parameters. Every variant but `DnBtnClick`
   * has the same two fields, so those variants are one constructor that records which one
   * it is by its code (`DmClose` is `Generic(DM_CLOSE, ..)`); a button click carries the
   * clicked item and its state.
   */
  datatype FarMessage =
    | Generic(code: GenericCode, param1: Ffi.ISize, param2: Ffi.Address)
    | DnBtnClick(id: Ffi.ISize, state: DialogItemSelection)

  /**
   * `FarMessage::from`: the variant of each code with the parameters as given, a button
   * click's state being the low byte of `param2`; `None` for `DM_GETDLGDATA` and
   * `DM_SETDLGDATA`.
   */
  function FarMessageFrom(msg: Ffi.FARMESSAGE, param1: Ffi.ISize, param2: Ffi.Address): (r: Option<FarMessage>)
    ensures r.None? <==> IsUntranslated(msg)
    ensures r.Some? && msg == Ffi.DN_BTNCLICK ==> r.value == DnBtnClick(param1, DialogItemSelection(param2 % 256))
    ensures r.Some? && msg != Ffi.DN_BTNCLICK ==> r.value.Generic? && r.value.code == msg
  {
    if IsUntranslated(msg) then None
    else if msg == Ffi.DN_BTNCLICK then Some(DnBtnClick(param1, DialogItemSelection(param2 % 256)))
    else Some(Generic(msg, param1, param2))
  }

  /** `FarMessage::into`: the code of the variant and its parameters; a click state widened to a pointer. */
  function FarMessageInto(m: FarMessage): (r: (Ffi.FARMESSAGE, Ffi.ISize, Ffi.Address))
    ensures !IsUntranslated(r.0)
    ensures r.0 == Ffi.DN_BTNCLICK <==> m.DnBtnClick?
  {
    match m
    case Generic(code, param1, param2) => (code, param1, param2)
    case DnBtnClick(id, state) => (Ffi.DN_BTNCLICK, id, state.value)
  }

  /** The parameters `FarMessage::into` gives back for a translated message. */
  function ReadBack(msg: Ffi.FARMESSAGE, param1: Ffi.ISize, param2: Ffi.Address): (Ffi.FARMESSAGE, Ffi.ISize, Ffi.Address) {
    (msg, param1, if msg == Ffi.DN_BTNCLICK then param2 % 256 else param2)
  }

  /**
   * Writing a translated message back gives the code and parameters the host passed, except
   * that a button click's `param2` comes back as its low byte.
   */
  lemma FarMessageIntoFrom(msg: Ffi.FARMESSAGE, param1: Ffi.ISize, param2: Ffi.Address)
    requires !IsUntranslated(msg)
    ensures FarMessageFrom(msg, param1, param2).Some?
    ensures FarMessageInto(FarMessageFrom(msg, param1, param2).value) == ReadBack(msg, param1, param2)
  {
  }

  /** Every message written to the host is read back as itself. */
  lemma FarMessageFromInto(m: FarMessage)
    ensures FarMessageFrom(FarMessageInto(m).0, FarMessageInto(m).1, FarMessageInto(m).2) == Some(m)
  {
  }

  // ---------------------------------------------------------------- the dialog and its callback

  /** The arguments `Dialog::init` passes to the host's `DialogInit`. */
  datatype DialogInitCall = DialogInitCall(
    pluginId: Ffi.Guid, id: Ffi.Guid, x1: Ffi.ISize, y1: Ffi.ISize, x2: Ffi.ISize, y2: Ffi.ISize,
    helpTopic: Ffi.WPtr, items: seq<Ffi.FarDialogItem>, itemsNumber: nat, flags: bv64)

  /** `Dialog`: the host's handle of a dialog that was set up. */
  datatype Dialog = Dialog(handle: Ffi.Handle)

  /**
   * `Dialog::init`: converts the items one by one, in order, and asks the host for a dialog
   * with them; the host's `hostHandle` is the dialog, unless it is `INVALID_HANDLE_VALUE`,
   * which is an error. Without the API table it panics.
   */
  method DialogInit(
    rt: Lib.Runtime, pluginId: Ffi.Guid, id: Ffi.Guid, x1: Ffi.ISize, y1: Ffi.ISize, x2: Ffi.ISize, y2: Ffi.ISize,
    helpTopic: Option<WideString>, dialogItems: seq<FarDialogItem>, flags: bv64, hostHandle: Ffi.Handle)
    returns (r: Result<Result<Dialog, Lib.Error>, Panic>, call: Option<DialogInitCall>)
    ensures rt.farApi.None? <==> r.Err?
    ensures r.Err? ==> r.error == Panic(Lib.PLUGIN_NOT_INITIALIZED) && call.None?
    ensures r.Ok? ==>
      && call.Some?
      && call.value.pluginId == pluginId && call.value.id == id
      && call.value.x1 == x1 && call.value.y1 == y1 && call.value.x2 == x2 && call.value.y2 == y2
      && call.value.helpTopic == AsPtrOrNull(helpTopic) && call.value.flags == flags
      && |call.value.items| == |dialogItems| == call.value.itemsNumber
      && (forall i :: 0 <= i < |dialogItems| ==> call.value.items[i] == FarDialogItemInto(dialogItems[i]))
    ensures r.Ok? ==> (r.value.Err? <==> hostHandle == Ffi.INVALID_HANDLE_VALUE)
    ensures r.Ok? && r.value.Ok? ==> r.value.value == Dialog(hostHandle)
  {
    var helpTopicPtr := AsPtrOrNull(helpTopic);
    var dialogItemsFfi: seq<Ffi.FarDialogItem> := [];
    var k := 0;
    while k < |dialogItems|
      invariant 0 <= k <= |dialogItems|
      invariant |dialogItemsFfi| == k
      invariant forall i :: 0 <= i < k ==> dialogItemsFfi[i] == FarDialogItemInto(dialogItems[i])
    {
      dialogItemsFfi := dialogItemsFfi + [FarDialogItemInto(dialogItems[k])];
      k := k + 1;
    }
    var api := rt.FarApi();
    if api.Err? {
      return Err(api.error), None;
    }
    call := Some(DialogInitCall(pluginId, id, x1, y1, x2, y2, helpTopicPtr, dialogItemsFfi, |dialogItemsFfi|, flags));
    if hostHandle == Ffi.INVALID_HANDLE_VALUE {
      return Ok(Err(Lib.Error(""))), call;
    }
    r := Ok(Ok(Dialog(hostHandle)));
  }

  /**
   * The window callback of a dialog: the host's message number `msg`, read through its low
   * 32 bits as a `FARMESSAGE`, is translated and handed to the plugin's `dlg_proc`; the two
   * codes without a variant go to the host's default handler with the parameters as the host
   * passed them. Without the API table, or when the plugin panics, the panic escapes the
   * callback.
   */
  function Callback(
    rt: Lib.Runtime, hDlg: Ffi.Handle, msg: Ffi.ISize, param1: Ffi.ISize, param2: Ffi.Address,
    dlgProc: (Ffi.Handle, FarMessage) -> Lib.Invocation<Ffi.ISize>,
    defDlgProc: (Ffi.Handle, Ffi.ISize, Ffi.ISize, Ffi.Address) -> Ffi.ISize): (r: Lib.Outcome<Ffi.ISize>)
    reads rt
    requires Ffi.IsMessageCode(Ffi.AsI32(msg))
    ensures rt.farApi.None? ==> r.Aborts?
    ensures rt.farApi.Some? && IsUntranslated(Ffi.AsI32(msg)) ==> r == Lib.Completes(defDlgProc(hDlg, msg, param1, param2))
    ensures rt.farApi.Some? && !IsUntranslated(Ffi.AsI32(msg)) ==>
      match dlgProc(hDlg, FarMessageFrom(Ffi.AsI32(msg), param1, param2).value)
      case Returned(v) => r == Lib.Completes(v)
      case Panicked(_) => r.Aborts?
  {
    if rt.farApi.None? then Lib.Aborts
    else
      match FarMessageFrom(Ffi.AsI32(msg), param1, param2)
      case Some(m) =>
        (match dlgProc(hDlg, m)
         case Returned(v) => Lib.Completes(v)
         case Panicked(_) => Lib.Aborts)
      case None => Lib.Completes(defDlgProc(hDlg, msg, param1, param2))
  }

  /** `def_dlg_proc`: the message written back and handed to the host's default handler. */
  function DefDlgProc(
    rt: Lib.Runtime, hDlg: Ffi.Handle, m: FarMessage,
    defDlgProc: (Ffi.Handle, Ffi.ISize, Ffi.ISize, Ffi.Address) -> Ffi.ISize): (r: Result<Ffi.ISize, Panic>)
    reads rt
    ensures rt.farApi.None? <==> r.Err?
    ensures r.Err? ==> r.error == Panic(Lib.PLUGIN_NOT_INITIALIZED)
    ensures r.Ok? ==> r.value == defDlgProc(hDlg, FarMessageInto(m).0, FarMessageInto(m).1, FarMessageInto(m).2)
  {
    match rt.FarApi()
    case Err(e) => Err(e)
    case Ok(_) =>
      var (ffiMsg, param1, param2) := FarMessageInto(m);
      Ok(defDlgProc(hDlg, ffiMsg, param1, param2))
  }

  /** What a `dlg_proc` that returns `def_dlg_proc(h_dlg, msg)` answers, once the API table is there. */
  function Forward(defDlgProc: (Ffi.Handle, Ffi.ISize, Ffi.ISize, Ffi.Address) -> Ffi.ISize, h: Ffi.Handle, m: FarMessage): Lib.Invocation<Ffi.ISize> {
    var (ffiMsg, param1, param2) := FarMessageInto(m);
    Lib.Returned(defDlgProc(h, ffiMsg, param1, param2))
  }

  /** That `dlg_proc` as a plugin behaviour. */
  function Forwarding(defDlgProc: (Ffi.Handle, Ffi.ISize, Ffi.ISize, Ffi.Address) -> Ffi.ISize): (Ffi.Handle, FarMessage) -> Lib.Invocation<Ffi.ISize> {
    (h: Ffi.Handle, m: FarMessage) => Forward(defDlgProc, h, m)
  }

  /** A forwarding `dlg_proc` computes what `def_dlg_proc` returns. */
  lemma ForwardingIsDefDlgProc(rt: Lib.Runtime, hDlg: Ffi.Handle, m: FarMessage, defDlgProc: (Ffi.Handle, Ffi.ISize, Ffi.ISize, Ffi.Address) -> Ffi.ISize)
    requires rt.farApi.Some?
    ensures Forwarding(defDlgProc)(hDlg, m) == Lib.Returned(DefDlgProc(rt, hDlg, m, defDlgProc).value)
  {
  }

  /**
   * A plugin whose `dlg_proc` hands every message to `def_dlg_proc` makes the callback pass
   * each message to the host's default handler as the host sent it, provided a button
   * click's `param2` is a byte.
   */
  lemma {:induction false} ForwardingCallback(
    rt: Lib.Runtime, hDlg: Ffi.Handle, code: Ffi.FARMESSAGE, param1: Ffi.ISize, param2: Ffi.Address,
    defDlgProc: (Ffi.Handle, Ffi.ISize, Ffi.ISize, Ffi.Address) -> Ffi.ISize)
    requires rt.farApi.Some?
    requires code == Ffi.DN_BTNCLICK ==> param2 < 256
    ensures Ffi.AsI32(code) == code
    ensures Callback(rt, hDlg, code, param1, param2, Forwarding(defDlgProc), defDlgProc)
      == Lib.Completes(defDlgProc(hDlg, code, param1, param2))
  {
    if !IsUntranslated(code) {
      FarMessageIntoFrom(code, param1, param2);
    }
  }
}
