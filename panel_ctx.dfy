/**
 * The per-handle panel table (`farmanager/src/panel/ctx.rs`): one entry per panel handle,
 * holding the buffers the host's `OpenPanelInfo` points at, and the two `enrich` operations
 * that fill host structs from those buffers.
 */
module PanelCtx {
  import opened Wrappers
  import Ffi
  import opened WideStr
  import CommonFfi
  import Rich = PanelTypes
  import W = PanelWrapper

  /**
   * `ctx::Panel`. Beside the open-panel buffers it has the slot for the pending directory name
   * that `MakeDirectoryW` stores (`panel.make_directory_name`).
   */
  datatype Panel = Panel(openPanelInfo: W.OpenPanelInfo, makeDirectoryName: Option<WideString>) {
    /**
     * The fields of the stored inner struct that no operation writes keep their defaults, and
     * the owned arrays are well formed.
     */
    predicate Valid() {
      var i := openPanelInfo.inner;
      && i.structSize == 0 && i.hPanel == 0
      && i.panelModesArray == Ffi.NULL && i.panelModesNumber == 0
      && i.startPanelMode == 0 && i.startSortMode == Ffi.SM_DEFAULT && i.startSortOrder == 0
      && i.keyBar == Ffi.NULL && i.shortcutData.None? && i.freeSize == 0
      && i.userData == Ffi.NULL_USER_DATA && i.instance == Ffi.NULL
      && CommonFfi.Parallel(openPanelInfo.infoLines, W.InfoPanelLineAsInner)
      && (openPanelInfo.descrFiles.Some? ==> openPanelInfo.descrFiles.value.Valid())
    }
  }

  /** `Panel::default` */
  function DefaultPanel(): (p: Panel)
    ensures p.Valid()
    ensures p.openPanelInfo.inner.flags == Ffi.OPIF_NONE
    ensures p.openPanelInfo.inner.hostFile.None? && p.openPanelInfo.inner.curDir.None?
    ensures p.openPanelInfo.inner.format.None? && p.openPanelInfo.inner.panelTitle.None?
    ensures p.openPanelInfo.inner.infoLines.None? && p.openPanelInfo.inner.infoLinesNumber == 0
    ensures p.openPanelInfo.inner.descrFiles.None? && p.openPanelInfo.inner.descrFilesNumber == 0
    ensures p.openPanelInfo.curDir == New() && p.openPanelInfo.panelTitle == New()
    ensures p.openPanelInfo.hostFile.None? && p.openPanelInfo.format.None? && p.openPanelInfo.descrFiles.None?
    ensures p.openPanelInfo.infoLines == CommonFfi.New()
    ensures p.makeDirectoryName.None?
  {
    var inner := Ffi.OpenPanelInfo(
      0, 0, Ffi.OPIF_NONE, None, None, None, None, None, 0, None, 0,
      Ffi.NULL, 0, 0, Ffi.SM_DEFAULT, 0, Ffi.NULL, None, 0, Ffi.NULL_USER_DATA, Ffi.NULL);
    Panel(W.OpenPanelInfo(inner, None, New(), None, New(), CommonFfi.New(), None), None)
  }

  /** `set_current_directory`: a new owned `cur_dir`; the inner struct's pointer is left as it was. */
  function SetCurrentDirectory(p: Panel, dir: string): (q: Panel)
    ensures q.openPanelInfo.curDir == FromStr(dir)
    ensures q.openPanelInfo.inner == p.openPanelInfo.inner
    ensures q == p.(openPanelInfo := p.openPanelInfo.(curDir := q.openPanelInfo.curDir))
    ensures p.Valid() ==> q.Valid()
  {
    p.(openPanelInfo := p.openPanelInfo.(curDir := FromStr(dir)))
  }

  // ---------------------------------------------------------------- the table

  /** The table after `panel(h)`: unchanged when `h` is present, with a default entry added otherwise. */
  function WithPanel(panels: map<Ffi.Handle, Panel>, h: Ffi.Handle): (r: map<Ffi.Handle, Panel>)
    ensures r.Keys == panels.Keys + {h}
    ensures forall k :: k in panels ==> r[k] == panels[k]
  {
    if h in panels then panels else panels[h := DefaultPanel()]
  }

  /** `panel(h)` adds only `h`, keeps every existing entry, and grows the count by at most one. */
  lemma WithPanelFacts(panels: map<Ffi.Handle, Panel>, h: Ffi.Handle)
    ensures WithPanel(panels, h).Keys == panels.Keys + {h}
    ensures WithPanel(panels, h)[h] == if h in panels then panels[h] else DefaultPanel()
    ensures forall k :: k in panels ==> WithPanel(panels, h)[k] == panels[k]
    ensures |WithPanel(panels, h)| == |panels| + (if h in panels then 0 else 1)
  {
    if h !in panels {
      assert |panels.Keys + {h}| == |panels.Keys| + 1;
    } else {
      assert panels.Keys + {h} == panels.Keys;
    }
  }

  /** `remove_panel(h)` removes key `h` only; it changes nothing when `h` is absent. */
  lemma RemoveFacts(panels: map<Ffi.Handle, Panel>, h: Ffi.Handle)
    ensures (panels - {h}).Keys == panels.Keys - {h}
    ensures forall k :: k in panels && k != h ==> (panels - {h})[k] == panels[k]
    ensures h !in panels ==> panels - {h} == panels
    ensures |panels - {h}| == |panels| - (if h in panels then 1 else 0)
  {
    assert (panels - {h}).Keys == panels.Keys - {h};
    if h in panels {
      assert panels.Keys == (panels.Keys - {h}) + {h};
      assert |panels.Keys - {h}| + 1 == |panels.Keys|;
    } else {
      assert panels.Keys - {h} == panels.Keys;
    }
  }

  /** The `OpenPanelInfo` struct the entry points at once `src` has been copied in. */
  function EnrichedPanel(p: Panel, src: Rich.OpenPanelInfo): (r: Panel)
    ensures p.Valid() ==> r.Valid()
    ensures r.openPanelInfo.curDir == FromStr(src.curDir) && r.openPanelInfo.panelTitle == FromStr(src.panelTitle)
  {
    var hostFile := FromOptStr(src.hostFile);
    var curDir := FromStr(src.curDir);
    var format := FromOptStr(src.format);
    var panelTitle := FromStr(src.panelTitle);
    var infoLines := CommonFfi.From(
      seq(|src.infoLines|, i requires 0 <= i < |src.infoLines| => W.InfoPanelLineFrom(src.infoLines[i])),
      W.InfoPanelLineAsInner);
    var descrFiles := match src.descrFiles case None => None case Some(d) => Some(ArrayFromStrings(d));
    var inner := p.openPanelInfo.inner.(
      flags := src.flags,
      hostFile := AsPtrOrNull(hostFile),
      curDir := AsPtr(curDir),
      format := AsPtrOrNull(format),
      panelTitle := AsPtr(panelTitle),
      infoLines := Some(CommonFfi.AsPtr(infoLines, W.InfoPanelLineAsInner)),
      infoLinesNumber := CommonFfi.Len(infoLines, W.InfoPanelLineAsInner),
      descrFiles := match descrFiles case None => None case Some(d) => Some(ArrayAsPtr(d)),
      descrFilesNumber := match descrFiles case None => 0 case Some(d) => ArrayLen(d));
    p.(openPanelInfo := W.OpenPanelInfo(inner, hostFile, curDir, format, panelTitle, infoLines, descrFiles))
  }

  /**
   * The host's `OpenPanelInfo` after the enrich: copied from the entry's inner struct, with its
   * own size and `src.free_size`; `h_panel`, user data and instance are the host's.
   */
  function EnrichedInfo(info: Ffi.OpenPanelInfo, p: Panel, src: Rich.OpenPanelInfo): (r: Ffi.OpenPanelInfo)
    ensures r.structSize == Ffi.SizeOf(Ffi.OpenPanelInfoKind) && r.freeSize == src.freeSize
    ensures r.hPanel == info.hPanel && r.userData == info.userData && r.instance == info.instance
  {
    var raw := p.openPanelInfo.inner;
    info.(
      structSize := Ffi.SizeOf(Ffi.OpenPanelInfoKind),
      flags := raw.flags, hostFile := raw.hostFile, curDir := raw.curDir, format := raw.format,
      panelTitle := raw.panelTitle, infoLines := raw.infoLines, infoLinesNumber := raw.infoLinesNumber,
      descrFiles := raw.descrFiles, descrFilesNumber := raw.descrFilesNumber,
      panelModesArray := raw.panelModesArray, panelModesNumber := raw.panelModesNumber,
      startPanelMode := raw.startPanelMode, startSortMode := raw.startSortMode,
      startSortOrder := raw.startSortOrder, keyBar := raw.keyBar, shortcutData := raw.shortcutData,
      freeSize := src.freeSize)
  }

  /** The enrich keeps an entry valid: its inner struct points at the buffers it now owns. */
  lemma EnrichedPanelValid(p: Panel, src: Rich.OpenPanelInfo)
    requires p.Valid()
    ensures EnrichedPanel(p, src).Valid()
  {
  }

  /** After the `OpenPanelInfo` enrich the host reads back each text of `src` and its flags. */
  lemma EnrichedTexts(info: Ffi.OpenPanelInfo, p: Panel, src: Rich.OpenPanelInfo)
    ensures var out := EnrichedInfo(info, EnrichedPanel(p, src), src);
      && out.curDir.Some? && FromPtrStr(out.curDir) == FromStr(src.curDir)
      && out.panelTitle.Some? && FromPtrStr(out.panelTitle) == FromStr(src.panelTitle)
      && (out.hostFile.None? <==> src.hostFile.None?)
      && (src.hostFile.Some? ==> FromPtrStr(out.hostFile) == FromStr(src.hostFile.value))
      && (out.format.None? <==> src.format.None?)
      && (src.format.Some? ==> FromPtrStr(out.format) == FromStr(src.format.value))
      && out.flags == src.flags
  {
    var q := EnrichedPanel(p, src);
    PointerRoundTrip(q.openPanelInfo.curDir);
    PointerRoundTrip(q.openPanelInfo.panelTitle);
    if src.hostFile.Some? { PointerRoundTrip(q.openPanelInfo.hostFile.value); }
    if src.format.Some? { PointerRoundTrip(q.openPanelInfo.format.value); }
  }

  /** After the enrich the host reads one flat info line per line of `src`, and their number. */
  lemma EnrichedInfoLines(info: Ffi.OpenPanelInfo, p: Panel, src: Rich.OpenPanelInfo)
    ensures var out := EnrichedInfo(info, EnrichedPanel(p, src), src);
      && out.infoLinesNumber == |src.infoLines|
      && out.infoLines.Some? && |out.infoLines.value| == |src.infoLines|
      && (forall i :: 0 <= i < |src.infoLines| ==> out.infoLines.value[i] == W.InfoPanelLineFrom(src.infoLines[i]).inner)
  {
  }

  /** After the enrich the host reads each description file name of `src`, or null when there are none. */
  lemma EnrichedDescrFiles(info: Ffi.OpenPanelInfo, p: Panel, src: Rich.OpenPanelInfo)
    ensures var out := EnrichedInfo(info, EnrichedPanel(p, src), src);
      && (out.descrFiles.None? <==> src.descrFiles.None?)
      && out.descrFilesNumber == (if src.descrFiles.None? then 0 else |src.descrFiles.value|)
      && (src.descrFiles.Some? ==>
            |out.descrFiles.value| == |src.descrFiles.value|
            && forall i :: 0 <= i < |src.descrFiles.value| ==>
                 out.descrFiles.value[i].Some? && FromPtrStr(out.descrFiles.value[i]) == FromStr(src.descrFiles.value[i]))
  {
  }

  /**
   * The fields the enrich does not fill keep the entry's defaults (no panel modes, no key
   * bar, no shortcut data, default sorting); the size is its own and `h_panel`, user data and
   * instance are the host's.
   */
  lemma EnrichedDefaults(info: Ffi.OpenPanelInfo, p: Panel, src: Rich.OpenPanelInfo)
    requires p.Valid()
    ensures var out := EnrichedInfo(info, EnrichedPanel(p, src), src);
      && out.panelModesArray == Ffi.NULL && out.panelModesNumber == 0
      && out.startPanelMode == 0 && out.startSortMode == Ffi.SM_DEFAULT && out.startSortOrder == 0
      && out.keyBar == Ffi.NULL && out.shortcutData.None?
      && out.structSize == Ffi.SizeOf(Ffi.OpenPanelInfoKind) && out.freeSize == src.freeSize
      && out.hPanel == info.hPanel && out.userData == info.userData && out.instance == info.instance
  {
  }

  /** `GetFindDataInfo::enrich`: the host gets the flat items and their number; the entry is not used. */
  function EnrichGetFindDataInfo(info: Ffi.GetFindDataInfo, src: W.PluginPanelItems): (r: Ffi.GetFindDataInfo)
    ensures r.itemsNumber == src.panelItems.len
    ensures r.panelItem.Some? && |r.panelItem.value| == r.itemsNumber
    ensures forall i :: 0 <= i < r.itemsNumber ==> r.panelItem.value[i] == src.panelItems.buf[i].inner
    ensures r.structSize == info.structSize && r.hPanel == info.hPanel
    ensures r.opMode == info.opMode && r.instance == info.instance
  {
    info.(
      itemsNumber := CommonFfi.Len(src.panelItems, W.AsInner),
      panelItem := Some(CommonFfi.AsPtr(src.panelItems, W.AsInner)))
  }

  /** `ctx::Context`: the panel entries by handle. */
  class Context {
    var activePanels: map<Ffi.Handle, Panel>

    /** Every entry is valid. */
    ghost predicate Valid()
      reads this
    {
      forall h :: h in activePanels ==> activePanels[h].Valid()
    }

    /** `Context::default`: no panels. */
    constructor ()
      ensures activePanels == map[] && Valid()
    {
      activePanels := map[];
    }

    /** `panel(h)`: the entry of `h`, created with its defaults when it is missing. */
    method Panel(h: Ffi.Handle) returns (p: Panel)
      requires Valid()
      modifies this
      ensures Valid()
      ensures activePanels == WithPanel(old(activePanels), h)
      ensures p == activePanels[h] && p.Valid()
    {
      if h !in activePanels {
        activePanels := activePanels[h := DefaultPanel()];
      }
      p := activePanels[h];
    }

    /** `remove_panel(h)` */
    method RemovePanel(h: Ffi.Handle)
      requires Valid()
      modifies this
      ensures Valid()
      ensures activePanels == old(activePanels) - {h}
    {
      activePanels := activePanels - {h};
    }

    /** `count()`: the number of stored handles. */
    function Count(): (n: nat)
      reads this
      ensures n == 0 <==> activePanels == map[]
      ensures forall h :: h in activePanels ==> n > 0
    {
      |activePanels|
    }

    /** `panel(h).set_current_directory(dir)`, as `SetDirectoryW` does it. */
    method SetPanelCurrentDirectory(h: Ffi.Handle, dir: string)
      requires Valid()
      modifies this
      ensures Valid()
      ensures activePanels == WithPanel(old(activePanels), h)[h := SetCurrentDirectory(WithPanel(old(activePanels), h)[h], dir)]
    {
      var p := Panel(h);
      activePanels := activePanels[h := SetCurrentDirectory(p, dir)];
    }

    /**
     * `MakeDirectoryW`'s `update_name`: the entry of an existing handle keeps an owned copy of
     * `name`, and the returned pointer addresses that copy.
     */
    method SetMakeDirectoryName(h: Ffi.Handle, name: string) returns (ptr: Ffi.WPtr)
      requires Valid() && h in activePanels
      modifies this
      ensures Valid()
      ensures activePanels == old(activePanels)[h := old(activePanels)[h].(makeDirectoryName := Some(FromStr(name)))]
      ensures ptr == AsPtr(FromStr(name))
    {
      var p := activePanels[h];
      p := p.(makeDirectoryName := Some(FromStr(name)));
      activePanels := activePanels[h := p];
      ptr := AsPtr(p.makeDirectoryName.value);
    }

    /**
     * `OpenPanelInfo::enrich`: rebuilds the buffers of the entry of `h` (created if missing)
     * from `src` and points their inner struct at them, then copies that struct into the
     * host's `info`.
     */
    method EnrichOpenPanelInfo(info: Ffi.OpenPanelInfo, h: Ffi.Handle, src: Rich.OpenPanelInfo)
      returns (out: Ffi.OpenPanelInfo)
      requires Valid()
      modifies this
      ensures Valid()
      ensures activePanels == WithPanel(old(activePanels), h)[h := EnrichedPanel(WithPanel(old(activePanels), h)[h], src)]
      ensures out == EnrichedInfo(info, activePanels[h], src)
    {
      var panel := Panel(h);
      ghost var was := panel;
      var opi := panel.openPanelInfo;
      var hostFile := FromOptStr(src.hostFile);
      var curDir := FromStr(src.curDir);
      var format := FromOptStr(src.format);
      var panelTitle := FromStr(src.panelTitle);
      var lines := seq(|src.infoLines|, i requires 0 <= i < |src.infoLines| => W.InfoPanelLineFrom(src.infoLines[i]));
      var infoLines := CommonFfi.From(lines, W.InfoPanelLineAsInner);
      var descrFiles := match src.descrFiles case None => None case Some(d) => Some(ArrayFromStrings(d));
      var inner := opi.inner.(
        flags := src.flags,
        hostFile := AsPtrOrNull(hostFile),
        curDir := AsPtr(curDir),
        format := AsPtrOrNull(format),
        panelTitle := AsPtr(panelTitle),
        infoLines := Some(CommonFfi.AsPtr(infoLines, W.InfoPanelLineAsInner)),
        infoLinesNumber := CommonFfi.Len(infoLines, W.InfoPanelLineAsInner),
        descrFiles := match descrFiles case None => None case Some(d) => Some(ArrayAsPtr(d)),
        descrFilesNumber := match descrFiles case None => 0 case Some(d) => ArrayLen(d));
      panel := panel.(openPanelInfo := W.OpenPanelInfo(inner, hostFile, curDir, format, panelTitle, infoLines, descrFiles));
      EnrichedPanelValid(was, src);
      activePanels := activePanels[h := panel];

      var raw := panel.openPanelInfo.inner;
      out := info.(
        structSize := Ffi.SizeOf(Ffi.OpenPanelInfoKind),
        flags := raw.flags, hostFile := raw.hostFile, curDir := raw.curDir, format := raw.format,
        panelTitle := raw.panelTitle, infoLines := raw.infoLines, infoLinesNumber := raw.infoLinesNumber,
        descrFiles := raw.descrFiles, descrFilesNumber := raw.descrFilesNumber,
        panelModesArray := raw.panelModesArray, panelModesNumber := raw.panelModesNumber,
        startPanelMode := raw.startPanelMode, startSortMode := raw.startSortMode,
        startSortOrder := raw.startSortOrder, keyBar := raw.keyBar, shortcutData := raw.shortcutData,
        freeSize := src.freeSize);
    }
  }
}
