/**
 * The plugin's lifetime (`farmanager/src/lib.rs`): the process-wide slots for the plugin
 * object, the host's API tables and the two contexts, how they are filled and emptied, and
 * how panics are reported.
 */
module Lib {
  import opened Wrappers
  import Ffi
  import BasicCtx
  import PanelCtx

  /** `ReturnCode` */
  datatype ReturnCode = Success | UserCancel

  /** `code as intptr_t`: the discriminants. */
  function ReturnCodeValue(c: ReturnCode): (n: int)
    ensures n == 1 <==> c.Success?
    ensures n == -1 <==> c.UserCancel?
  {
    match c
    case Success => 1
    case UserCancel => -1
  }

  /** `failure::Error`: an error value the plugin returns; only its message is kept. */
  datatype Error = Error(message: string)

  /**
   * The payload of a panic, as `handle_panic` can inspect it: a `&str` (what `panic!` with a
   * literal carries), a `String` (a formatted `panic!`), or anything else.
   */
  datatype PanicPayload = StrPayload(text: string) | StringPayload(text: string) | OtherPayload

  /** How a call into the plugin ends: with a value, or with a panic carrying a payload. */
  datatype Invocation<+T> = Returned(value: T) | Panicked(payload: PanicPayload)

  /**
   * How an exported function ends for the host: it returns a value, or a panic escapes it and
   * the process aborts.
   */
  datatype Outcome<+T> = Completes(value: T) | Aborts

  /** The plugin object; its behaviour is given to each entry point as a parameter. */
  datatype FarPlugin = FarPlugin(id: nat)

  const PLUGIN_NOT_INITIALIZED: string := "Plugin is not initialized"
  const FALLBACK_PANIC_MESSAGE: string := "Oups! Something went wrong."

  /** The payload of a panic the bindings raise themselves (a literal message). */
  function PayloadOf(p: Panic): (payload: PanicPayload)
    ensures payload.StrPayload? && payload.text == p.message
  {
    StrPayload(p.message)
  }

  /** `handle_panic`: the line it logs for a payload. */
  function HandlePanic(payload: PanicPayload): (line: string)
    ensures payload.OtherPayload? ==> line == FALLBACK_PANIC_MESSAGE
    ensures !payload.OtherPayload? ==> line == payload.text
  {
    match payload
    case StrPayload(text) => text
    case StringPayload(text) => text
    case OtherPayload => FALLBACK_PANIC_MESSAGE
  }

  /** A panic the bindings raise is logged with its own message. */
  lemma HandleOwnPanic(p: Panic)
    ensures HandlePanic(PayloadOf(p)) == p.message
  {
  }

  /** The slots `destroy` empties. */
  datatype Slot = PanelContextSlot | BasicContextSlot | StandardFunctionsSlot | FarApiSlot | PluginSlot

  /** The slots `destroy` releases, in its order, given which of them hold something. */
  function Released(panel: bool, basic: bool, standardFunctions: bool, farApi: bool, plugin: bool): (r: seq<Slot>)
    ensures |r| <= 5
    ensures PanelContextSlot in r <==> panel
    ensures BasicContextSlot in r <==> basic
    ensures StandardFunctionsSlot in r <==> standardFunctions
    ensures FarApiSlot in r <==> farApi
    ensures PluginSlot in r <==> plugin
  {
    (if panel then [PanelContextSlot] else [])
    + (if basic then [BasicContextSlot] else [])
    + (if standardFunctions then [StandardFunctionsSlot] else [])
    + (if farApi then [FarApiSlot] else [])
    + (if plugin then [PluginSlot] else [])
  }

  /**
   * The thread-local slots: `FAR_PLUGIN`, `FAR_API`, `FAR_STANDARD_FUNCTIONS`, and the
   * `CONTEXT` cells of the basic and panel modules.
   */
  class Runtime {
    var plugin: Option<FarPlugin>
    var farApi: Option<Ffi.PluginStartupInfo>
    var standardFunctions: Ffi.FarStandardFunctions?
    var basicContext: BasicCtx.Context?
    var panelContext: PanelCtx.Context?

    /** Every slot starts empty. */
    constructor ()
      ensures plugin.None? && farApi.None? && standardFunctions == null
      ensures basicContext == null && panelContext == null
    {
      plugin := None;
      farApi := None;
      standardFunctions := null;
      basicContext := null;
      panelContext := null;
    }

    /** `init`: stores the plugin and gives both modules fresh default contexts. */
    method Init(p: FarPlugin)
      modifies this
      ensures plugin == Some(p)
      ensures basicContext != null && fresh(basicContext)
      ensures basicContext.pluginInfo.None? && basicContext.globalInfo.None?
      ensures panelContext != null && fresh(panelContext)
      ensures panelContext.activePanels == map[] && panelContext.Valid()
      ensures farApi == old(farApi) && standardFunctions == old(standardFunctions)
    {
      plugin := Some(p);
      basicContext := new BasicCtx.Context();
      panelContext := new PanelCtx.Context();
    }

    /** `destroy`: empties the five slots in order, releasing what each held. */
    method Destroy() returns (released: seq<Slot>)
      modifies this
      ensures plugin.None? && farApi.None? && standardFunctions == null
      ensures basicContext == null && panelContext == null
      ensures released == Released(
        old(panelContext) != null, old(basicContext) != null, old(standardFunctions) != null,
        old(farApi).Some?, old(plugin).Some?)
    {
      released := Released(panelContext != null, basicContext != null, standardFunctions != null, farApi.Some?, plugin.Some?);
      panelContext := null;
      basicContext := null;
      standardFunctions := null;
      farApi := None;
      plugin := None;
    }

    /** `plugin(f)`: the stored plugin, or the "Plugin is not initialized" panic. */
    function Plugin(): (r: Result<FarPlugin, Panic>)
      reads this
      ensures r.Ok? <==> plugin.Some?
      ensures r.Ok? ==> r.value == plugin.value
      ensures r.Err? ==> r.error == Panic(PLUGIN_NOT_INITIALIZED)
    {
      match plugin
      case Some(p) => Ok(p)
      case None => Err(Panic(PLUGIN_NOT_INITIALIZED))
    }

    /** `far_api(f)`: the stored API table, or the same panic. */
    function FarApi(): (r: Result<Ffi.PluginStartupInfo, Panic>)
      reads this
      ensures r.Ok? <==> farApi.Some?
      ensures r.Ok? ==> r.value == farApi.value
      ensures r.Err? ==> r.error == Panic(PLUGIN_NOT_INITIALIZED)
    {
      match farApi
      case Some(api) => Ok(api)
      case None => Err(Panic(PLUGIN_NOT_INITIALIZED))
    }
  }
}
