# Far Manager plugin bindings: a verified model

This project models the core of the Rust bindings for Far Manager 3's C plugin interface
(`farmanager`), together with the crate that builds a plugin's language files
(`farmanager_build`). The model covers:

- the wide-string codec and the owned arrays that hand NUL-terminated UTF-16 buffers to the
  host;
- the conversions between the host's flat `repr(C)` structs and the rich Rust records;
- the per-handle panel context;
- the exported panel and basic entry points, including their `struct_size` handshake, their
  return codes and what they write back into host memory;
- the dialog item and dialog message translation;
- the plugin's lifetime slots and how panics are reported;
- the bit-mask facts of the ABI constants;
- the langpack extraction from the attributes of a Rust enum, and the `.lng` files the build
  script writes.

## How the system is represented

- **Host pointers.** A raw wide-string pointer is a `WPtr`: `None` is null, and `Some(units)`
  is what can be read through it. A pointer into a buffer the bindings own is that buffer's
  code units followed by the terminating 0. Addresses themselves are not modelled, so "the
  pointer still addresses the old buffer" becomes "the flat struct's field is unchanged".
- **Plugin behaviour.** What the plugin does when an entry point calls it is a function
  parameter that returns an `Invocation`: `Returned(value)` or `Panicked(payload)`.
- **Panics.**
  - A panic the bindings raise themselves is an `Err(Panic(message))`.
  - A panic that `catch_unwind` catches becomes the entry point's fallback value.
  - A panic that escapes an exported function ends the host process: the model's `Aborts`.
- **Host answers.** Calls into the host (menus, messages, input boxes, dialogs, directory
  lists) are modelled by the arguments the bindings pass (a `...Call` record). The host's
  answer is a parameter.
- **Stateful parts.** These are classes:
  - the runtime slots (`Lib.Runtime`);
  - the basic context (`BasicCtx.Context`);
  - the panel context (`PanelCtx.Context`, a map from handle to panel entry);
  - the host array whose flags `GetFilesW` writes back (an `array`).
- **Imperative loops.** Loops in the source are `while` loops here. Each one is proved
  against a function that states its result.

The langpack tool works on the parsed syntax tree of a source file. The parser is a
parameter (`parse`), and the tree is an abstract datatype with enums, variants and
attributes. The source directory is a sequence of entries, and the output is the set of
files written plus the log lines of `build_output.txt`.

### Behaviour of the code worth knowing

- **Some panics end the host.** A panic that escapes an export ends the host, and the
  members for those exports return `Aborts`. This happens in two ways.
  - `GetPluginInfoW`, `SetStartupInfoW`, `ExitFARW` and the dialog callback call the plugin
    with no `catch_unwind` around it.
  - `AnalyseW`, `CloseAnalyseW` and `CompareW` run the plugin and their `struct_size`
    assertion inside `catch_unwind`. But their `Err(_)` arm calls `unimplemented!()`, which
    panics again, outside the catch.
- **Directory listings are not stored.** `get_find_data` hands the plugin's own items to the
  host. It only creates the panel entry, and nothing of the listing is kept in it.
- **A stale pointer survives `set_directory`.** `set_current_directory` replaces only the
  owned buffer. Until the next `GetOpenPanelInfoW`, the flat struct still holds the old
  pointer, and `PanelCtx.SetCurrentDirectory` states exactly that.

## Model

| member | source | states |
|---|---|---|
| Utf16.UnitsBeforeNul | farmanager/src/common/string.rs:71-89 | the result is the longest 0-free prefix of the units: it has no 0, is a prefix, and is followed by a 0 when shorter than the input |
| Utf16.TextBeforeNul | farmanager/src/common/string.rs:53-69 | the result is the longest NUL-free prefix of the text |
| Utf16.EncodeCharShape | farmanager/src/common/string.rs:53-69 | an encoded scalar value is one non-surrogate unit equal to the value, or a high/low surrogate pair that combines back into it; only NUL encodes to 0 |
| Utf16.EncodeAppend | farmanager/src/common/string.rs:53-69 | encoding distributes over concatenation |
| Utf16.DecodeEncode | farmanager/src/common/string.rs:42-44 | lossy decoding undoes encoding for every text |
| Utf16.EncodeHasNul | farmanager/src/common/string.rs:53-69 | the encoding holds a 0 unit exactly when the text holds a NUL |
| Utf16.EncodeBeforeNul | farmanager/src/common/string.rs:53-69 | cutting the encoding at its first 0 equals encoding the text cut at its first NUL |
| Utf16.UnitsBeforeNulOfNonZeroPrefix | farmanager/src/common/string.rs:71-89 | a 0-free prefix survives the cut unchanged |
| Utf16.TextBeforeNulOfNulFree | farmanager/src/common/string.rs:53-69 | a NUL-free text is its own prefix before a NUL |
| Utf16.UnitsBeforeNulOfNulFree | farmanager/src/common/string.rs:71-89 | 0-free units are their own prefix before a 0 |
| Utf16.BeforeNulOfTerminated | farmanager/src/common/string.rs:71-89 | appending a terminator does not change the cut |
| Utf16.EncodeLength | farmanager/src/common/string.rs:53-69 | an encoding has at least one and at most two units per character |
| WideStr.WideString.Buffer | farmanager/src/common/string.rs:9-11 | the owned buffer is the content followed by one 0, and reading it up to its first 0 gives the content |
| WideStr.New | farmanager/src/common/string.rs:14-18 | the new wide string is empty and its buffer is just the terminator |
| WideStr.AsPtr | farmanager/src/common/string.rs:26-29 | the pointer addresses the owned terminated buffer |
| WideStr.AsPtrOrNull | farmanager/src/common/string.rs:26-29 | the pointer is null exactly for `None`, and otherwise addresses the string's buffer |
| WideStr.FromOptStr | farmanager/src/common/string.rs:53-69 | an optional text converts to `Some` exactly when present, holding the converted text |
| WideStr.FromPtrStr | farmanager/src/common/string.rs:20-24 | the copy is the prefix of the pointed-to units before their first 0 |
| WideStr.FromStr | farmanager/src/common/string.rs:53-69 | the content is the encoding of the text before its first NUL, and the whole text's encoding when it has no NUL |
| WideStr.FromSlice | farmanager/src/common/string.rs:71-89 | a slice is read up to its first 0, and is kept whole when it has none |
| WideStr.ToStringLossy | farmanager/src/common/string.rs:42-44 | the decoded text has no NUL and is no longer than the content |
| WideStr.Clone | farmanager/src/common/string.rs:91-97 | the clone has the same content and the same terminated buffer |
| WideStr.DecodeLossyNulFree | farmanager/src/common/string.rs:42-44 | decoding 0-free units gives NUL-free text no longer than the units |
| WideStr.StrRoundTrip | farmanager/src/common/string.rs:42-69 | for a NUL-free text, converting to a wide string and back, or printing it with `Display`, gives the text |
| WideStr.Display | farmanager/src/common/string.rs:99-103 | `Display` prints the lossy decoding: the text has no NUL and is no longer than the content; `StrRoundTrip` shows a NUL-free text prints as itself |
| WideStr.StrRoundTripWithNul | farmanager/src/common/string.rs:42-69 | any text comes back cut at its first NUL |
| WideStr.PointerRoundTrip | farmanager/src/common/string.rs:20-29 | reading back a pointer to an owned buffer, or re-reading its buffer or its content as a slice, gives the same wide string |
| WideStr.ArrayAsPtr | farmanager/src/common/string.rs:122-124 | there are `len` pointers, and pointer `i` reads back as string `i` |
| WideStr.ArrayLen | farmanager/src/common/string.rs:126-128 | the length is the number of strings and the number of pointers |
| WideStr.ArrayNew | farmanager/src/common/string.rs:113-120 | the new array is empty and well formed |
| WideStr.ArrayFromWide | farmanager/src/common/string.rs:131-144 | the array owns exactly the given strings, points at each of them, and has their number as its length |
| WideStr.ArrayFromStrings | farmanager/src/common/string.rs:146-160 | the array has one converted string per text, in order |
| WideStr.ArrayFromStringsContent | farmanager/src/common/string.rs:146-160 | pointer `i` is the encoding of text `i` cut at a NUL, and reads back as the text itself when it is NUL-free |
| CommonFfi.New | farmanager/src/common/ffi.rs:17-23 | both buffers of a new array are empty and its length is 0 |
| CommonFfi.From | farmanager/src/common/ffi.rs:34-47 | the array keeps the given records, its length is their number, and its flat buffer holds the inner struct of each record at the same index |
| CommonFfi.AsPtr | farmanager/src/common/ffi.rs:25-27 | the host reads `len` flat structs, where entry `i` is the inner struct of record `i` |
| CommonFfi.Len | farmanager/src/common/ffi.rs:29-31 | the length is the size of both buffers |
| CommonFfi.FromAsPtr | farmanager/src/common/ffi.rs:34-47 | an array built from records shows the host exactly their inner structs, in order, and their number |
| PanelWrapper.WithInner | farmanager/src/panel/wrapper.rs:28-32 | writing through `as_mut_inner` replaces the inner struct and keeps the owned strings |
| PanelWrapper.AsInner | farmanager/src/panel/wrapper.rs:22-26 | `as_inner` gives the flat struct the item owns; `WithInner` shows writing it back keeps the owned strings |
| PanelWrapper.FromRich | farmanager/src/panel/wrapper.rs:40-90 | the file name points at an owned copy; each optional name is null exactly when absent, and otherwise points at its copy; times, sizes and attributes are copied; flags are `PPIF_NONE`; link count, CRC, custom columns and user data are zero or null |
| PanelWrapper.FromRichReadsBack | farmanager/src/panel/wrapper.rs:42-66 | what the host reads through each name pointer is the encoding of that name cut at a NUL |
| PanelWrapper.InfoPanelLineFrom | farmanager/src/panel/wrapper.rs:115-128 | both texts point at owned copies, and the flags are copied |
| PanelWrapper.InfoPanelLineAsInner | farmanager/src/panel/wrapper.rs:109-113 | `as_inner` gives the flat line the wrapper owns; after `InfoPanelLineFrom` its pointers address the owned texts |
| PanelWrapper.InfoPanelLineReadsBack | farmanager/src/panel/wrapper.rs:115-128 | both texts of a converted line read back as the source texts, cut at a NUL |
| PanelWrapper.PluginPanelItemsFrom | farmanager/src/panel.rs:157-164 | there is one converted item per rich item, at the same index |
| PanelTypes.AllAttributesIsUnion | farmanager/src/panel.rs:199-224 | the set of all attributes is the union of the fourteen declared flags |
| PanelTypes.FromBitsTruncate | farmanager/src/panel.rs:199-224 | truncation keeps every declared bit of the input |
| PanelTypes.TruncateKeepsDeclared | farmanager/src/panel.rs:199-224 | a value with only declared bits is its own truncation |
| PanelTypes.FromBits | farmanager/src/panel.rs:199-224 | the result is `Some(bits)` exactly when no undeclared bit is set |
| PanelTypes.PutFilesCode | farmanager/src/panel.rs:49-53 | the discriminants are 1, 2 and -1, one per variant |
| PanelCtx.DefaultPanel | farmanager/src/panel/ctx.rs:18-57 | a default entry is valid; its flags are `OPIF_NONE`; its pointers are null and its counts 0; its directory and title buffers are empty; it has no host file, format, description files, info lines or pending directory name |
| PanelCtx.SetCurrentDirectory | farmanager/src/panel/ctx.rs:62-64 | only the owned `cur_dir` buffer is replaced; the inner struct, with its old pointer, is unchanged |
| PanelCtx.WithPanelFacts | farmanager/src/panel/ctx.rs:74-79 | `panel(h)` adds only `h`, with a default entry when `h` was missing; it keeps every existing entry; the count grows by one exactly when `h` was missing |
| PanelCtx.WithPanel | farmanager/src/panel/ctx.rs:74-79 | the table after `panel(h)` has the old keys plus `h`, and every existing entry is kept |
| PanelCtx.Context.Count | farmanager/src/panel/ctx.rs:87-89 | the count is 0 exactly when no panel is active, and positive while any handle has an entry |
| PanelCtx.RemoveFacts | farmanager/src/panel/ctx.rs:82-89 | `remove_panel(h)` deletes only `h`, leaves the table alone when `h` is absent, and lowers the count by one exactly when `h` was present |
| PanelCtx.EnrichedPanelValid | farmanager/src/panel/ctx.rs:109-168 | the enrich keeps a panel entry valid |
| PanelCtx.EnrichedTexts | farmanager/src/panel/ctx.rs:113-130 | the host reads back the source's directory and title; host file and format are null exactly when absent, and otherwise read back as the source texts; the flags are the source's |
| PanelCtx.EnrichedPanel | farmanager/src/panel/ctx.rs:109-145 | the enriched entry owns the converted directory and title and stays valid; `EnrichedTexts` states what the host reads back |
| PanelCtx.EnrichedInfo | farmanager/src/panel/ctx.rs:147-166 | the host struct gets its own size and the source's `free_size`, and keeps the host's panel handle, user data and instance |
| PanelCtx.EnrichedInfoLines | farmanager/src/panel/ctx.rs:132-138 | the host gets one flat info line per source line, in order, with their number |
| PanelCtx.EnrichedDescrFiles | farmanager/src/panel/ctx.rs:139-145 | the description files are null with count 0 exactly when absent, and otherwise their number and each name read back |
| PanelCtx.EnrichedDefaults | farmanager/src/panel/ctx.rs:147-166 | panel modes, start mode, sort mode and order, key bar and shortcut data keep the entry's defaults whatever the source says; the size is set; the free size is the source's; handle, user data and instance are the host's |
| PanelCtx.EnrichGetFindDataInfo | farmanager/src/panel/ctx.rs:102-107 | the host's item pointer addresses the flat copies and the item count is their number; nothing else changes |
| PanelCtx.Context.constructor | farmanager/src/panel/ctx.rs:93-99 | a new context has no panels |
| PanelCtx.Context.Panel | farmanager/src/panel/ctx.rs:74-79 | the table becomes `WithPanel(old, h)` and the entry of `h` is returned |
| PanelCtx.Context.RemovePanel | farmanager/src/panel/ctx.rs:82-85 | the table loses key `h` and nothing else |
| PanelCtx.Context.SetPanelCurrentDirectory | farmanager/src/panel.rs:1034-1041 | the entry of `h`, created if missing, gets the new current directory; no other entry changes |
| PanelCtx.Context.SetMakeDirectoryName | farmanager/src/panel.rs:706-713 | the entry keeps an owned copy of the name, and the returned pointer addresses that copy |
| PanelCtx.Context.EnrichOpenPanelInfo | farmanager/src/panel/ctx.rs:109-168 | the entry of `h`, created if missing, is rebuilt from the source; the host's struct is the entry's inner struct with the host's own fields kept |
| PanelExports.RawText | farmanager/src/panel.rs:166-197 | a text read from a host pointer holds no NUL |
| PanelExports.RawOptText | farmanager/src/panel.rs:166-197 | an optional host text is `None` exactly when the pointer is null |
| PanelExports.FromRawFields | farmanager/src/panel.rs:166-197 | raw to rich copies times, sizes, flags, link count and CRC; it reads the names back, with a null optional name giving `None`; it drops unknown attribute bits |
| PanelExports.FromRaw | farmanager/src/panel.rs:166-197 | `From<&ffi::PluginPanelItem>` for an item with a file name; `FromRawFields` states what it keeps |
| PanelExports.OptBeforeNul | farmanager/src/panel/wrapper.rs:42-66 | cutting an optional text at a NUL keeps whether it is present |
| PanelExports.NameReadsBack | farmanager/src/panel/wrapper.rs:42-47 | a converted name pointer reads back as the name cut at a NUL |
| PanelExports.OptNameReadsBack | farmanager/src/panel/wrapper.rs:54-66 | a converted optional name reads back as itself cut at a NUL, and null as `None` |
| PanelExports.RichRawRich | farmanager/src/panel.rs:166-197 | rich to flat to rich gives back names, optional names, times, sizes and attributes (texts up to a NUL), with flags `PPIF_NONE` and link count and CRC 0 |
| PanelExports.RichRawRichNulFree | farmanager/src/panel/wrapper.rs:40-90 | for NUL-free names the round trip is exact apart from the three reset fields |
| PanelExports.RichItems | farmanager/src/panel.rs:436-438 | there are exactly `n` converted items |
| PanelExports.ConvertRawItems | farmanager/src/panel.rs:434-439 | the loop yields one rich item per host item, in order |
| PanelExports.GetFilesAttributes | farmanager/src/panel.rs:805-811 | `GetFilesW`'s attribute path gives the same value as truncating the bits |
| PanelExports.GetFilesItem | farmanager/src/panel.rs:779-815 | `GetFilesW`'s own item conversion equals the `From` conversion |
| PanelExports.FarPanelDirectoryFrom | farmanager/src/panel.rs:121-129 | name and file are read from their pointers, and the plugin id is copied |
| PanelExports.MakeDirectoryInfoFrom | farmanager/src/panel.rs:309-317 | handle, name and mode are read from the host's struct |
| PanelExports.ProcessPanelEventInfoFrom | farmanager/src/panel.rs:337-355 | each event code gives its event, with the parameter read when it carries one |
| PanelExports.ProcessHostFileInfoFrom | farmanager/src/panel.rs:363-378 | handle and mode are copied, with one rich item per host item |
| PanelExports.ProcessPanelInputInfoFrom | farmanager/src/panel.rs:385-392 | handle and input record are copied |
| PanelExports.PutFilesInfoFrom | farmanager/src/panel.rs:402-424 | `move_file` is true for any nonzero value; the source path is read, with one rich item per host item |
| PanelExports.SetFindListInfoFrom | farmanager/src/panel.rs:432-446 | the handle is copied, with one rich item per host item |
| PanelExports.PanelToHandle | farmanager/src/panel.rs:455-464 | `Active` and `None` map to the handles -1, `Passive` to -2, and a handle to itself |
| PanelExports.PanelHandles | farmanager/src/panel.rs:455-464 | `Active` and `None` give the same handle, and a handle of -1 cannot be told from `Active` |
| PanelExports.BoolCode | farmanager/src/panel.rs:918-927 | `Ok(true)` gives 1; `Ok(false)` and a caught panic give 0 |
| PanelExports.OrderingCode | farmanager/src/panel.rs:638-643 | `Less`, `Equal`, `Greater` and no order give -1, 0, 1 and -2 |
| PanelExports.OrderingCodeInjective | farmanager/src/panel.rs:638-643 | distinct answers give distinct codes, and the sign of the code is the order |
| PanelExports.AnalyseW | farmanager/src/panel.rs:521-548 | a matching size and a returning plugin give its handle; anything else aborts in the `unimplemented!()` arm |
| PanelExports.CloseAnalyseWAsWritten | farmanager/src/panel.rs:550-574 | as written: completes only when the struct size equals the size of `AnalyseInfo` |
| PanelExports.CloseAnalyseWAsWrittenAborts | farmanager/src/panel.rs:555 | as written, every call with a well-formed `CloseAnalyseInfo` aborts |
| PanelExports.CloseAnalyseW | farmanager/src/panel.rs:550-574 | corrected: completes exactly when the size is `CloseAnalyseInfo`'s and the plugin returns |
| PanelExports.CloseAnalyseWCompletes | farmanager/src/panel.rs:550-574 | with the corrected check, a well-formed struct reaches the plugin with the host's handle |
| PanelExports.CompareW | farmanager/src/panel.rs:620-654 | a matching size and a returning plugin give its ordering's code; otherwise it aborts |
| PanelExports.CompareWDefault | farmanager/src/panel.rs:67-69 | the default `compare` makes a well-formed `CompareW` return -2 |
| PanelExports.PutFilesW | farmanager/src/panel.rs:959-989 | it returns the plugin's code on `Ok`, and 0 for `Err`, a panic or a wrong size |
| PanelExports.ProcessPanelEventW | farmanager/src/panel.rs:903-929 | 1 exactly when the size matches and the plugin returns `true` |
| PanelExports.ProcessHostFileW | farmanager/src/panel.rs:931-957 | 1 exactly when the size matches and the plugin returns `true` |
| PanelExports.ProcessPanelInputW | farmanager/src/panel.rs:991-1017 | 1 exactly when the size matches and the plugin returns `true` |
| PanelExports.SetFindListW | farmanager/src/panel.rs:1056-1078 | 1 exactly when the size matches and the plugin returns `true` |
| PanelExports.FreeFindDataW | farmanager/src/panel.rs:752-769 | the plugin is told the host's handle exactly when the size matches |
| PanelExports.DeleteFilesW | farmanager/src/panel.rs:656-694 | the plugin gets one rich item per host item; the result is 1 for `Ok`, and 0 for `Err`, a panic or a wrong size |
| PanelExports.GetFindDataW | farmanager/src/panel.rs:576-618 | on `Ok` with a context, the handle's entry is created if missing, the host gets the flat items and 1 is returned; otherwise 0 and the host's struct is unchanged |
| PanelExports.MakeDirectoryW | farmanager/src/panel.rs:696-750 | silent mode returns the plugin's code; non-silent `Ok` returns 1 whatever the code; `Err`, a panic, a wrong size or no context give 0; outside silent mode the edited name is stored in the entry and the host's name pointer is redirected to it |
| PanelExports.MakeDirectoryCodes | farmanager/src/panel.rs:726-733 | the result is 0, 1 or -1, and it is 1 whenever the mode is not silent and the plugin returns `Ok` |
| PanelExports.FlagsWrittenBack | farmanager/src/panel.rs:836-842 | item `i` takes the plugin's flags when the plugin's list has an item `i`; every other field, and every later item, is unchanged |
| PanelExports.GetFilesInfoFrom | farmanager/src/panel.rs:816-823 | handle, count and mode are copied; `move_file` is nonzero; the destination is read; the items are the converted host items |
| PanelExports.GetFilesW | farmanager/src/panel.rs:771-856 | on `Ok`, the plugin's code is returned and the host array becomes `FlagsWrittenBack`; `Err`, a panic or a wrong size give 0 with the array unchanged |
| PanelExports.ReadRawItems | farmanager/src/panel.rs:779-815 | the first pass yields one converted item per host item, in order |
| PanelExports.WriteBackFlags | farmanager/src/panel.rs:836-842 | the write-back pass leaves the host array equal to `FlagsWrittenBack` of its old contents |
| PanelExports.GetOpenPanelInfoW | farmanager/src/panel.rs:858-880 | when the size matches and the plugin returns, the handle's entry is rebuilt from the plugin's information and the host's struct is filled from it; otherwise nothing changes |
| PanelExports.ClosePanelW | farmanager/src/panel.rs:882-901 | with a matching size and a context, the handle's entry is removed and the plugin is told that handle; otherwise nothing changes and the plugin is not told |
| PanelExports.SetDirectoryW | farmanager/src/panel.rs:1019-1054 | on `Ok` the entry's current directory becomes the path and 1 is returned; otherwise 0 with the context unchanged |
| PanelExports.GetDirList | farmanager/src/panel.rs:1080-1106 | a host return of 0 is `Err`; otherwise one rich item per host item, in order, and the host list is freed after copying; no API table panics |
| PanelExports.GetPluginDirList | farmanager/src/panel.rs:1108-1135 | the same, through the plugin-list entry points |
| BasicCtx.PluginMenuItemFrom | farmanager/src/basic/ctx.rs:23-45 | `count` is the number of items; guid `i` is item `i`'s guid; label `i` reads back as item `i`'s label |
| BasicCtx.AsRaw | farmanager/src/basic/ctx.rs:49-51 | `as_raw` gives the flat menu struct; `PluginMenuItemFrom` states what it points at |
| BasicCtx.PluginInfoContextFrom | farmanager/src/basic/ctx.rs:63-76 | the context holds the flags, the three menus built from the item lists, and an owned command prefix |
| BasicCtx.Context.constructor | farmanager/src/basic/ctx.rs:90-97 | a new context has neither plugin information nor global information |
| BasicCtx.Context.PluginGuid | farmanager/src/basic/ctx.rs:85-87 | the stored guid; without global information, the "not initialized" panic |
| BasicCtx.Context.EnrichGlobalInfo | farmanager/src/basic/ctx.rs:100-119 | stores a fresh global context, writes size, versions and guid, and points the three texts at the context's copies, which read back as the source texts |
| BasicCtx.Context.EnrichPluginInfo | farmanager/src/basic/ctx.rs:121-135 | replaces the plugin context; writes flags and the three menus; the command prefix is null exactly when absent; the size is left as it was |
| BasicExports.PluginGuidOf | farmanager/src/basic.rs:181-183 | the context's guid; no context gives the "Plugin is not initialized" panic |
| BasicExports.OptStrPtr | farmanager/src/basic.rs:241-243 | an optional text becomes null exactly when absent, and otherwise a pointer to its conversion |
| BasicExports.OptionalIndex | farmanager/src/basic.rs:275-276 | a host answer of -1 is `None`, and a nonnegative answer is itself |
| BasicExports.RawMenuItem | farmanager/src/basic.rs:251-262 | flags and accelerator are copied; the text points at the item's label and reads back as it; user data and reserved are 0 |
| BasicExports.RawTextOf | farmanager/src/basic.rs:251-262 | what the host reads through a menu item's text; `RawMenuItem` shows it is the item's label |
| BasicExports.Menu | farmanager/src/basic.rs:233-281 | a guid or API panic comes first; otherwise the call is `IsMenuCall`: -1 for a missing position, 0 for a missing height, the break keys (or none) ended by the zero key, one flat item per item; both answers map -1 to `None` |
| BasicExports.BuildMenuCall | farmanager/src/basic.rs:239-272 | the arguments built from the inputs satisfy `IsMenuCall` |
| BasicExports.MenuItemsRaw | farmanager/src/basic.rs:251-262 | the loop yields one flat item per item, in order, each pointing at its own label |
| BasicExports.Message | farmanager/src/basic.rs:301-332 | `Lines` clears `FMSG_ALLINONE` and passes the line pointers and their count; `AllInOne` sets it and passes one text with count 0; other flags pass unchanged; -1 is `None` |
| BasicExports.InputBox | farmanager/src/basic.rs:199-231 | the result is `Some` exactly when the host answers nonzero, holding the buffer up to its first 0 |
| BasicExports.ShortcutInfoAsWritten | farmanager/src/basic.rs:433-455 | as written: `shortcut_data` is present exactly when `host_file` is not null |
| BasicExports.ShortcutDataLost | farmanager/src/basic.rs:439-448 | a shortcut with data but no host file loses its data as written |
| BasicExports.ShortcutInfoFrom | farmanager/src/basic.rs:433-455 | corrected: each optional string is `None` exactly when its own pointer is null, and otherwise is read from it |
| BasicExports.ShortcutInfoAgrees | farmanager/src/basic.rs:433-455 | the two agree when both pointers are null or both are not |
| BasicExports.OpenFromOf | farmanager/src/basic.rs:417-534 | `OPEN_FROMMACRO` panics with "not implemented"; every other mode gives its own variant, with its data read from the host's struct; a shortcut is read as written, with `shortcut_data` present exactly when `host_file` is non-null |
| BasicExports.OpenFromCode | farmanager/src/basic.rs:417-534 | the open mode of each variant; `OpenFromOf` is proved to give a variant of the host's mode |
| BasicExports.OpenFromOfShortcutAgrees | farmanager/src/basic.rs:433-455 | when the host passes both shortcut pointers or neither, the shortcut read as written is the corrected reading |
| BasicExports.OpenW | farmanager/src/basic.rs:412-546 | a wrong size, `OPEN_FROMMACRO` or a panic give the null handle 0; otherwise the plugin's handle for the translated mode, with a shortcut read as written |
| BasicExports.OpenWLosesShortcutData | farmanager/src/basic.rs:439-448 | for a shortcut with data and a null host file, `OpenW` hands the plugin a shortcut without its data |
| BasicExports.OpenWDefault | farmanager/src/basic.rs:61-63 | the default `open` makes `OpenW` return 0 |
| BasicExports.SetStartupInfo | farmanager/src/basic.rs:356-394 | stores copies of the API table and the standard functions; the stored table points at the binding-owned copy, not at the host's table; the plugin is given the module name |
| BasicExports.GetGlobalInfo | farmanager/src/basic.rs:334-354 | `init`, then the plugin's global information written through the fresh context; a panic leaves the host's struct alone |
| BasicExports.GetPluginInfo | farmanager/src/basic.rs:396-410 | a missing plugin, a missing context or a panic abort; otherwise the host struct is the one passed with the plugin's flags, the three menus and the command prefix put in, every other field kept, and the prefix reads back as the plugin's |
| BasicExports.ExitFar | farmanager/src/basic.rs:548-554 | the plugin is told first; then every slot is released in `destroy`'s order; a panic aborts before anything is released |
| Lib.ReturnCodeValue | farmanager/src/lib.rs:50-53 | `Success` is 1 and `UserCancel` is -1 |
| Lib.PayloadOf | farmanager/src/lib.rs:106-126 | a panic raised by the bindings carries its message as a `&str` |
| Lib.HandlePanic | farmanager/src/lib.rs:128-148 | `&str` and `String` payloads give their own text; any other payload gives "Oups! Something went wrong." |
| Lib.HandleOwnPanic | farmanager/src/lib.rs:128-148 | a panic the bindings raise is logged with its own message |
| Lib.Released | farmanager/src/lib.rs:77-104 | the released slots are exactly the filled ones, at most five |
| Lib.Runtime.constructor | farmanager/src/lib.rs:33-37 | every slot starts empty, as the `thread_local!` initialisers here and at basic.rs:34-35 and panel.rs:45-46 leave them |
| Lib.Runtime.Init | farmanager/src/lib.rs:66-71 | the plugin is stored; both contexts are fresh defaults; the API table and standard functions are unchanged |
| Lib.Runtime.Destroy | farmanager/src/lib.rs:77-104 | every slot is empty afterwards, and the released slots are `Released` of those that were filled |
| Lib.Runtime.Plugin | farmanager/src/lib.rs:106-115 | the stored plugin, or the "Plugin is not initialized" panic exactly when the slot is empty |
| Lib.Runtime.FarApi | farmanager/src/lib.rs:117-126 | the stored API table, or the same panic exactly when the slot is empty |
| Ffi.AsUsize | farmanager/src/basic.rs:275-276 | `as usize` keeps a nonnegative value and adds 2^64 to a negative one |
| Ffi.Unpack | farmanager/src/ffi.rs:86-96 | the four bytes of a COLORREF, least significant first |
| Ffi.RgbaRoundTrip | farmanager/src/ffi.rs:86-96 | packing the bytes of a colour gives the colour back, and unpacking packed bytes gives the bytes |
| Ffi.Pack | farmanager/src/ffi.rs:86-96 | the packed colour unpacks to the given bytes |
| Ffi.ForegroundRgba | farmanager/src/ffi.rs:86-96 | the foreground bytes pack back into the foreground colour |
| Ffi.BackgroundRgba | farmanager/src/ffi.rs:86-96 | the background bytes pack back into the background colour |
| Ffi.DefaultFarColor | farmanager/src/ffi.rs:98-110 | the flags are both 4-bit flags; both colours are 0, which read as four zero bytes; the reserved pointer is null |
| Ffi.ColourMasks | farmanager/src/ffi.rs:41-52 | `FCF_4BITMASK` is the union of the two 4-bit flags; `FCF_EXTENDEDFLAGS` is its complement; `FCF_STYLEMASK` is bold, italic and underline; the masks do not overlap |
| Ffi.FlagLayouts | farmanager/src/ffi.rs:889-894 | every `EF_OPENMODE_*` value is within its mask; `KMFLAGS_MOONSCRIPT` is within the language mask; the `PN_*` modes and flags are within their bands, which partition 64 bits |
| Ffi.IsEdit | farmanager/src/ffi.rs:157-166 | TRUE exactly for `DI_EDIT`, `DI_FIXEDIT`, `DI_PSWEDIT` and `DI_COMBOBOX`, and FALSE otherwise |
| Ffi.ItemTypeValue | farmanager/src/ffi.rs:138-155 | the item types are 0 to 11 in order, and 255 exactly for a user control |
| Ffi.PanelPseudoHandles | farmanager/src/ffi.rs:784-787 | none, active and stop are -1, and passive is -2 |
| Ffi.AsI32 | farmanager/src/dialog.rs:643 | `as i32` gives a 32-bit signed value congruent to the input modulo 2^32 |
| Ffi.FarStandardFunctions.constructor | farmanager/src/basic.rs:361-385 | the copy has the host table's size and entries |
| Ffi.SizeOf | farmanager/src/panel.rs:526-1060 | the `mem::size_of` values the `struct_size` assertions compare against (here, and at basic.rs:416, basic/ctx.rs:111 and panel/ctx.rs:149): each is positive and a multiple of 8 |
| Dialog.ButtonSelectionFrom | farmanager/src/dialog.rs:22-30 | 0 and 1 are states; any other byte panics |
| Dialog.ButtonSelectionInto | farmanager/src/dialog.rs:32-40 | the byte written is a state `ButtonSelectionFrom` accepts (0 or 1) |
| Dialog.CheckBoxSelectionFrom | farmanager/src/dialog.rs:44-53 | 0, 1 and 2 are states; any other byte panics |
| Dialog.CheckBoxSelectionInto | farmanager/src/dialog.rs:55-63 | the byte written is a state `CheckBoxSelectionFrom` accepts (0 to 2) |
| Dialog.RadioButtonSelectionFrom | farmanager/src/dialog.rs:66-74 | 0 and 1 are states; any other byte panics |
| Dialog.RadioButtonSelectionInto | farmanager/src/dialog.rs:76-80 | the byte written is a state `RadioButtonSelectionFrom` accepts (0 or 1) |
| Dialog.SelectionRoundTrips | farmanager/src/dialog.rs:22-80 | each decoder is undone by its conversion back, and the other way round |
| Dialog.AsButton | farmanager/src/dialog.rs:92-94 | `as_button` decodes through the check-box states |
| Dialog.AsRaw | farmanager/src/dialog.rs:88-90 | `as_raw` is the raw selection byte; `SelectionRoundTrips` shows each typed selection converts back through it |
| Dialog.AsCheckBox | farmanager/src/dialog.rs:96-98 | `as_check_box` decodes through the check-box states |
| Dialog.AsRadioButton | farmanager/src/dialog.rs:100-102 | `as_radio_button` decodes through the radio-button states |
| Dialog.AsButtonAcceptsUndefined | farmanager/src/dialog.rs:86-103 | a button in state 2 is read by `as_button`, although `ButtonSelection` refuses 2 |
| Dialog.FarDialogItemInto | farmanager/src/dialog.rs:118-309 | the item type matches the variant; check boxes, radio buttons and buttons carry their state in `param`, and every other kind carries the reserved 0; each optional text is null exactly when absent; max length, user data and reserved words are 0 |
| Dialog.ItemTypeOf | farmanager/src/dialog.rs:118-309 | the host item type of each dialog item kind; `FarDialogItemInto` shows the flat item carries it |
| Dialog.DialogItemTexts | farmanager/src/dialog.rs:136-276 | data, history and mask point at the item's own texts, and are null for those it lacks |
| Dialog.DialogItemGeometry | farmanager/src/dialog.rs:118-309 | one-row items have `y2 == y1`; a vertical text has `x2 == x1`; selectable items have `x2 == 0`; every other coordinate is the item's own |
| Dialog.ConvertedEditKinds | farmanager/src/dialog.rs:118-309 | a converted item is an edit for `is_edit` exactly when it is an edit, fixed-edit or password line |
| Dialog.FarMessageFrom | farmanager/src/dialog.rs:407-505 | `None` exactly for `DM_GETDLGDATA` and `DM_SETDLGDATA`; otherwise the code's variant, with a button click's state taken from the low byte of `param2` |
| Dialog.FarMessageInto | farmanager/src/dialog.rs:507-600 | the code written is always a translated one, and it is `DN_BTNCLICK` exactly for a button click |
| Dialog.FarMessageIntoFrom | farmanager/src/dialog.rs:407-600 | `into(from(m, p1, p2))` is `(m, p1, p2)` for every translated code, except that `DN_BTNCLICK` gives back `param2` reduced to its low 8 bits |
| Dialog.ReadBack | farmanager/src/dialog.rs:407-600 | the parameters a translated message gives back: the host's, with a button click's `param2` cut to its low byte |
| Dialog.FarMessageFromInto | farmanager/src/dialog.rs:407-600 | every message written to the host reads back as itself |
| Dialog.DialogInit | farmanager/src/dialog.rs:615-659 | the items are converted one by one, in order, and passed with their count; `INVALID_HANDLE_VALUE` is an error; no API table panics |
| Dialog.Callback | farmanager/src/dialog.rs:637-652 | the low 32 bits of `msg` are translated and given to `dlg_proc`; the two untranslated codes go to `def_dlg_proc` with the host's own arguments; no API table or a plugin panic aborts |
| Dialog.DefDlgProc | farmanager/src/dialog.rs:676-681 | the message is written back and handed to the host's default handler |
| Dialog.ForwardingIsDefDlgProc | farmanager/src/dialog.rs:676-681 | a `dlg_proc` that forwards to `def_dlg_proc` returns what `def_dlg_proc` returns |
| Dialog.Forward | farmanager/src/dialog.rs:676-681 | `def_dlg_proc(h_dlg, msg)`: the message written back, answered by the host's default procedure |
| Dialog.Forwarding | farmanager/src/dialog.rs:676-681 | a `dlg_proc` that forwards every message to `def_dlg_proc` |
| Dialog.ForwardingCallback | farmanager/src/dialog.rs:637-652 | with a forwarding `dlg_proc`, the callback passes each message to the host's handler as the host sent it, provided a click's `param2` is a byte |
| Lng.MetaOf | farmanager_build/src/lng.rs:37 | a readable attribute gives its meta; an unreadable one panics on `unwrap` |
| Lng.GetAttrName | farmanager_build/src/lng.rs:50-56 | `get_attr_name` is the identifier of every meta form |
| Lng.IsLangpackEnum | farmanager_build/src/lng.rs:31-48 | true exactly for an enum carrying a `langpack` attribute and at least one `language` attribute; an unreadable attribute of an enum panics |
| Lng.ParseLangpackAttr | farmanager_build/src/lng.rs:86-105 | every failure is the langpack format panic |
| Lng.LangpackAttrReadsFirst | farmanager_build/src/lng.rs:86-105 | only the first argument is read, whatever follows it; a first argument `name = "..."` gives its string |
| Lng.ScanPairsMeaning | farmanager_build/src/lng.rs:113-128 | the scan fails exactly at an argument without an accepted key, and otherwise holds the last value of each key |
| Lng.PairAttrMeaning | farmanager_build/src/lng.rs:107-134 | a pair attribute is read exactly when it is a list whose arguments all have one of the two keys and both keys occur; the values are the last of each key; otherwise it panics with its format message |
| Lng.RepeatedKeyKeepsLast | farmanager_build/src/lng.rs:107-134 | `language(code = "en", value = "English", code = "de")` reads the code `de` |
| Lng.ParsePairAttr | farmanager_build/src/lng.rs:107-134 | the `for_each` loop computes `PairAttr` |
| Lng.ScanPairsStaysFailed | farmanager_build/src/lng.rs:113-128 | once a prefix fails, the whole scan fails |
| Lng.ParseLanguageAttr | farmanager_build/src/lng.rs:107-134 | a language's code and display value, or the language format panic |
| Lng.ParseMsgAttr | farmanager_build/src/lng.rs:174-201 | a message's language code and text, or the message format panic |
| Lng.ParseLangpackDefinition | farmanager_build/src/lng.rs:58-84 | the attribute loop computes `Definition` |
| Lng.Definition | farmanager_build/src/lng.rs:58-84 | the langpack name and languages the attributes give, or the panic the scan or a missing name raises |
| Lng.ScanDefinitionStaysFailed | farmanager_build/src/lng.rs:58-84 | once a prefix panics, the whole scan panics with the same panic |
| Lng.ScanWithoutLangpackHasNoName | farmanager_build/src/lng.rs:58-84 | without a `langpack` attribute the scan finds no name |
| Lng.NoLangpackAttrPanics | farmanager_build/src/lng.rs:76-83 | an enum without a `langpack` attribute panics |
| Lng.LaterLanguageOverwrites | farmanager_build/src/lng.rs:68-70 | a later `language` attribute with the same code replaces the earlier display value |
| Lng.AddVariantAppends | farmanager_build/src/lng.rs:159-165 | adding a variant appends its message to each language's list and keeps the language set |
| Lng.MessagesOfLanguage | farmanager_build/src/lng.rs:136-172 | language `l`'s list has one entry per variant, and entry `i` is variant `i`'s message for `l` |
| Lng.OneMessagePerVariant | farmanager_build/src/lng.rs:136-172 | every defined language gets exactly one message per variant, in declaration order, and there are no other languages |
| Lng.TooFewMessagesPanics | farmanager_build/src/lng.rs:155-157 | a variant with fewer message languages than defined languages stops the scan with its panic |
| Lng.ScanMessagesKeys | farmanager_build/src/lng.rs:137-141 | a successful scan has exactly the defined languages as keys |
| Lng.MissingDefinedLanguagePanics | farmanager_build/src/lng.rs:159-164 | a variant that reaches the language count only through an undefined language, while missing a defined one, reaches `unreachable!()` |
| Lng.LastMessageWins | farmanager_build/src/lng.rs:143-152 | of two `msg` attributes for one language, the last is the variant's message |
| Lng.CollectVariantMessages | farmanager_build/src/lng.rs:143-152 | the inner loop computes `VariantMessages` |
| Lng.AppendVariantMessages | farmanager_build/src/lng.rs:142-166 | one iteration of the variant loop computes `AddVariant` |
| Lng.ParseMessages | farmanager_build/src/lng.rs:136-172 | the loop over the variants computes `Messages` |
| Lng.Messages | farmanager_build/src/lng.rs:136-172 | the definition with one message per variant for each language, or the panic a variant raises |
| Lng.VariantMessagesStaysFailed | farmanager_build/src/lng.rs:143-152 | once a prefix of a variant's attributes panics, the whole does |
| Lng.ScanMessagesStaysFailed | farmanager_build/src/lng.rs:142-166 | once a prefix of the variants panics, the whole does |
| Lng.FirstLangpackEnum | farmanager_build/src/lng.rs:206-209 | the result is the first item `is_langpack_enum` accepts, and every item before it is refused; `None` means every item is refused |
| Lng.SearchForLangpack | farmanager_build/src/lng.rs:203-217 | the loop computes `SearchResult`: the langpack of the first qualifying enum, or `None` |
| Lng.SearchResult | farmanager_build/src/lng.rs:203-217 | a file that does not parse panics; otherwise the langpack of the first enum that has one, or `None` |
| Build.HelpFilesMeaning | farmanager_build/src/lib.rs:73-91 | a name is copied exactly when some `.hlf` file has it |
| Build.HelpFiles | farmanager_build/src/lib.rs:73-91 | the help files copied, in directory order, at most one per entry |
| Build.CopyResources | farmanager_build/src/lib.rs:73-91 | copies the `.hlf` files under their own names, in order |
| Build.OnlySourcesAreRead | farmanager_build/src/lib.rs:26-31 | the scan depends only on the `.rs` files |
| Build.FirstLangpackWins | farmanager_build/src/lib.rs:36-40 | once a langpack is found, later entries change nothing |
| Build.FindLangpack | farmanager_build/src/lib.rs:24-44 | the directory loop computes `ScanSources` |
| Build.ScanSources | farmanager_build/src/lib.rs:24-44 | each `.rs` file is searched in turn; the first langpack found ends the loop, a panic while searching is that panic |
| Build.LngFileNamesDiffer | farmanager_build/src/lib.rs:50 | different language codes give different file names |
| Build.LngFileName | farmanager_build/src/lib.rs:50 | `<name>_<code>.lng`; `LngFileNamesDiffer` shows different language codes give different names |
| Build.MessageLinesConcat | farmanager_build/src/lib.rs:57-59 | the lines of two runs of messages are the first run's lines followed by the second's |
| Build.MessageLines | farmanager_build/src/lib.rs:55-62 | one quoted line per message; the lines are empty exactly when there are no messages |
| Build.LngFileContent | farmanager_build/src/lib.rs:53-62 | the content starts with the BOM-and-`.Language=` header; with no message list, it is just the header |
| Build.LngHeader | farmanager_build/src/lib.rs:53 | the byte-order mark, `.Language=` with the language's display value, and an empty line |
| Build.WriteLngFile | farmanager_build/src/lib.rs:52-63 | the write loop produces `LngFileContent` |
| Build.WriteLanguageFile | farmanager_build/src/lib.rs:49-64 | one language's file is `FileFor` it |
| Build.WriteLngFiles | farmanager_build/src/lib.rs:49-64 | each language is visited exactly once; the files written are `Files(lp)`; the log gets one path line per language, in visiting order |
| Build.EnumeratingStep | farmanager_build/src/lib.rs:49 | visiting one more remaining language keeps each language visited at most once |
| Build.FilesOfAppend | farmanager_build/src/lib.rs:49-64 | one more language adds its file |
| Build.FilesOfMeaning | farmanager_build/src/lib.rs:49-64 | the files written for a list of languages are exactly those languages' files |
| Build.FilesByLanguage | farmanager_build/src/lib.rs:49-64 | a map holding, for exactly the langpack's languages, each one's file is `Files` |
| Build.PathEntriesAppend | farmanager_build/src/lib.rs:51 | one more language appends its `Output path` line |
| Build.GenerateLngFiles | farmanager_build/src/lib.rs:13-71 | the help files are copied first and stay copied even when the scan panics; a panic ends the run; with no langpack the log is just `None!` and there are no files; otherwise the log is the dump then one path per language, and there is one file per language |
| Build.FilesNamedByLanguage | farmanager_build/src/lib.rs:49-53 | each language's file is `<name>_<code>.lng` and starts with that language's header |
| Build.FileHoldsEveryMessage | farmanager_build/src/lib.rs:53-61 | for a langpack built by `parse_messages`, each file is the header followed by one quoted line per variant, in order |

## Left out

- Pointer validity and lifetimes, `transmute`, `Box::into_raw`/`from_raw` and
  `slice::from_raw_parts` are out of scope. A pointer is the data it addresses, and the host
  is trusted to pass at least `items_number` readable items.
- Dialog.Callback takes only message numbers whose low 32 bits are a `FARMESSAGE`
  discriminant. For any other number, `transmute(msg as i32)` creates an invalid enum value,
  which has no defined behaviour to model.
- Dialog.Callback does not model the `DM_GETDLGDATA` request that fetches the dialog object
  before each message. The object is assumed to be found.
- Struct layout is not modelled. The `size_of` values are plausible x64 sizes. Almost nothing
  depends on them beyond their being fixed and positive. The exception is the
  `CloseAnalyseW` finding, which needs `SizeOf(CloseAnalyseInfoKind)` (24) to differ from
  `SizeOf(AnalyseInfoKind)` (48).
- Real unwinding, `RefCell` borrow failures ("Fail to acquire ... context") and re-entrancy
  cannot be written in the model. Panics are results, and contexts are explicit state.
- `trace!`/`error!` logging and the log sink are left out, because they produce no
  observable state.
- Lib.Runtime: the panic hook that routes `handle_panic` output to the debugger is left out,
  because it is I/O.
- `get_msg`, `show_help`, `Dialog::run`, the dialog's `Drop` and `process_dialog_event` are
  single calls through host function pointers. Their results are whatever the host returns.
- PanelExports.GetFindDataW: the panel entry that `panel()` creates is not otherwise used by
  the `GetFindDataInfo` enrich, and the model says only that the entry is created.
- Build.WriteLngFiles: `HashMap` iteration order is unspecified. The model returns the order
  as an output and proves only that every language occurs exactly once.
- Build.GenerateLngFiles:
  - The `Debug` dump of the langpack is a log entry holding the langpack, not its text.
  - `syn` parsing is a parameter.
  - File creation, `fs::copy`, `read_dir` and the `OUT_DIR`/`CARGO_MANIFEST_DIR` variables
    become the entry list in and the file map and log out. An I/O `unwrap` failure is not
    modelled.
- Lng.ParseMessages: the source takes each language's message out of the variant's map with
  `remove` and pushes it onto that language's vector in place. The model replaces the map
  entry with the extended sequence, which gives the same lists.
- Lng.SearchResult: when `syn::parse_file` fails, the panic message is modelled as
  "called `Result::unwrap()` on an `Err` value". The parser's error text, which `unwrap`
  appends after a colon, is not modelled, because the parser is a parameter.
- BasicExports.Menu: `hostBreakCode` is taken to be what the host writes through the
  break-code pointer. In the code that pointer addresses an immutable local (`let
  break_code = -1`) passed as `*const intptr_t`. A host write through it is undefined
  behaviour, and the compiler may fold the later `break_code == -1` test to always give
  `None`. The model does not capture that.
- Dialog.DialogInit: the converted item texts are temporaries in the code, so the pointers
  handed to `dialog_init` may dangle once the conversion returns. Because a pointer is
  modelled as the data it addresses, the model does not capture that.
- The derive macro, the example plugins and the thin host wrappers (`control.rs`,
  `filter.rs`, `misc.rs`, `viewer.rs`, `editor.rs`, `settings.rs`) are not modelled, because
  they are not part of the core.

## Findings

| source | as written | input that shows it | evidently intended | confidence | as-written member | corrected member |
|---|---|---|---|---|---|---|
| farmanager/src/panel.rs:555 | `CloseAnalyseW` asserts that `struct_size` equals `size_of::<ffi::AnalyseInfo>()`, and the failure reaches `unimplemented!()` | any well-formed `CloseAnalyseInfo` (24 bytes, where `AnalyseInfo` is 48) | compare against `size_of::<ffi::CloseAnalyseInfo>()` | not executed | PanelExports.CloseAnalyseWAsWrittenAborts | PanelExports.CloseAnalyseWCompletes |
| farmanager/src/basic.rs:444 | `OpenW` decides whether `shortcut_data` is read by testing `host_file` for null | a shortcut with `host_file` null and `shortcut_data` "a" | test `shortcut_data` itself | not executed | BasicExports.OpenWLosesShortcutData | BasicExports.ShortcutInfoFrom |
