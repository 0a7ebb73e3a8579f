/**
 * The build script (`farmanager_build/src/lib.rs`): copying the help files, finding the
 * langpack among the crate's sources and writing one `.lng` file per language. The source
 * directory is a list of entries in the order the directory listing gives them; the Rust
 * parser is a parameter.
 */
module Build {
  import opened Wrappers
  import Lng

  /** An entry of the `src` directory: its file name, whether it is a file, its extension and text. */
  datatype DirEntry = DirEntry(fileName: string, isFile: bool, extension: Option<string>, content: string)

  const SOURCE_EXTENSION: string := "rs"
  const HELP_EXTENSION: string := "hlf"
  const NO_LANGPACK_LINE: string := "None!\n"
  const BYTE_ORDER_MARK: char := '\U{FEFF}'

  /** `p.is_file()` and `p.extension()` is `ext`. */
  predicate HasExtension(entry: DirEntry, ext: string) {
    entry.isFile && entry.extension == Some(ext)
  }

  // ---------------------------------------------------------------- copy_resources

  /** The names of the help files, in directory order. */
  function HelpFiles(entries: seq<DirEntry>): (names: seq<string>)
    ensures |names| <= |entries|
    decreases |entries|
  {
    if |entries| == 0 then []
    else
      HelpFiles(entries[..|entries| - 1])
      + (if HasExtension(entries[|entries| - 1], HELP_EXTENSION) then [entries[|entries| - 1].fileName] else [])
  }

  /** A name is among the help files exactly when some `.hlf` file carries it. */
  lemma {:induction false} HelpFilesMeaning(entries: seq<DirEntry>, name: string)
    ensures name in HelpFiles(entries) <==>
      exists i :: 0 <= i < |entries| && HasExtension(entries[i], HELP_EXTENSION) && entries[i].fileName == name
    decreases |entries|
  {
    if |entries| > 0 {
      var prefix := entries[..|entries| - 1];
      HelpFilesMeaning(prefix, name);
      assert forall i :: 0 <= i < |prefix| ==> prefix[i] == entries[i];
      if exists i :: 0 <= i < |entries| && HasExtension(entries[i], HELP_EXTENSION) && entries[i].fileName == name {
        var i :| 0 <= i < |entries| && HasExtension(entries[i], HELP_EXTENSION) && entries[i].fileName == name;
        if i < |prefix| {
          assert prefix[i] == entries[i];
        }
      }
    }
  }

  /**
   * `copy_resources`: every `.hlf` file of the source directory is copied into the target
   * directory under its own name; the result lists the names copied, in order.
   */
  method CopyResources(entries: seq<DirEntry>) returns (copied: seq<string>)
    ensures copied == HelpFiles(entries)
  {
    copied := [];
    var k := 0;
    while k < |entries|
      invariant 0 <= k <= |entries|
      invariant copied == HelpFiles(entries[..k])
    {
      assert entries[..k + 1][..k] == entries[..k];
      if HasExtension(entries[k], HELP_EXTENSION) {
        copied := copied + [entries[k].fileName];
      }
      k := k + 1;
    }
    assert entries[..k] == entries;
  }

  // ---------------------------------------------------------------- finding the langpack

  /**
   * The loop over the source directory: each `.rs` file is searched in turn, and the first
   * langpack found ends the loop; a panic while searching a file is that panic.
   */
  function ScanSources(entries: seq<DirEntry>, parse: string -> Option<seq<Lng.Item>>): Result<Option<Lng.Langpack>, Panic>
    decreases |entries|
  {
    if |entries| == 0 then Ok(None)
    else if !HasExtension(entries[0], SOURCE_EXTENSION) then ScanSources(entries[1..], parse)
    else
      match Lng.SearchResult(parse(entries[0].content))
      case Err(p) => Err(p)
      case Ok(Some(lp)) => Ok(Some(lp))
      case Ok(None) => ScanSources(entries[1..], parse)
  }

  /** The `.rs` files, in directory order. */
  function Sources(entries: seq<DirEntry>): seq<DirEntry>
    decreases |entries|
  {
    if |entries| == 0 then []
    else (if HasExtension(entries[0], SOURCE_EXTENSION) then [entries[0]] else []) + Sources(entries[1..])
  }

  /** Entries other than `.rs` files are never read. */
  lemma {:induction false} OnlySourcesAreRead(entries: seq<DirEntry>, parse: string -> Option<seq<Lng.Item>>)
    ensures ScanSources(entries, parse) == ScanSources(Sources(entries), parse)
    decreases |entries|
  {
    if |entries| > 0 {
      OnlySourcesAreRead(entries[1..], parse);
      if HasExtension(entries[0], SOURCE_EXTENSION) {
        var s := Sources(entries);
        assert s[0] == entries[0] && s[1..] == Sources(entries[1..]);
      } else {
        assert Sources(entries) == Sources(entries[1..]);
      }
    }
  }

  /** Once a langpack is found, the entries after it are not read: appending more changes nothing. */
  lemma {:induction false} FirstLangpackWins(entries: seq<DirEntry>, rest: seq<DirEntry>, parse: string -> Option<seq<Lng.Item>>)
    requires ScanSources(entries, parse).Ok? && ScanSources(entries, parse).value.Some?
    ensures ScanSources(entries + rest, parse) == ScanSources(entries, parse)
    decreases |entries|
  {
    assert (entries + rest)[0] == entries[0];
    assert (entries + rest)[1..] == entries[1..] + rest;
    if !HasExtension(entries[0], SOURCE_EXTENSION) || Lng.SearchResult(parse(entries[0].content)) == Ok(None) {
      FirstLangpackWins(entries[1..], rest, parse);
    }
  }

  /** The loop over the directory, which stops at the first langpack. */
  method FindLangpack(entries: seq<DirEntry>, parse: string -> Option<seq<Lng.Item>>) returns (r: Result<Option<Lng.Langpack>, Panic>)
    ensures r == ScanSources(entries, parse)
  {
    var langpack: Option<Lng.Langpack> := None;
    var k := 0;
    while k < |entries|
      invariant 0 <= k <= |entries|
      invariant ScanSources(entries, parse) == ScanSources(entries[k..], parse)
    {
      var e := entries[k];
      assert entries[k..][1..] == entries[k + 1..];
      if HasExtension(e, SOURCE_EXTENSION) {
        var found := Lng.SearchForLangpack(parse(e.content));
        if found.Err? {
          return Err(found.error);
        }
        langpack := found.value;
        if langpack.Some? {
          return Ok(langpack);
        }
      }
      k := k + 1;
    }
    assert entries[k..] == [];
    r := Ok(None);
  }

  // ---------------------------------------------------------------- the .lng files

  /** `format!("{}_{}.lng", name, lang)` */
  function LngFileName(name: string, code: string): string {
    name + "_" + code + ".lng"
  }

  /** Different languages of one langpack get different files. */
  lemma LngFileNamesDiffer(name: string, code1: string, code2: string)
    requires code1 != code2
    ensures LngFileName(name, code1) != LngFileName(name, code2)
  {
    var f1 := LngFileName(name, code1);
    var f2 := LngFileName(name, code2);
    assert f1[|name| + 1..|f1| - 4] == code1;
    assert f2[|name| + 1..|f2| - 4] == code2;
  }

  /** One line per message: the message in double quotes. */
  function MessageLines(messages: seq<string>): (lines: string)
    ensures lines == "" <==> messages == []
    decreases |messages|
  {
    if |messages| == 0 then ""
    else MessageLines(messages[..|messages| - 1]) + "\"" + messages[|messages| - 1] + "\"\n"
  }

  /** The lines of two runs of messages are the lines of the first followed by those of the second. */
  lemma {:induction false} MessageLinesConcat(first: seq<string>, second: seq<string>)
    ensures MessageLines(first + second) == MessageLines(first) + MessageLines(second)
    decreases |second|
  {
    if |second| > 0 {
      var all := first + second;
      assert all[..|all| - 1] == first + second[..|second| - 1];
      assert all[|all| - 1] == second[|second| - 1];
      MessageLinesConcat(first, second[..|second| - 1]);
    } else {
      assert first + second == first;
    }
  }

  /** The header naming the language: a byte-order mark, `.Language=<value>` and an empty line. */
  function LngHeader(display: string): string {
    [BYTE_ORDER_MARK] + ".Language=" + display + "\n\n"
  }

  /** A language's file: the header, then its messages (none when it has no list). */
  function LngFileContent(display: string, messages: Option<seq<string>>): (content: string)
    ensures LngHeader(display) <= content
    ensures messages.None? ==> content == LngHeader(display)
  {
    LngHeader(display) + (if messages.Some? then MessageLines(messages.value) else "")
  }

  /** A file written for a language: its name in the target directory and its text. */
  datatype LngFile = LngFile(path: string, content: string)

  /** The file written for language `code` of `lp`. */
  function FileFor(lp: Lng.Langpack, code: string): LngFile
    requires code in lp.definition.languages
  {
    LngFile(
      LngFileName(lp.definition.name, code),
      LngFileContent(lp.definition.languages[code], if code in lp.messages then Some(lp.messages[code]) else None))
  }

  /** The files of `lp`, by language code. */
  function Files(lp: Lng.Langpack): map<string, LngFile> {
    map code | code in lp.definition.languages :: FileFor(lp, code)
  }

  /** Writing one file: the header, then one quoted line per message. */
  method WriteLngFile(display: string, messages: Option<seq<string>>) returns (content: string)
    ensures content == LngFileContent(display, messages)
  {
    content := LngHeader(display);
    if messages.Some? {
      var ms := messages.value;
      var k := 0;
      while k < |ms|
        invariant 0 <= k <= |ms|
        invariant content == LngHeader(display) + MessageLines(ms[..k])
      {
        assert ms[..k + 1][..k] == ms[..k];
        content := content + "\"" + ms[k] + "\"\n";
        k := k + 1;
      }
      assert ms[..k] == ms;
    }
  }

  /** The file of one language: `<name>_<code>.lng`, holding its header and messages. */
  method WriteLanguageFile(lp: Lng.Langpack, code: string) returns (file: LngFile)
    requires code in lp.definition.languages
    ensures file == FileFor(lp, code)
  {
    var messages := if code in lp.messages then Some(lp.messages[code]) else None;
    var content := WriteLngFile(lp.definition.languages[code], messages);
    file := LngFile(LngFileName(lp.definition.name, code), content);
  }

  /** What `build_output.txt` records: the langpack's dump and each output path, or the line `None!`. */
  datatype LogEntry = LangpackDump(langpack: Lng.Langpack) | OutputPath(path: string) | Line(text: string)

  /**
   * Everything the build script produces: the help files copied, the languages in the order
   * the langpack's map yields them, the files written and the log.
   */
  datatype BuildOutput = BuildOutput(copied: seq<string>, languageOrder: seq<string>, files: map<string, LngFile>, log: seq<LogEntry>)

  /** The `Output path` log lines for the languages `codes`, in that order. */
  function PathEntries(lp: Lng.Langpack, codes: seq<string>): seq<LogEntry>
    requires forall i :: 0 <= i < |codes| ==> codes[i] in lp.definition.languages
    decreases |codes|
  {
    if |codes| == 0 then []
    else PathEntries(lp, codes[..|codes| - 1]) + [OutputPath(FileFor(lp, codes[|codes| - 1]).path)]
  }

  /** Each language of `languages` occurs in `order` exactly once. */
  ghost predicate EnumeratesOnce(order: seq<string>, languages: set<string>) {
    && (forall c :: c in order <==> c in languages)
    && (forall i, j :: 0 <= i < j < |order| ==> order[i] != order[j])
  }

  /**
   * The loop over the languages, in the map's own order: one file and one log line each.
   * `order` is that order, which the map does not fix.
   */
  method WriteLngFiles(lp: Lng.Langpack) returns (order: seq<string>, files: map<string, LngFile>, paths: seq<LogEntry>)
    ensures EnumeratesOnce(order, lp.definition.languages.Keys)
    ensures files == Files(lp)
    ensures paths == PathEntries(lp, order)
  {
    var languages := lp.definition.languages;
    var remaining := languages.Keys;
    order := [];
    files := map[];
    paths := [];
    while remaining != {}
      invariant Enumerating(order, remaining, languages.Keys)
      invariant forall i :: 0 <= i < |order| ==> order[i] in languages
      invariant files == FilesOf(lp, order)
      invariant paths == PathEntries(lp, order)
      decreases |remaining|
    {
      var code :| code in remaining;
      var file := WriteLanguageFile(lp, code);
      WriteStep(lp, order, remaining, code);
      paths := paths + [OutputPath(file.path)];
      order := order + [code];
      files := files[code := file];
      remaining := remaining - {code};
    }
    WriteDone(lp, order);
  }

  /**
   * Proof step of `WriteLngFiles`'s loop, with no source counterpart of its own: once no
   * language remains, each was written once and the files are `Files`.
   */
  lemma WriteDone(lp: Lng.Langpack, order: seq<string>)
    requires Enumerating(order, {}, lp.definition.languages.Keys)
    requires forall i :: 0 <= i < |order| ==> order[i] in lp.definition.languages
    ensures EnumeratesOnce(order, lp.definition.languages.Keys)
    ensures FilesOf(lp, order) == Files(lp)
  {
    FilesOfMeaning(lp, order);
    FilesByLanguage(lp, FilesOf(lp, order));
  }

  /**
   * Part way through the languages: `order` holds those written so far, each once, and
   * `remaining` the others.
   */
  ghost predicate Enumerating(order: seq<string>, remaining: set<string>, languages: set<string>) {
    && remaining <= languages
    && (forall c :: c in order <==> c in languages && c !in remaining)
    && (forall i, j :: 0 <= i < j < |order| ==> order[i] != order[j])
  }

  /** Writing one more remaining language keeps the enumeration going. */
  lemma EnumeratingStep(order: seq<string>, remaining: set<string>, languages: set<string>, code: string)
    requires Enumerating(order, remaining, languages)
    requires forall i :: 0 <= i < |order| ==> order[i] in languages
    requires code in remaining
    ensures Enumerating(order + [code], remaining - {code}, languages)
    ensures forall i :: 0 <= i < |order + [code]| ==> (order + [code])[i] in languages
  {
    var next := order + [code];
    forall i, j | 0 <= i < j < |next|
      ensures next[i] != next[j]
    {
      if j == |order| {
        assert next[i] == order[i];
      } else {
        assert next[i] == order[i] && next[j] == order[j];
      }
    }
  }

  /** The files written for the languages `codes`, in that order. */
  function FilesOf(lp: Lng.Langpack, codes: seq<string>): map<string, LngFile>
    requires forall i :: 0 <= i < |codes| ==> codes[i] in lp.definition.languages
    decreases |codes|
  {
    if |codes| == 0 then map[]
    else FilesOf(lp, codes[..|codes| - 1])[codes[|codes| - 1] := FileFor(lp, codes[|codes| - 1])]
  }

  /** One more language adds its file. */
  lemma FilesOfAppend(lp: Lng.Langpack, codes: seq<string>, code: string)
    requires forall i :: 0 <= i < |codes| ==> codes[i] in lp.definition.languages
    requires code in lp.definition.languages
    ensures FilesOf(lp, codes + [code]) == FilesOf(lp, codes)[code := FileFor(lp, code)]
  {
    assert (codes + [code])[..|codes|] == codes;
  }

  /** The files written for `codes` are those of exactly those languages. */
  lemma {:induction false} FilesOfMeaning(lp: Lng.Langpack, codes: seq<string>)
    requires forall i :: 0 <= i < |codes| ==> codes[i] in lp.definition.languages
    ensures forall c :: c in FilesOf(lp, codes) <==> c in codes
    ensures forall c :: c in FilesOf(lp, codes) ==> FilesOf(lp, codes)[c] == FileFor(lp, c)
    decreases |codes|
  {
    if |codes| > 0 {
      var prefix := codes[..|codes| - 1];
      FilesOfMeaning(lp, prefix);
      assert codes == prefix + [codes[|codes| - 1]];
    }
  }

  /** A map holding, for exactly the langpack's languages, the file written for each, is `Files`. */
  lemma FilesByLanguage(lp: Lng.Langpack, files: map<string, LngFile>)
    requires files.Keys == lp.definition.languages.Keys
    requires forall c :: c in files ==> files[c] == FileFor(lp, c)
    ensures files == Files(lp)
  {
  }

  /**
   * Proof step of `WriteLngFiles`'s loop, with no source counterpart of its own: writing the
   * file of one more remaining language keeps the loop's invariants.
   */
  lemma WriteStep(lp: Lng.Langpack, order: seq<string>, remaining: set<string>, code: string)
    requires Enumerating(order, remaining, lp.definition.languages.Keys)
    requires forall i :: 0 <= i < |order| ==> order[i] in lp.definition.languages
    requires code in remaining
    ensures Enumerating(order + [code], remaining - {code}, lp.definition.languages.Keys)
    ensures forall i :: 0 <= i < |order + [code]| ==> (order + [code])[i] in lp.definition.languages
    ensures FilesOf(lp, order + [code]) == FilesOf(lp, order)[code := FileFor(lp, code)]
    ensures PathEntries(lp, order + [code]) == PathEntries(lp, order) + [OutputPath(FileFor(lp, code).path)]
  {
    EnumeratingStep(order, remaining, lp.definition.languages.Keys, code);
    PathEntriesAppend(lp, order, code);
    FilesOfAppend(lp, order, code);
  }

  /** One more language adds its `Output path` line at the end. */
  lemma PathEntriesAppend(lp: Lng.Langpack, codes: seq<string>, code: string)
    requires forall i :: 0 <= i < |codes| ==> codes[i] in lp.definition.languages
    requires code in lp.definition.languages
    ensures PathEntries(lp, codes + [code]) == PathEntries(lp, codes) + [OutputPath(FileFor(lp, code).path)]
  {
    assert (codes + [code])[..|codes|] == codes;
  }

  /**
   * `generate_lng_files`: copies the help files, looks for the langpack among the `.rs`
   * files, and writes one `<name>_<code>.lng` file per language of the langpack found, or
   * logs `None!` when there is none. A panic on the way ends the build script; the help
   * files, copied first, stay copied.
   */
  method GenerateLngFiles(entries: seq<DirEntry>, parse: string -> Option<seq<Lng.Item>>)
    returns (copied: seq<string>, r: Result<BuildOutput, Panic>)
    ensures copied == HelpFiles(entries)
    ensures r.Ok? ==> r.value.copied == copied
    ensures ScanSources(entries, parse).Err? ==> r == Err(ScanSources(entries, parse).error)
    ensures ScanSources(entries, parse) == Ok(None) ==> r == Ok(BuildOutput(HelpFiles(entries), [], map[], [Line(NO_LANGPACK_LINE)]))
    ensures ScanSources(entries, parse).Ok? && ScanSources(entries, parse).value.Some? ==>
      var lp := ScanSources(entries, parse).value.value;
      && r.Ok?
      && r.value.copied == HelpFiles(entries)
      && EnumeratesOnce(r.value.languageOrder, lp.definition.languages.Keys)
      && r.value.files == Files(lp)
      && r.value.log == [LangpackDump(lp)] + PathEntries(lp, r.value.languageOrder)
  {
    copied := CopyResources(entries);
    var langpack := FindLangpack(entries, parse);
    if langpack.Err? {
      return copied, Err(langpack.error);
    }
    match langpack.value {
      case None =>
        r := Ok(BuildOutput(copied, [], map[], [Line(NO_LANGPACK_LINE)]));
      case Some(lp) =>
        var order, files, paths := WriteLngFiles(lp);
        r := Ok(BuildOutput(copied, order, files, [LangpackDump(lp)] + paths));
    }
  }

  /** Each file of the langpack is named after its language, and starts with that language's header. */
  lemma FilesNamedByLanguage(lp: Lng.Langpack, code: string)
    requires code in lp.definition.languages
    ensures code in Files(lp)
    ensures Files(lp)[code].path == lp.definition.name + "_" + code + ".lng"
    ensures LngHeader(lp.definition.languages[code]) <= Files(lp)[code].content
  {
  }

  /**
   * Each file of a langpack that `search_for_langpack` built holds one quoted line per
   * variant: the header followed by the lines of that language's messages.
   */
  lemma FileHoldsEveryMessage(definition: Lng.LangpackDefinition, e: Lng.ItemEnum, code: string)
    requires Lng.Messages(definition, e).Ok?
    requires code in definition.languages
    ensures var lp := Lng.Messages(definition, e).value;
      && code in lp.messages && |lp.messages[code]| == |e.variants|
      && Files(lp)[code].content == LngHeader(definition.languages[code]) + MessageLines(lp.messages[code])
  {
    Lng.OneMessagePerVariant(definition.languages, e.variants);
  }
}
