/** models_ok.py: for one provider, pick the chat-capable models of its
    catalog, probe each one, and write the ones that answered, fastest
    first, as `id|window` lines.

    The catalog files arrive as their contents: the models and wnd files as
    lists of lines (`None` when the file does not exist), the `*_info.txt`
    files as `(file name, text)` pairs in glob order. The live probe of
    `test_model_performance` is an oracle from (provider, model id, key) to
    its outcome. */
module ModelsOk {
  import opened Wrappers
  import opened Text
  import opened CatalogFiles
  import opened Sorting
  import opened InfoBlocks

  // ---------------------------------------------------------------------
  // get_model_specs

  /** models_ok's reading of a window token: `int()` of the text before a
      final `k` or `K`, times 1024, or `int()` of the whole token; 0 when
      `int()` fails. */
  function OkWindow(w: string): int {
    if EndsWith(Lower(w), "k") then
      match IntValue(w[..|w| - 1]) case Some(v) => v * 1024 case None => 0
    else
      IntValue(w).GetOr(0)
  }

  /** A token ending in `k` or `K` is the integer before it times 1024, a
      token `int()` reads is that integer, anything else is 0. */
  lemma OkWindowCases(w: string)
    ensures IntValue(w).Some? ==> OkWindow(w) == IntValue(w).value
    ensures |w| > 0 && LowerChar(w[|w| - 1]) == 'k' ==>
      OkWindow(w) == match IntValue(w[..|w| - 1]) case Some(v) => v * 1024 case None => 0
    ensures IntValue(w).None? && !(|w| > 0 && LowerChar(w[|w| - 1]) == 'k') ==> OkWindow(w) == 0
  {
    var low := Lower(w);
    assert |w| > 0 ==> low[|w| - 1..] == [LowerChar(w[|w| - 1])];
  }

  /** `N/A`, the stand-in for a missing wnd line, reads as 0. */
  lemma OkWindowOfNA()
    ensures OkWindow("N/A") == 0
  {
    StripOfStripped("N/A");
    assert !IsDigit("N/A"[0]);
    OkWindowCases("N/A");
    assert LowerChar("N/A"[2]) == 'a';
  }

  /** `int()` tolerates a space after the `|`, and the suffix may be upper
      case: ` 128K` is 131072 tokens. */
  lemma OkWindowOfPadded()
    ensures OkWindow(" 128K") == 131072
  {
    var w := " 128K";
    assert w[|w| - 1] == 'K' && LowerChar('K') == 'k';
    assert w[..|w| - 1] == " 128";
    IntValueOfPadded();
    OkWindowCases(w);
  }

  /** A catalog model with its window in tokens (the constant third field of
      the source's tuple is dropped). */
  datatype ModelSpec = ModelSpec(id: string, window: int)

  /** What `get_model_specs` returns: nothing without a models file, else one
      spec per non-blank line of it, in file order, with the window parsed
      from the wnd map (see `SpecsForAt`). */
  function SpecsFor(modelsFile: Option<seq<string>>, wndFile: Option<seq<string>>): (r: seq<ModelSpec>)
    ensures modelsFile.None? ==> r == []
    ensures modelsFile.Some? ==> |r| == |NonBlankLines(modelsFile.value)|
  {
    match modelsFile
    case None => []
    case Some(lines) => SpecsOf(NonBlankLines(lines), WndMapOfFile(wndFile))
  }

  /** One spec per id, in order. */
  function SpecsOf(ids: seq<string>, wnd: map<string, string>): (r: seq<ModelSpec>)
    ensures |r| == |ids|
  {
    seq(|ids|, i requires 0 <= i < |ids| => SpecOf(ids[i], wnd))
  }

  /** The spec of one id: its wnd token read by `OkWindow`, `N/A` when absent. */
  function SpecOf(id: string, wnd: map<string, string>): ModelSpec {
    ModelSpec(id, OkWindow(WindowOf(wnd, id)))
  }

  /** The `i`-th spec is the `i`-th non-blank line of the models file with its
      parsed window. */
  lemma SpecsForAt(modelsFile: Option<seq<string>>, wndFile: Option<seq<string>>, i: nat)
    requires i < |SpecsFor(modelsFile, wndFile)|
    ensures modelsFile.Some? && i < |NonBlankLines(modelsFile.value)|
    ensures var s := SpecsFor(modelsFile, wndFile)[i];
      s.id == NonBlankLines(modelsFile.value)[i] && s.window == OkWindow(WindowOf(WndMapOfFile(wndFile), s.id))
  {
  }

  method GetModelSpecs(modelsFile: Option<seq<string>>, wndFile: Option<seq<string>>)
    returns (specs: seq<ModelSpec>)
    ensures specs == SpecsFor(modelsFile, wndFile)
  {
    if modelsFile.None? {
      return [];
    }
    var models := NonBlankLines(modelsFile.value);
    var wnd: map<string, string> := map[];
    if wndFile.Some? {
      wnd := ReadWndMap(wndFile.value);
    }
    specs := BuildSpecs(models, wnd);
  }

  /** The loop building `model_specs`. */
  method BuildSpecs(models: seq<string>, wnd: map<string, string>) returns (specs: seq<ModelSpec>)
    ensures specs == SpecsOf(models, wnd)
  {
    specs := [];
    for n := 0 to |models|
      invariant |specs| == n
      invariant forall i :: 0 <= i < n ==> specs[i] == SpecOf(models[i], wnd)
    {
      var window := WindowOf(wnd, models[n]);
      specs := specs + [ModelSpec(models[n], OkWindow(window))];
    }
  }

  /** A model with no wnd line gets window 0. */
  lemma SpecWithoutWindow(modelsFile: Option<seq<string>>, wndFile: Option<seq<string>>, i: nat)
    requires i < |SpecsFor(modelsFile, wndFile)|
    requires SpecsFor(modelsFile, wndFile)[i].id !in WndMapOfFile(wndFile)
    ensures SpecsFor(modelsFile, wndFile)[i].window == 0
  {
    SpecsForAt(modelsFile, wndFile, i);
    OkWindowOfNA();
  }

  // ---------------------------------------------------------------------
  // get_chat_capable_models

  /** The chat filter of one provider, for a block with an id. */
  predicate ChatAccepts(provider: string, entry: string, id: string) {
    if provider == "huggingface" then
      Contains(entry, "Pipeline: text-generation")
    else if provider == "openrouter" then
      Contains(entry, "Modality: text->text") || Contains(entry, "Modality: text+image->text")
    else if provider == "cerebras" || provider == "groq" then
      true
    else if provider == "gemini" then
      var low := Lower(id);
      !(Contains(low, "image") || Contains(low, "tts") || Contains(low, "robotics"))
    else if provider == "mistral" then
      var low := Lower(id);
      !(Contains(low, "pixtral") || Contains(low, "voxtral"))
    else
      false
  }

  /** The id one raw block contributes to the provider's list, if any. */
  function BlockChatId(provider: string, block: string): (r: Option<string>)
    ensures r.Some? ==> r == BlockId(Strip(block)) && ChatAccepts(provider, Strip(block), r.value)
  {
    var entry := Strip(block);
    if entry == [] then None
    else
      match BlockId(entry)
      case None => None
      case Some(id) => if ChatAccepts(provider, entry, id) then Some(id) else None
  }

  /** What each block contributes, in order. */
  function BlockChatIds(provider: string, blocks: seq<string>): (r: seq<Option<string>>)
    ensures |r| == |blocks|
  {
    seq(|blocks|, j requires 0 <= j < |blocks| => BlockChatId(provider, blocks[j]))
  }

  /** The ids `current_models` collects from the blocks, in order. */
  function ChatIds(provider: string, blocks: seq<string>): (r: seq<string>)
    ensures |r| <= |blocks|
  {
    Somes(BlockChatIds(provider, blocks))
  }

  /** `info_file.name.replace("models_", "").replace("_info.txt", "")`. */
  function InfoProvider(name: string): string {
    ReplaceAll(ReplaceAll(name, "models_", ""), "_info.txt", "")
  }

  /** An info file: its name and its text. */
  datatype InfoFile = InfoFile(name: string, content: string)

  /** The list one info file contributes, `None` when it is empty. */
  function InfoEntry(f: InfoFile): (e: Option<(string, seq<string>)>)
    ensures e.Some? ==> e.value.0 == InfoProvider(f.name) && e.value.1 != []
  {
    var provider := InfoProvider(f.name);
    var ids := ChatIds(provider, SplitSep(f.content, Separator));
    if ids != [] then Some((provider, ids)) else None
  }

  /** `chat_models` after all info files: a provider's entry is the list of
      the last file naming it that had any chat model. */
  function ChatModelsOf(files: seq<InfoFile>): map<string, seq<string>> {
    AssocMap(InfoEntries(files))
  }

  /** What each info file contributes, in glob order. */
  function InfoEntries(files: seq<InfoFile>): (r: seq<Option<(string, seq<string>)>>)
    ensures |r| == |files|
  {
    seq(|files|, i requires 0 <= i < |files| => InfoEntry(files[i]))
  }

  lemma InfoEntryIs(f: InfoFile, provider: string, current: seq<string>)
    requires provider == InfoProvider(f.name)
    requires current == ChatIds(provider, SplitSep(f.content, Separator))
    ensures InfoEntry(f) == if current != [] then Some((provider, current)) else None
  {
  }

  lemma InfoEntriesAt(files: seq<InfoFile>, n: nat)
    requires n < |files|
    ensures InfoEntries(files)[n] == InfoEntry(files[n])
  {
  }

  method GetChatCapableModels(files: seq<InfoFile>) returns (chat: map<string, seq<string>>)
    ensures chat == ChatModelsOf(files)
  {
    chat := map[];
    ghost var entries := InfoEntries(files);
    for n := 0 to |files|
      invariant chat == AssocMap(entries[..n])
    {
      var e := ReadInfoFile(files[n]);
      InfoEntriesAt(files, n);
      PrefixSnoc(entries, n);
      AssocMapSnoc(entries[..n], entries[n]);
      if e.Some? {
        chat := chat[e.value.0 := e.value.1];
      }
    }
    assert entries[..|files|] == entries;
  }

  /** One pass of the outer loop: the provider named by the file and its
      chat models, `None` when there are none. */
  method ReadInfoFile(f: InfoFile) returns (e: Option<(string, seq<string>)>)
    ensures e == InfoEntry(f)
  {
    var provider := InfoProvider(f.name);
    var current := CollectChatIds(provider, f.content);
    InfoEntryIs(f, provider, current);
    if current != [] {
      e := Some((provider, current));
    } else {
      e := None;
    }
  }

  /** The inner loop over the blocks of one info file; `BlockChatId` is its
      body. */
  method CollectChatIds(provider: string, content: string) returns (current: seq<string>)
    ensures current == ChatIds(provider, SplitSep(content, Separator))
  {
    var blocks := SplitSep(content, Separator);
    current := [];
    ghost var cs := BlockChatIds(provider, blocks);
    for b := 0 to |blocks|
      invariant current == Somes(cs[..b])
    {
      PrefixSnoc(cs, b);
      SomesSnoc(cs[..b], cs[b]);
      var modelId := BlockChatId(provider, blocks[b]);
      assert cs[b] == modelId;
      if modelId.Some? {
        current := current + [modelId.value];
      }
    }
    assert cs[..|blocks|] == cs;
  }

  /** Every collected id comes from a block announcing it that passes the
      provider's filter. */
  lemma ChatIdSource(provider: string, blocks: seq<string>, i: nat) returns (j: nat)
    requires i < |ChatIds(provider, blocks)|
    ensures j < |blocks| && BlockChatId(provider, blocks[j]) == Some(ChatIds(provider, blocks)[i])
  {
    j := SomesSource(BlockChatIds(provider, blocks), i);
  }

  /** Every collected id is non-empty and has no surrounding whitespace. */
  lemma ChatIdClean(provider: string, blocks: seq<string>, i: nat)
    requires i < |ChatIds(provider, blocks)|
    ensures ChatIds(provider, blocks)[i] != [] && Stripped(ChatIds(provider, blocks)[i])
  {
    var j := ChatIdSource(provider, blocks, i);
  }

  /** Every block with an id that passes the filter contributes its id. */
  lemma ChatIdKept(provider: string, blocks: seq<string>, j: nat)
    requires j < |blocks| && BlockChatId(provider, blocks[j]).Some?
    ensures BlockChatId(provider, blocks[j]).value in ChatIds(provider, blocks)
  {
    SomesHas(BlockChatIds(provider, blocks), j);
  }

  /** groq and cerebras keep the id of every block that has one. */
  lemma ChatKeepsAll(provider: string, blocks: seq<string>, j: nat)
    requires provider == "groq" || provider == "cerebras"
    requires j < |blocks| && BlockId(Strip(blocks[j])).Some?
    ensures BlockId(Strip(blocks[j])).value in ChatIds(provider, blocks)
  {
    var entry := Strip(blocks[j]);
    assert entry != [];
    assert ChatAccepts(provider, entry, BlockId(entry).value);
    assert BlockChatId(provider, blocks[j]) == BlockId(entry);
    ChatIdKept(provider, blocks, j);
  }

  /** gemini never keeps an id mentioning image, tts or robotics, in any
      letter case. */
  lemma ChatGeminiDrops(blocks: seq<string>, i: nat)
    requires i < |ChatIds("gemini", blocks)|
    ensures var low := Lower(ChatIds("gemini", blocks)[i]);
      !Contains(low, "image") && !Contains(low, "tts") && !Contains(low, "robotics")
  {
    var j := ChatIdSource("gemini", blocks, i);
    var id := ChatIds("gemini", blocks)[i];
    assert ChatAccepts("gemini", Strip(blocks[j]), id);
  }

  /** mistral never keeps an id mentioning pixtral or voxtral, in any letter
      case. */
  lemma ChatMistralDrops(blocks: seq<string>, i: nat)
    requires i < |ChatIds("mistral", blocks)|
    ensures var low := Lower(ChatIds("mistral", blocks)[i]);
      !Contains(low, "pixtral") && !Contains(low, "voxtral")
  {
    var j := ChatIdSource("mistral", blocks, i);
    var id := ChatIds("mistral", blocks)[i];
    assert ChatAccepts("mistral", Strip(blocks[j]), id);
  }

  /** huggingface keeps only text-generation blocks, openrouter only text output
      blocks. */
  lemma ChatNeedsTag(provider: string, blocks: seq<string>, i: nat) returns (j: nat)
    requires i < |ChatIds(provider, blocks)|
    ensures j < |blocks| && BlockId(Strip(blocks[j])) == Some(ChatIds(provider, blocks)[i])
    ensures provider == "huggingface" ==> Contains(Strip(blocks[j]), "Pipeline: text-generation")
    ensures provider == "openrouter" ==>
      Contains(Strip(blocks[j]), "Modality: text->text") || Contains(Strip(blocks[j]), "Modality: text+image->text")
  {
    j := ChatIdSource(provider, blocks, i);
  }

  /** The six providers with a chat rule. */
  predicate KnownProvider(p: string) {
    p == "huggingface" || p == "openrouter" || p == "cerebras" || p == "groq" || p == "gemini" || p == "mistral"
  }

  /** A provider outside the six known ones keeps nothing. */
  lemma ChatUnknownEmpty(provider: string, blocks: seq<string>)
    requires !KnownProvider(provider)
    ensures ChatIds(provider, blocks) == []
  {
    var cs := BlockChatIds(provider, blocks);
    forall j | 0 <= j < |cs| ensures cs[j].None? {
      var c := BlockChatId(provider, blocks[j]);
      assert c.Some? ==> ChatAccepts(provider, Strip(blocks[j]), c.value);
    }
    SomesAllNone(cs);
  }

  /** A provider is in `chat_models` exactly when some info file of it has a
      chat model; its list is that of the last such file. */
  lemma ChatModelsFromFile(files: seq<InfoFile>, p: string) returns (i: nat)
    requires p in ChatModelsOf(files)
    ensures i < |files| && InfoEntry(files[i]).Some? && InfoProvider(files[i].name) == p
  {
    var es := InfoEntries(files);
    i := AssocMapFromEntry(es, p);
    InfoEntriesAt(files, i);
  }

  lemma ChatModelsHasFile(files: seq<InfoFile>, i: nat)
    requires i < |files| && InfoEntry(files[i]).Some?
    ensures InfoProvider(files[i].name) in ChatModelsOf(files)
  {
    var es := InfoEntries(files);
    InfoEntriesAt(files, i);
    AssocMapHasEntry(es, i, InfoProvider(files[i].name));
  }

  lemma ChatModelsLastWins(files: seq<InfoFile>, i: nat)
    requires i < |files| && InfoEntry(files[i]).Some?
    requires forall j :: i < j < |files| ==> !Gives(InfoEntry(files[j]), InfoProvider(files[i].name))
    ensures var p := InfoProvider(files[i].name);
      p in ChatModelsOf(files) && ChatModelsOf(files)[p] == InfoEntry(files[i]).value.1
  {
    var es := InfoEntries(files);
    InfoEntriesAt(files, i);
    AssocMapLastWins(es, i, InfoProvider(files[i].name), InfoEntry(files[i]).value.1);
  }

  // ---------------------------------------------------------------------
  // filter_and_sort_models

  /** A tested model: id, window, whether it answered, and the response time
      in seconds (999.0 for a failure). The constant third field of the
      source's tuple is dropped. */
  datatype Tested = Tested(id: string, window: int, ok: bool, time: real)

  /** `[m for m in models_tested if m[3]]`. */
  function Successful(tested: seq<Tested>): (r: seq<Tested>)
    ensures |r| <= |tested|
  {
    if tested == [] then []
    else (if tested[0].ok then [tested[0]] else []) + Successful(tested[1..])
  }

  /** The successful tuples are exactly the input's tuples with the flag set. */
  lemma {:induction false} SuccessfulMembers(tested: seq<Tested>, t: Tested)
    ensures t in Successful(tested) <==> t in tested && t.ok
    decreases |tested|
  {
    if tested != [] {
      SuccessfulMembers(tested[1..], t);
      assert tested == [tested[0]] + tested[1..];
    }
  }

  function TimeOf(t: Tested): real {
    t.time
  }

  predicate RealLess(a: real, b: real) {
    a < b
  }

  /** `sorted(successful_models, key=lambda x: x[4])`. */
  function FilterAndSortModels(tested: seq<Tested>): (r: seq<Tested>)
    ensures |r| <= |tested|
  {
    SortBy(Successful(tested), TimeOf, RealLess)
  }

  /** The result holds exactly the successful tuples, each as often as in
      the input, ordered by response time ascending. */
  lemma FilterAndSortProperties(tested: seq<Tested>)
    ensures var r := FilterAndSortModels(tested);
      && SortedBy(r, TimeOf, RealLess)
      && multiset(r) == multiset(Successful(tested))
      && (forall t :: t in r <==> t in tested && t.ok)
  {
    var r := FilterAndSortModels(tested);
    SortBySorted(Successful(tested), TimeOf, RealLess);
    SortByPermutes(Successful(tested), TimeOf, RealLess);
    forall t ensures t in r <==> t in tested && t.ok {
      SuccessfulMembers(tested, t);
      assert t in r <==> t in multiset(r);
      assert t in Successful(tested) <==> t in multiset(Successful(tested));
    }
  }

  /** Ties keep their input order: the models with one response time appear
      as they were tested. */
  lemma FilterAndSortStable(tested: seq<Tested>, time: real)
    ensures WithKey(FilterAndSortModels(tested), TimeOf, time) == WithKey(Successful(tested), TimeOf, time)
  {
    SortByStable(Successful(tested), TimeOf, RealLess, time);
  }

  // ---------------------------------------------------------------------
  // do_main

  /** The outcome of `test_model_performance` that `do_main` looks at:
      success, response time and validity of the answer, and the error text. */
  datatype Probe = Probe(success: bool, time: real, valid: bool, err: string)

  /** What `do_main` records for a model and its probe: a model that answered
      validly with its time, any other as failed with 999.0. */
  function Record(s: ModelSpec, p: Probe): (t: Tested)
    ensures t.id == s.id && t.window == s.window
    ensures t.ok <==> p.success && p.valid
    ensures t.ok ==> t.time == p.time
    ensures !t.ok ==> t.time == 999.0
  {
    if p.success && p.valid then Tested(s.id, s.window, true, p.time)
    else Tested(s.id, s.window, false, 999.0)
  }

  /** The error as displayed: its first 30 characters and `..` when longer. */
  function ShortError(err: string): (r: string)
    ensures |r| <= 32
    ensures |err| <= 30 ==> r == err
    ensures |err| > 30 ==> StartsWith(r, err[..30]) && EndsWith(r, "..") && |r| == 32
  {
    if |err| > 30 then err[..30] + ".." else err
  }

  /** `[spec for spec in all_models_specs if spec[0] in chat_models_for_provider]`. */
  function ChatSpecs(specs: seq<ModelSpec>, chat: seq<string>): (r: seq<ModelSpec>)
    ensures |r| <= |specs|
  {
    if specs == [] then []
    else (if specs[0].id in chat then [specs[0]] else []) + ChatSpecs(specs[1..], chat)
  }

  lemma {:induction false} ChatSpecsMembers(specs: seq<ModelSpec>, chat: seq<string>, s: ModelSpec)
    ensures s in ChatSpecs(specs, chat) <==> s in specs && s.id in chat
    decreases |specs|
  {
    if specs != [] {
      ChatSpecsMembers(specs[1..], chat, s);
      assert specs == [specs[0]] + specs[1..];
    }
  }

  /** The results of probing every model to test, in order. */
  function TestAll(toTest: seq<ModelSpec>, provider: string, key: string,
                   probe: (string, string, string) -> Probe): (r: seq<Tested>)
    ensures |r| == |toTest|
  {
    seq(|toTest|, i requires 0 <= i < |toTest| => Record(toTest[i], probe(provider, toTest[i].id, key)))
  }

  /** An output line, `f"{model_id}|{window}"`. */
  function OkLine(t: Tested): string {
    t.id + "|" + IntToString(t.window)
  }

  function OkLines(best: seq<Tested>): (r: seq<string>)
    ensures |r| == |best|
  {
    seq(|best|, i requires 0 <= i < |best| => OkLine(best[i]))
  }

  /** How `do_main` ends: one of its four early `False` returns, or the lines
      written to `data_ok/<provider>_wnd.txt`. */
  datatype Outcome = NoKey | NoChatModels | NoSpecs | NoneAnswered | Saved(lines: seq<string>)

  /** `all_chat_models.get(provider, [])`. */
  function ChatFor(chat: map<string, seq<string>>, provider: string): seq<string> {
    if provider in chat then chat[provider] else []
  }

  /** The run of `do_main` on an input provider name. */
  function MainOutcome(input: string, env: map<string, string>, data: map<string, seq<string>>,
                       infoFiles: seq<InfoFile>, probe: (string, string, string) -> Probe): Outcome
  {
    var provider := Lower(input);
    var key := ApiKeyFor(provider, env);
    if key.None? then NoKey
    else
      var chat := ChatFor(ChatModelsOf(infoFiles), provider);
      if chat == [] then NoChatModels
      else
        var specs := SpecsFor(Lookup(data, ModelsFileName(provider)), Lookup(data, WndFileName(provider)));
        var toTest := ChatSpecs(specs, chat);
        if toTest == [] then NoSpecs
        else
          var best := FilterAndSortModels(TestAll(toTest, provider, key.value, probe));
          if best == [] then NoneAnswered else Saved(OkLines(best))
  }

  /** `do_main`: `ok` is its return value. */
  method DoMain(input: string, env: map<string, string>, data: map<string, seq<string>>,
                infoFiles: seq<InfoFile>, probe: (string, string, string) -> Probe)
    returns (ok: bool, outcome: Outcome)
    ensures outcome == MainOutcome(input, env, data, infoFiles, probe)
    ensures ok <==> outcome.Saved?
  {
    var provider := Lower(input);
    var apiKey := ApiKeyFor(provider, env);
    if apiKey.None? {
      return false, NoKey;
    }
    var allChat := GetChatCapableModels(infoFiles);
    var chat := ChatFor(allChat, provider);
    if chat == [] {
      return false, NoChatModels;
    }
    var specs := GetModelSpecs(Lookup(data, ModelsFileName(provider)), Lookup(data, WndFileName(provider)));
    var toTest := ChatSpecs(specs, chat);
    if toTest == [] {
      return false, NoSpecs;
    }
    var tested := ProbeAll(toTest, provider, apiKey.value, probe);
    var best := FilterAndSortModels(tested);
    if best == [] {
      return false, NoneAnswered;
    }
    var lines := WriteLines(best);
    return true, Saved(lines);
  }

  /** The test loop of `do_main`, appending one result per model. */
  method ProbeAll(toTest: seq<ModelSpec>, provider: string, key: string,
                  probe: (string, string, string) -> Probe) returns (tested: seq<Tested>)
    ensures tested == TestAll(toTest, provider, key, probe)
  {
    tested := [];
    for n := 0 to |toTest|
      invariant |tested| == n
      invariant forall i :: 0 <= i < n ==> tested[i] == Record(toTest[i], probe(provider, toTest[i].id, key))
    {
      var s := toTest[n];
      var p := probe(provider, s.id, key);
      if p.success && p.valid {
        tested := tested + [Tested(s.id, s.window, true, p.time)];
      } else {
        tested := tested + [Tested(s.id, s.window, false, 999.0)];
      }
    }
  }

  /** The write loop of `do_main`. */
  method WriteLines(best: seq<Tested>) returns (lines: seq<string>)
    ensures lines == OkLines(best)
  {
    lines := [];
    for n := 0 to |best|
      invariant |lines| == n
      invariant forall i :: 0 <= i < n ==> lines[i] == OkLine(best[i])
    {
      lines := lines + [best[n].id + "|" + IntToString(best[n].window)];
    }
  }

  /** Without a key nothing is read or tested. */
  lemma MainNeedsKey(input: string, env: map<string, string>, data: map<string, seq<string>>,
                     infoFiles: seq<InfoFile>, probe: (string, string, string) -> Probe)
    ensures MainOutcome(input, env, data, infoFiles, probe) == NoKey <==> ApiKeyFor(Lower(input), env).None?
  {
  }

  /** Every model in the best list was among those tested, and its probe
      succeeded with a valid answer. */
  lemma BestSource(toTest: seq<ModelSpec>, provider: string, key: string,
                   probe: (string, string, string) -> Probe, i: nat) returns (s: ModelSpec)
    requires i < |FilterAndSortModels(TestAll(toTest, provider, key, probe))|
    ensures s in toTest
    ensures probe(provider, s.id, key).success && probe(provider, s.id, key).valid
    ensures FilterAndSortModels(TestAll(toTest, provider, key, probe))[i] == Record(s, probe(provider, s.id, key))
  {
    var tested := TestAll(toTest, provider, key, probe);
    var t := FilterAndSortModels(tested)[i];
    FilterAndSortProperties(tested);
    assert t in tested && t.ok;
    var k :| 0 <= k < |tested| && tested[k] == t;
    s := toTest[k];
  }

  /** Each saved line is `id|window` of a chat model of the provider listed
      in its models file whose probe succeeded with a valid answer. */
  lemma SavedLineSource(input: string, env: map<string, string>, data: map<string, seq<string>>,
                        infoFiles: seq<InfoFile>, probe: (string, string, string) -> Probe, i: nat)
    returns (s: ModelSpec)
    requires MainOutcome(input, env, data, infoFiles, probe).Saved?
    requires i < |MainOutcome(input, env, data, infoFiles, probe).lines|
    ensures var provider := Lower(input);
      var key := ApiKeyFor(provider, env).value;
      && s in SpecsFor(Lookup(data, ModelsFileName(provider)), Lookup(data, WndFileName(provider)))
      && s.id in ChatFor(ChatModelsOf(infoFiles), provider)
      && probe(provider, s.id, key).success && probe(provider, s.id, key).valid
      && MainOutcome(input, env, data, infoFiles, probe).lines[i] == s.id + "|" + IntToString(s.window)
  {
    var provider := Lower(input);
    var key := ApiKeyFor(provider, env).value;
    var chat := ChatFor(ChatModelsOf(infoFiles), provider);
    var specs := SpecsFor(Lookup(data, ModelsFileName(provider)), Lookup(data, WndFileName(provider)));
    var toTest := ChatSpecs(specs, chat);
    s := BestSource(toTest, provider, key, probe, i);
    ChatSpecsMembers(specs, chat, s);
  }

  /** Every chat model of the provider listed in its models file whose probe
      succeeded with a valid answer is saved, as `id|window`. */
  lemma SavedLineKept(input: string, env: map<string, string>, data: map<string, seq<string>>,
                      infoFiles: seq<InfoFile>, probe: (string, string, string) -> Probe, s: ModelSpec)
    requires ApiKeyFor(Lower(input), env).Some?
    requires s in SpecsFor(Lookup(data, ModelsFileName(Lower(input))), Lookup(data, WndFileName(Lower(input))))
    requires s.id in ChatFor(ChatModelsOf(infoFiles), Lower(input))
    requires probe(Lower(input), s.id, ApiKeyFor(Lower(input), env).value).success
    requires probe(Lower(input), s.id, ApiKeyFor(Lower(input), env).value).valid
    ensures MainOutcome(input, env, data, infoFiles, probe).Saved?
    ensures s.id + "|" + IntToString(s.window) in MainOutcome(input, env, data, infoFiles, probe).lines
  {
    var provider := Lower(input);
    var key := ApiKeyFor(provider, env).value;
    var chat := ChatFor(ChatModelsOf(infoFiles), provider);
    var specs := SpecsFor(Lookup(data, ModelsFileName(provider)), Lookup(data, WndFileName(provider)));
    var toTest := ChatSpecs(specs, chat);
    ChatSpecsMembers(specs, chat, s);
    var k :| 0 <= k < |toTest| && toTest[k] == s;
    var tested := TestAll(toTest, provider, key, probe);
    var t := tested[k];
    assert t == Record(s, probe(provider, s.id, key));
    var best := FilterAndSortModels(tested);
    FilterAndSortProperties(tested);
    assert t in best;
    var j :| 0 <= j < |best| && best[j] == t;
    assert OkLines(best)[j] == s.id + "|" + IntToString(s.window);
  }

  /** Saved lines come fastest first. */
  lemma SavedFastestFirst(input: string, env: map<string, string>, data: map<string, seq<string>>,
                          infoFiles: seq<InfoFile>, probe: (string, string, string) -> Probe, i: nat, j: nat)
    returns (ti: Tested, tj: Tested)
    requires MainOutcome(input, env, data, infoFiles, probe).Saved?
    requires i < j < |MainOutcome(input, env, data, infoFiles, probe).lines|
    ensures ti.ok && tj.ok && ti.time <= tj.time
    ensures MainOutcome(input, env, data, infoFiles, probe).lines[i] == OkLine(ti)
    ensures MainOutcome(input, env, data, infoFiles, probe).lines[j] == OkLine(tj)
  {
    var provider := Lower(input);
    var key := ApiKeyFor(provider, env).value;
    var chat := ChatFor(ChatModelsOf(infoFiles), provider);
    var specs := SpecsFor(Lookup(data, ModelsFileName(provider)), Lookup(data, WndFileName(provider)));
    var tested := TestAll(ChatSpecs(specs, chat), provider, key, probe);
    var best := FilterAndSortModels(tested);
    FilterAndSortProperties(tested);
    ti, tj := best[i], best[j];
    assert ti in best && tj in best;
  }

  /** models_ok reads its own saved windows back unchanged. */
  lemma OkWindowOfSaved(window: int)
    ensures OkWindow(IntToString(window)) == window
  {
    ParseIntOfIntToString(window);
    var s := IntToString(window);
    OkWindowCases(s);
    assert LowerChar(s[|s| - 1]) != 'k';
  }
}
