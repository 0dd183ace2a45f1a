/** models_openrouter.py: the free text-model filter over the OpenRouter
    catalog, the "one model per base name, newest version" filter, and the
    three catalog files it writes. */
module OpenRouter {
  import opened Wrappers
  import opened Text
  import opened Dedup
  import opened WindowToken
  import opened InfoBlocks
  import opened FetchCommon

  /** One catalog entry: `architecture.modality`, the two prices (already
      read as numbers) and the attributes the files print; `None` where the
      entry lacks the key. */
  datatype OpenRouterModel = OpenRouterModel(
    id: string, name: Option<string>, contextLength: Option<int>,
    modality: Option<string>, promptPrice: Option<real>, completionPrice: Option<real>)

  /** `float(pricing.get(key, 1))`. */
  function Price(p: Option<real>): real {
    p.GetOr(1.0)
  }

  /** `"text" in modality and modality.endswith("text")`, a missing modality
      being the empty string. */
  predicate IsText(m: OpenRouterModel) {
    var modality := m.modality.GetOr("");
    Contains(modality, "text") && EndsWith(modality, "text")
  }

  /** Both prices are zero. */
  predicate IsFree(m: OpenRouterModel) {
    Price(m.promptPrice) == 0.0 && Price(m.completionPrice) == 0.0
  }

  predicate Passes(m: OpenRouterModel) {
    IsText(m) && IsFree(m)
  }

  /** `base_name`: always `provider/<name before ':'>`. */
  function BaseName(m: OpenRouterModel): string {
    ProviderSplit(m.id, false).0
  }

  /** `version`: the text after the `:` of the model name, else `"000"`. */
  function Version(m: OpenRouterModel): string {
    ProviderSplit(m.id, false).1
  }

  /** `filter_and_sort_models`: the append loop keeps the free text models,
      then one model per base name is kept, the one with the greatest
      version (the first among equals), in first-appearance order. */
  method FilterAndSortModels(models: seq<OpenRouterModel>) returns (kept: seq<OpenRouterModel>)
    ensures kept == Table(Keep(models, Passes), BaseName, Newer(Version)).Values()
    ensures KeepsBestPerKey(Keep(models, Passes), BaseName, Newer(Version), kept)
  {
    var filtered := FilterLoop(models, Passes);
    kept := KeepBest(filtered, BaseName, Newer(Version));
    NewerWeakOrder(filtered, Version);
    BestPerKey(filtered, BaseName, Newer(Version));
  }

  function Id(m: OpenRouterModel): string {
    m.id
  }

  /** `context_length`, missing read as 0, as a window token. */
  function Token(m: OpenRouterModel): string {
    KLimit(m.contextLength.GetOr(0))
  }

  /** `data/models_openrouter.txt`. */
  function ModelsFile(kept: seq<OpenRouterModel>): seq<string> {
    ModelsLines(kept, Id, Id)
  }

  /** `data/models_openrouter_wnd.txt`. */
  function WndFile(kept: seq<OpenRouterModel>): seq<string> {
    WndLines(kept, Id, Id, Token)
  }

  function Fields(m: OpenRouterModel): seq<string> {
    ["Nome: " + PyStr(m.name), "Context: " + PyInt(m.contextLength), "Modality: " + PyStr(m.modality)]
  }

  /** One block of `data/models_openrouter_info.txt`. */
  function Record(m: OpenRouterModel): string {
    InfoRecord(m.id, Fields(m))
  }

  /** `data/models_openrouter_info.txt`. */
  function InfoFile(kept: seq<OpenRouterModel>): string {
    var l := Listed(kept, Id);
    InfoText("OPENROUTER (FREE)", seq(|l|, i requires 0 <= i < |l| => Record(l[i])))
  }

  // ---------------------------------------------------------------------
  // Properties

  /** A model survives the first loop exactly when its modality ends in
      `text` (which already contains `text`) and both prices are zero; a
      missing price is not free. */
  lemma FilterKeeps(models: seq<OpenRouterModel>, m: OpenRouterModel)
    ensures m in Keep(models, Passes) <==>
      m in models && EndsWith(m.modality.GetOr(""), "text") &&
      m.promptPrice == Some(0.0) && m.completionPrice == Some(0.0)
  {
    KeepMembers(models, Passes, m);
    EndsWithText(m.modality.GetOr(""));
  }

  lemma EndsWithText(s: string)
    ensures EndsWith(s, "text") ==> Contains(s, "text")
  {
    if EndsWith(s, "text") {
      ContainsAt(s, "text", |s| - 4);
    }
  }

  /** Base and version of the id shapes the catalog uses. */
  lemma BaseNameCases(p: string, b: string, v: string)
    requires '/' !in p && '/' !in b && '/' !in v && ':' !in b && ':' !in v
    ensures p != [] ==> BaseName(OpenRouterModel(p + "/" + (b + ":" + v), None, None, None, None, None)) == p + "/" + b
    ensures p != [] ==> Version(OpenRouterModel(p + "/" + (b + ":" + v), None, None, None, None, None)) == v
    ensures p != [] ==> BaseName(OpenRouterModel(p + "/" + b, None, None, None, None, None)) == p + "/" + b
    ensures b != [] ==> BaseName(OpenRouterModel(b, None, None, None, None, None)) == b + "/" + b
    ensures BaseName(OpenRouterModel("/" + b, None, None, None, None, None)) == "/" + b
  {
    assert '/' !in b + ":" + v;
    if p != [] {
      ProviderSplitTagged(p, b, v, false);
      ProviderSplitUntagged(p, b, false);
    }
    if b != [] {
      ProviderSplitPlain(b, false);
    }
    ProviderSplitEmptyProvider(b);
  }

  /** `x/y:free` shares its base with `x/y` and replaces it: `"free"` is
      greater than `"000"`. */
  lemma FreeTagBeatsUntagged(p: string, b: string, plain: OpenRouterModel, tagged: OpenRouterModel)
    requires p != [] && '/' !in p && '/' !in b && ':' !in b
    requires plain.id == p + "/" + b && tagged.id == p + "/" + (b + ":" + "free")
    ensures BaseName(tagged) == BaseName(plain)
    ensures Newer(Version)(tagged, plain) && !Newer(Version)(plain, tagged)
  {
    FreeTag(p, b, tagged);
    ProviderSplitUntagged(p, b, false);
    assert Version(plain) == "000";
    FreeAfterUntagged();
    assert Newer(Version)(tagged, plain) == StrLess(Version(plain), Version(tagged));
    assert Newer(Version)(plain, tagged) == StrLess(Version(tagged), Version(plain));
  }

  lemma FreeTag(p: string, b: string, tagged: OpenRouterModel)
    requires p != [] && '/' !in p && '/' !in b && ':' !in b
    requires tagged.id == p + "/" + (b + ":" + "free")
    ensures BaseName(tagged) == p + "/" + b && Version(tagged) == "free"
  {
    var v := "free";
    assert '/' !in v && ':' !in v;
    assert '/' !in b + ":" + v;
    ProviderSplitTagged(p, b, v, false);
  }

  lemma FreeAfterUntagged()
    ensures StrLess("000", "free") && !StrLess("free", "000")
  {
    StrLessAsymmetric("000", "free");
  }

  /** Each info block opens with the model's id line, which models_ok reads
      back as the id, and holds the modality line models_ok filters on. */
  lemma RecordReadBack(m: OpenRouterModel)
    requires m.id != [] && Stripped(m.id) && '\n' !in m.id
    ensures BlockId(Record(m)) == Some(m.id)
    ensures Contains(Record(m), "Modality: " + PyStr(m.modality))
  {
    InfoRecordId(m.id, Fields(m));
    InfoRecordHas(m.id, Fields(m), 2);
  }
}
