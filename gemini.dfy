/** models_gemini.py: the text-generation filter over the Gemini model
    list, the `models/` prefix removal, the "one model per base name, newest
    dated version" filter, and the three catalog files it writes. */
module Gemini {
  import opened Wrappers
  import opened Text
  import opened Sorting
  import opened Dedup
  import opened WindowToken
  import opened InfoBlocks
  import opened FetchCommon

  /** One model of the SDK listing: its resource name (`models/...`), the
      actions it supports and the attributes the files print; `None` where
      the object lacks the attribute. */
  datatype GeminiModel = GeminiModel(
    name: string, displayName: Option<string>, supportedActions: seq<string>,
    version: Option<string>, inputTokenLimit: Option<int>, outputTokenLimit: Option<int>)

  const Prefix: string := "models/"

  /** `m.name.replace("models/", "")`: the id written to every file and the
      text the base name is taken from. */
  function CleanName(m: GeminiModel): string {
    ReplaceAll(m.name, Prefix, "")
  }

  /** `"generateContent" in m.supported_actions`. */
  predicate IsText(m: GeminiModel) {
    "generateContent" in m.supportedActions
  }

  /** `base_name`: the clean name without a trailing `-<digits>` part, which
      applies even when that part is the whole name. */
  function BaseName(m: GeminiModel): string {
    DashSplit(CleanName(m), false).0
  }

  /** `version`: that trailing digit part, else `"000"`. */
  function Version(m: GeminiModel): string {
    DashSplit(CleanName(m), false).1
  }

  /** `filter_and_sort_models`: the comprehension keeps the text models,
      then one model per base name is kept, the one with the greatest
      version (the first among equals), in first-appearance order. */
  method FilterAndSortModels(models: seq<GeminiModel>) returns (kept: seq<GeminiModel>)
    ensures kept == Table(Keep(models, IsText), BaseName, Newer(Version)).Values()
    ensures KeepsBestPerKey(Keep(models, IsText), BaseName, Newer(Version), kept)
  {
    var textModels := Keep(models, IsText);
    kept := KeepBest(textModels, BaseName, Newer(Version));
    NewerWeakOrder(textModels, Version);
    BestPerKey(textModels, BaseName, Newer(Version));
  }

  /** The files list models by their full resource name. */
  function RawName(m: GeminiModel): string {
    m.name
  }

  /** `getattr(m, 'input_token_limit', 0)` as a window token. */
  function Token(m: GeminiModel): string {
    KLimit(m.inputTokenLimit.GetOr(0))
  }

  /** `data/models_gemini.txt`. */
  function ModelsFile(kept: seq<GeminiModel>): seq<string> {
    ModelsLines(kept, RawName, CleanName)
  }

  /** `data/models_gemini_wnd.txt`. */
  function WndFile(kept: seq<GeminiModel>): seq<string> {
    WndLines(kept, RawName, CleanName, Token)
  }

  /** The display name, then the version and the two limits when the model
      has them. */
  function Fields(m: GeminiModel): seq<string> {
    ["Display Name: " + PyStr(m.displayName)]
    + (if m.version.Some? then ["Version: " + m.version.value] else [])
    + (if m.inputTokenLimit.Some? then ["Input Limit: " + IntToString(m.inputTokenLimit.value)] else [])
    + (if m.outputTokenLimit.Some? then ["Output Limit: " + IntToString(m.outputTokenLimit.value)] else [])
  }

  /** One block of `data/models_gemini_info.txt`. */
  function Record(m: GeminiModel): string {
    InfoRecord(CleanName(m), Fields(m))
  }

  /** `data/models_gemini_info.txt`. */
  function InfoFile(kept: seq<GeminiModel>): string {
    var l := Listed(kept, RawName);
    InfoText("GEMINI", seq(|l|, i requires 0 <= i < |l| => Record(l[i])))
  }

  // ---------------------------------------------------------------------
  // Properties

  /** A model survives the comprehension exactly when it supports
      `generateContent`. */
  lemma FilterKeeps(models: seq<GeminiModel>, m: GeminiModel)
    ensures m in Keep(models, IsText) <==> m in models && "generateContent" in m.supportedActions
  {
    KeepMembers(models, IsText, m);
  }

  /** The usual resource name `models/<x>` is written as `<x>`. */
  lemma CleanNameOf(m: GeminiModel, x: string)
    requires m.name == Prefix + x && !Contains(x, Prefix)
    ensures CleanName(m) == x
  {
    var s := Prefix + x;
    assert s[..|Prefix|] == Prefix;
    assert s[|Prefix|..] == x;
    ReplaceAbsent(x, Prefix, "");
  }

  /** Base and version of the clean names the listing uses: `<b>-<digits>` is
      version `<digits>` of `<b>`; a dash-free name is its own base, except
      one made only of digits, whose base is empty. */
  lemma BaseNameCases(m: GeminiModel, b: string, d: string)
    requires AllDigits(d)
    ensures CleanName(m) == b + "-" + d ==> BaseName(m) == b && Version(m) == d
    ensures CleanName(m) == b && '-' !in b && !AllDigits(b) ==> BaseName(m) == b && Version(m) == "000"
    ensures CleanName(m) == d ==> BaseName(m) == "" && Version(m) == d
  {
    DashSplitSuffix(b, d, false);
    if '-' !in b && !AllDigits(b) {
      DashSplitNoDash(b);
    }
    assert '-' !in d by {
      assert forall i :: 0 <= i < |d| ==> d[i] != '-';
    }
    DashSplitAllDigits(d);
  }

  /** When every listed name is `models/<x>` the files, listed by full name,
      are also in ascending order of the ids they write. */
  lemma ListedByCleanName(kept: seq<GeminiModel>)
    requires forall i :: 0 <= i < |kept| ==> StartsWith(kept[i].name, Prefix) && !Contains(kept[i].name[|Prefix|..], Prefix)
    ensures SortedBy(Listed(kept, RawName), CleanName, StrLess)
  {
    var l := Listed(kept, RawName);
    ListedProperties(kept, RawName);
    forall i | 0 <= i < |l| ensures l[i].name == Prefix + CleanName(l[i]) {
      assert l[i] in multiset(kept);
      ClassicName(l[i]);
    }
    forall i, j | 0 <= i < j < |l| ensures !StrLess(CleanName(l[j]), CleanName(l[i])) {
      StrLessCommonPrefix(Prefix, CleanName(l[j]), CleanName(l[i]));
    }
  }

  lemma ClassicName(m: GeminiModel)
    requires StartsWith(m.name, Prefix) && !Contains(m.name[|Prefix|..], Prefix)
    ensures m.name == Prefix + CleanName(m)
  {
    var x := m.name[|Prefix|..];
    assert m.name == Prefix + x;
    CleanNameOf(m, x);
  }

  /** Each info block opens with the clean id line, which models_ok reads
      back as the id. */
  lemma RecordId(m: GeminiModel)
    requires CleanName(m) != [] && Stripped(CleanName(m)) && '\n' !in CleanName(m)
    ensures BlockId(Record(m)) == Some(CleanName(m))
  {
    InfoRecordId(CleanName(m), Fields(m));
  }
}
