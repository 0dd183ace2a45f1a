/** models_groq.py: the fixed list of Groq models, the "one model per base
    name, newest version" filter, and the three catalog files it writes. */
module Groq {
  import opened Wrappers
  import opened Text
  import opened Dedup
  import opened WindowToken
  import opened InfoBlocks
  import opened FetchCommon

  /** One entry of the built-in model list. */
  datatype GroqModel = GroqModel(id: string, name: string, contextLength: int)

  /** The list the script uses, the Groq SDK having no listing call it relies on. */
  const AvailableModels: seq<GroqModel> := [
    GroqModel("llama3-8b-8192", "Llama 3 8B", 8192),
    GroqModel("llama3-70b-8192", "Llama 3 70B", 8192),
    GroqModel("mixtral-8x7b-32768", "Mixtral 8x7B", 32768),
    GroqModel("gemma-7b-it", "Gemma 7B", 8192),
    GroqModel("gemma2-9b-it", "Gemma 2 9B", 8192),
    GroqModel("llama-3.1-8b-instant", "Llama 3.1 8B (Instant)", 131072),
    GroqModel("llama-3.1-70b-versatile", "Llama 3.1 70B (Versatile)", 131072),
    GroqModel("llama-3.2-1b-preview", "Llama 3.2 1B (Preview)", 8192),
    GroqModel("llama-3.2-3b-preview", "Llama 3.2 3B (Preview)", 8192),
    GroqModel("llama-guard-3-8b", "Llama Guard 3 8B", 8192)
  ]

  /** `base_name`: `provider/<name before ':'>`, or the bare name when the
      provider part is empty. */
  function BaseName(m: GroqModel): string {
    ProviderSplit(m.id, true).0
  }

  /** `version`: the text after the `:` of the model name, else `"000"`. */
  function Version(m: GroqModel): string {
    ProviderSplit(m.id, true).1
  }

  /** `filter_and_sort_models`: every model passes the text filter, then one
      model per base name is kept, the one with the greatest version (the
      first among equals), in first-appearance order of the bases. */
  method FilterAndSortModels(models: seq<GroqModel>) returns (kept: seq<GroqModel>)
    ensures kept == Table(models, BaseName, Newer(Version)).Values()
    ensures KeepsBestPerKey(models, BaseName, Newer(Version), kept)
  {
    var filtered := models;
    kept := KeepBest(filtered, BaseName, Newer(Version));
    NewerWeakOrder(filtered, Version);
    BestPerKey(filtered, BaseName, Newer(Version));
  }

  /** An id is its own sort key and its own written text. */
  function Id(m: GroqModel): string {
    m.id
  }

  function Token(m: GroqModel): string {
    KLimit(m.contextLength)
  }

  /** `data/models_groq.txt`. */
  function ModelsFile(kept: seq<GroqModel>): seq<string> {
    ModelsLines(kept, Id, Id)
  }

  /** `data/models_groq_wnd.txt`. */
  function WndFile(kept: seq<GroqModel>): seq<string> {
    WndLines(kept, Id, Id, Token)
  }

  /** One block of `data/models_groq_info.txt`. */
  function Record(m: GroqModel): string {
    InfoRecord(m.id, ["Nome: " + m.name, "Context: " + IntToString(m.contextLength)])
  }

  /** `data/models_groq_info.txt`. */
  function InfoFile(kept: seq<GroqModel>): string {
    var l := Listed(kept, Id);
    InfoText("GROQ", seq(|l|, i requires 0 <= i < |l| => Record(l[i])))
  }

  // ---------------------------------------------------------------------
  // Properties

  /** Base and version of the id shapes the script meets. */
  lemma BaseNameCases(p: string, b: string, v: string)
    requires '/' !in p && '/' !in b && '/' !in v && ':' !in b && ':' !in v
    ensures p != [] ==> BaseName(GroqModel(p + "/" + (b + ":" + v), "", 0)) == p + "/" + b
    ensures p != [] ==> Version(GroqModel(p + "/" + (b + ":" + v), "", 0)) == v
    ensures p != [] ==> BaseName(GroqModel(p + "/" + b, "", 0)) == p + "/" + b
    ensures p != [] ==> Version(GroqModel(p + "/" + b, "", 0)) == "000"
    ensures b != [] ==> BaseName(GroqModel(b, "", 0)) == b + "/" + b
    ensures BaseName(GroqModel("/" + b, "", 0)) == b
  {
    assert '/' !in b + ":" + v;
    if p != [] {
      ProviderSplitTagged(p, b, v, true);
      ProviderSplitUntagged(p, b, true);
    }
    if b != [] {
      ProviderSplitPlain(b, true);
    }
    ProviderSplitEmptyProvider(b);
  }

  /** Ids without `/` or `:` are each their own base (`id/id`), so a list of
      distinct such ids, like the built-in one, is kept whole and in order. */
  lemma PlainIdsAllKept(ms: seq<GroqModel>)
    requires forall i :: 0 <= i < |ms| ==> ms[i].id != [] && '/' !in ms[i].id && ':' !in ms[i].id
    requires forall i, j :: 0 <= i < j < |ms| ==> ms[i].id != ms[j].id
    ensures Table(ms, BaseName, Newer(Version)).Values() == ms
  {
    forall i | 0 <= i < |ms| ensures BaseName(ms[i]) == ms[i].id + "/" + ms[i].id {
      ProviderSplitPlain(ms[i].id, true);
    }
    forall i, j | 0 <= i < j < |ms| ensures BaseName(ms[i]) != BaseName(ms[j]) {
      DoubledInjective(ms[i].id, ms[j].id);
    }
    DistinctKeysKeepAll(ms, BaseName, Newer(Version));
  }

  /** The built-in ids are distinct. */
  lemma AvailableIdsDistinct()
    ensures forall i, j :: 0 <= i < j < |AvailableModels| ==> AvailableModels[i].id != AvailableModels[j].id
  {
  }

  lemma DoubledInjective(a: string, b: string)
    requires '/' !in a && '/' !in b && a != b
    ensures a + "/" + a != b + "/" + b
  {
    if |a| < |b| {
      assert (b + "/" + b)[|a|] == b[|a|];
    } else if |b| < |a| {
      assert (a + "/" + a)[|b|] == a[|b|];
    } else {
      var k :| 0 <= k < |a| && a[k] != b[k];
      assert (a + "/" + a)[k] == a[k];
      assert (b + "/" + b)[k] == b[k];
    }
  }

  /** The written window tokens of the built-in contexts. */
  lemma AvailableTokens()
    ensures forall i :: 0 <= i < |AvailableModels| ==>
      Token(AvailableModels[i]) in {"8k", "32k", "128k"}
  {
    KLimitExamples();
  }

  /** Each info block opens with the model's id line, which models_ok reads
      back as the id. */
  lemma RecordId(m: GroqModel)
    requires m.id != [] && Stripped(m.id) && '\n' !in m.id
    ensures BlockId(Record(m)) == Some(m.id)
  {
    InfoRecordId(m.id, ["Nome: " + m.name, "Context: " + IntToString(m.contextLength)]);
  }
}
