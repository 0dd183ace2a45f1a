/** models_cerebras.py: the "one model per base name, newest dated version"
    filter over the Cerebras catalog, the estimated context window, and the
    three catalog files it writes. */
module Cerebras {
  import opened Wrappers
  import opened Text
  import opened Dedup
  import opened WindowToken
  import opened InfoBlocks
  import opened FetchCommon

  /** One catalog entry and the attributes the files print. */
  datatype CerebrasModel = CerebrasModel(id: string, created: Option<int>, ownedBy: Option<string>)

  /** `base_name`: the id without a trailing `-<digits>` part, when it has
      at least two `-` parts; the id itself otherwise. */
  function BaseName(m: CerebrasModel): string {
    DashSplit(m.id, true).0
  }

  /** `version`: that trailing digit part, else `"000"`. */
  function Version(m: CerebrasModel): string {
    DashSplit(m.id, true).1
  }

  /** `filter_and_sort_models`: every model is a candidate; one model per
      base name is kept, the one with the greatest version (the first among
      equals), in first-appearance order. */
  method FilterAndSortModels(models: seq<CerebrasModel>) returns (kept: seq<CerebrasModel>)
    ensures kept == Table(models, BaseName, Newer(Version)).Values()
    ensures KeepsBestPerKey(models, BaseName, Newer(Version), kept)
  {
    kept := KeepBest(models, BaseName, Newer(Version));
    NewerWeakOrder(models, Version);
    BestPerKey(models, BaseName, Newer(Version));
  }

  /** `get_context_window`: the API gives no window, so it is estimated from
      the id. */
  function GetContextWindow(id: string): (w: int)
    ensures w == 131072 || w == 8192
    ensures w == 131072 <==> Contains(id, "llama-3.1") || Contains(id, "llama-3.3")
  {
    if Contains(id, "llama-3.1") || Contains(id, "llama-3.3") then 131072
    else if Contains(id, "llama3") then 8192
    else 8192
  }

  function Id(m: CerebrasModel): string {
    m.id
  }

  function Token(m: CerebrasModel): string {
    KLimit(GetContextWindow(m.id))
  }

  /** `data/models_cerebras.txt`. */
  function ModelsFile(kept: seq<CerebrasModel>): seq<string> {
    ModelsLines(kept, Id, Id)
  }

  /** `data/models_cerebras_wnd.txt`. */
  function WndFile(kept: seq<CerebrasModel>): seq<string> {
    WndLines(kept, Id, Id, Token)
  }

  function Fields(m: CerebrasModel): seq<string> {
    ["Created: " + PyInt(m.created), "Owned By: " + PyStr(m.ownedBy),
     "Context (est.): " + IntToString(GetContextWindow(m.id))]
  }

  /** One block of `data/models_cerebras_info.txt`. */
  function Record(m: CerebrasModel): string {
    InfoRecord(m.id, Fields(m))
  }

  /** `data/models_cerebras_info.txt`. */
  function InfoFile(kept: seq<CerebrasModel>): string {
    var l := Listed(kept, Id);
    InfoText("CEREBRAS", seq(|l|, i requires 0 <= i < |l| => Record(l[i])))
  }

  // ---------------------------------------------------------------------
  // Properties

  /** `<b>-<digits>` is version `<digits>` of base `<b>`; an id without a
      dash is its own base at version `"000"`, an all-digit one included. */
  lemma BaseNameCases(b: string, d: string)
    requires AllDigits(d)
    ensures BaseName(CerebrasModel(b + "-" + d, None, None)) == b
    ensures Version(CerebrasModel(b + "-" + d, None, None)) == d
    ensures '-' !in b ==> BaseName(CerebrasModel(b, None, None)) == b
    ensures '-' !in b ==> Version(CerebrasModel(b, None, None)) == "000"
  {
    DashSplitSuffix(b, d, true);
    if '-' !in b {
      if AllDigits(b) {
        DashSplitAllDigits(b);
      } else {
        DashSplitNoDash(b);
      }
    }
  }

  /** The window token is `128k` exactly for the Llama 3.1 and 3.3 ids and
      `8k` for every other id. */
  lemma TokenIs(m: CerebrasModel)
    ensures Token(m) == (if Contains(m.id, "llama-3.1") || Contains(m.id, "llama-3.3") then "128k" else "8k")
  {
    KLimitExamples();
  }

  /** Each info block opens with the model's id line, which models_ok reads
      back as the id, and its estimated-context line is the window the wnd
      file was written from. */
  lemma RecordReadBack(m: CerebrasModel)
    requires m.id != [] && Stripped(m.id) && '\n' !in m.id
    ensures BlockId(Record(m)) == Some(m.id)
    ensures Contains(Record(m), "Context (est.): " + IntToString(GetContextWindow(m.id)))
  {
    InfoRecordId(m.id, Fields(m));
    InfoRecordHas(m.id, Fields(m), 2);
  }
}
