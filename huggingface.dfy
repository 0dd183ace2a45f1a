/** models_huggingface.py: the text-generation filter over the Hugging Face
    listing, the "one model per base name, most downloaded" filter, and the
    three catalog files it writes. */
module HuggingFace {
  import opened Wrappers
  import opened Text
  import opened Sorting
  import opened Dedup
  import opened CatalogFiles
  import opened InfoBlocks
  import opened FetchCommon

  /** One listing entry: `id`, `modelId`, `pipeline_tag`, `downloads`,
      `likes`; `None` where the entry lacks the key. */
  datatype HfModel = HfModel(
    id: string, modelId: Option<string>, pipelineTag: Option<string>,
    downloads: Option<int>, likes: Option<int>)

  /** `m.get("pipeline_tag") == "text-generation"`. */
  predicate IsTextGeneration(m: HfModel) {
    m.pipelineTag == Some("text-generation")
  }

  /** `m.get("modelId", m.get("id"))`. */
  function ModelKey(m: HfModel): string {
    m.modelId.GetOr(m.id)
  }

  /** `base_name`: the last `/` segment of that id. */
  function BaseName(m: HfModel): string {
    var parts := Split(ModelKey(m), '/');
    parts[|parts| - 1]
  }

  /** `m.get("downloads", 0)`. */
  function Downloads(m: HfModel): int {
    m.downloads.GetOr(0)
  }

  predicate IntLess(a: int, b: int) {
    a < b
  }

  /** A model replaces the kept one only with strictly more downloads. */
  predicate MoreDownloads(a: HfModel, b: HfModel) {
    Downloads(b) < Downloads(a)
  }

  /** `filter_and_sort_models`: the comprehension keeps the text-generation
      models, then one model per base name is kept, the most downloaded one
      (the first among equals), in first-appearance order. */
  method FilterAndSortModels(models: seq<HfModel>) returns (kept: seq<HfModel>)
    ensures kept == Table(Keep(models, IsTextGeneration), BaseName, MoreDownloads).Values()
    ensures KeepsBestPerKey(Keep(models, IsTextGeneration), BaseName, MoreDownloads, kept)
  {
    var filtered := Keep(models, IsTextGeneration);
    kept := KeepBest(filtered, BaseName, MoreDownloads);
    DownloadsWeakOrder(filtered);
    BestPerKey(filtered, BaseName, MoreDownloads);
  }

  /** Comparing download counts is a strict weak order. */
  lemma DownloadsWeakOrder(xs: seq<HfModel>)
    ensures WeakOrderOn(xs, MoreDownloads)
  {
    assert StrictTotalOrder(IntLess);
    ByKeyWeakOrder(xs, Downloads, IntLess, MoreDownloads);
  }

  function Id(m: HfModel): string {
    m.id
  }

  /** The listing gives no window: every wnd line says `N/A`. */
  function Token(m: HfModel): string {
    "N/A"
  }

  /** `data/models_huggingface.txt`. */
  function ModelsFile(kept: seq<HfModel>): seq<string> {
    ModelsLines(kept, Id, Id)
  }

  /** `data/models_huggingface_wnd.txt`. */
  function WndFile(kept: seq<HfModel>): seq<string> {
    WndLines(kept, Id, Id, Token)
  }

  function Fields(m: HfModel): seq<string> {
    ["Pipeline: " + PyStr(m.pipelineTag), "Downloads: " + PyInt(m.downloads), "Likes: " + PyInt(m.likes)]
  }

  /** One block of `data/models_huggingface_info.txt`. */
  function Record(m: HfModel): string {
    InfoRecord(m.id, Fields(m))
  }

  /** `data/models_huggingface_info.txt`. */
  function InfoFile(kept: seq<HfModel>): string {
    var l := Listed(kept, Id);
    InfoText("HUGGINGFACE", seq(|l|, i requires 0 <= i < |l| => Record(l[i])))
  }

  // ---------------------------------------------------------------------
  // Properties

  /** A model survives the comprehension exactly when its pipeline tag is
      `text-generation`. */
  lemma FilterKeeps(models: seq<HfModel>, m: HfModel)
    ensures m in Keep(models, IsTextGeneration) <==> m in models && m.pipelineTag == Some("text-generation")
  {
    KeepMembers(models, IsTextGeneration, m);
  }

  /** `org/name` has base `name`, a name without `/` is its own base, and
      the `id` stands in when `modelId` is missing. */
  lemma BaseNameCases(m: HfModel, org: string, name: string)
    requires '/' !in org && '/' !in name
    ensures ModelKey(m) == org + "/" + name ==> BaseName(m) == name
    ensures ModelKey(m) == name ==> BaseName(m) == name
    ensures m.modelId.None? ==> ModelKey(m) == m.id
  {
    SlashFields(org, name);
    SplitNone(name, '/');
  }

  /** A written wnd line reads back as the id and `N/A`. */
  lemma WndLineReadBack(id: string)
    requires '|' !in id && id != [] && !IsSpace(id[0])
    ensures LineFields(WndLine(id, "N/A")) == Some((id, "N/A"))
  {
    assert '|' !in "N/A" && !IsSpace("N/A"[2]);
    LineFieldsOfWritten(id, "N/A");
  }

  /** Each info block opens with the model's id line, which models_ok reads
      back as the id, and holds the pipeline line models_ok filters on. */
  lemma RecordReadBack(m: HfModel)
    requires m.id != [] && Stripped(m.id) && '\n' !in m.id
    ensures BlockId(Record(m)) == Some(m.id)
    ensures Contains(Record(m), "Pipeline: " + PyStr(m.pipelineTag))
  {
    InfoRecordId(m.id, Fields(m));
    InfoRecordHas(m.id, Fields(m), 0);
  }
}
