/** models_mistral.py: the chat-capability filter over the Mistral model
    list, the "one model per base name, newest dated version" filter with
    its `latest` override, and the three catalog files it writes. */
module Mistral {
  import opened Wrappers
  import opened Text
  import opened Dedup
  import opened WindowToken
  import opened InfoBlocks
  import opened FetchCommon

  /** One model of the SDK listing. `chatCapable` is whether it has
      capabilities whose `completion_chat` is truthy; the other attributes
      are `None` where the object lacks them. */
  datatype MistralModel = MistralModel(
    id: string, name: Option<string>, maxContextLength: Option<int>, chatCapable: bool)

  predicate IsChat(m: MistralModel) {
    m.chatCapable
  }

  /** `base_name`: the id without a trailing `-<digits>` part, when it has
      at least two `-` parts; the id itself otherwise. */
  function BaseName(m: MistralModel): string {
    DashSplit(m.id, true).0
  }

  /** `version`: `"999"` for any id containing `latest`, otherwise the
      trailing digit part, else `"000"`. */
  function Version(m: MistralModel): string {
    if Contains(m.id, "latest") then "999" else DashSplit(m.id, true).1
  }

  /** `filter_and_sort_models`: the append loop keeps the chat models, then
      one model per base name is kept, the one with the greatest version
      (the first among equals), in first-appearance order. */
  method FilterAndSortModels(models: seq<MistralModel>) returns (kept: seq<MistralModel>)
    ensures kept == Table(Keep(models, IsChat), BaseName, Newer(Version)).Values()
    ensures KeepsBestPerKey(Keep(models, IsChat), BaseName, Newer(Version), kept)
  {
    var filtered := FilterLoop(models, IsChat);
    kept := KeepBest(filtered, BaseName, Newer(Version));
    NewerWeakOrder(filtered, Version);
    BestPerKey(filtered, BaseName, Newer(Version));
  }

  function Id(m: MistralModel): string {
    m.id
  }

  /** `getattr(m, 'max_context_length', 0)` as a window token. */
  function Token(m: MistralModel): string {
    KLimit(m.maxContextLength.GetOr(0))
  }

  /** `data/models_mistral.txt`. */
  function ModelsFile(kept: seq<MistralModel>): seq<string> {
    ModelsLines(kept, Id, Id)
  }

  /** `data/models_mistral_wnd.txt`. */
  function WndFile(kept: seq<MistralModel>): seq<string> {
    WndLines(kept, Id, Id, Token)
  }

  /** The name and the context, each when the model has it. */
  function Fields(m: MistralModel): seq<string> {
    (if m.name.Some? then ["Nome: " + m.name.value] else [])
    + (if m.maxContextLength.Some? then ["Context: " + IntToString(m.maxContextLength.value)] else [])
  }

  /** One block of `data/models_mistral_info.txt`. */
  function Record(m: MistralModel): string {
    InfoRecord(m.id, Fields(m))
  }

  /** `data/models_mistral_info.txt`. */
  function InfoFile(kept: seq<MistralModel>): string {
    var l := Listed(kept, Id);
    InfoText("MISTRAL", seq(|l|, i requires 0 <= i < |l| => Record(l[i])))
  }

  // ---------------------------------------------------------------------
  // Properties

  /** A model survives the first loop exactly when it is chat capable. */
  lemma FilterKeeps(models: seq<MistralModel>, m: MistralModel)
    ensures m in Keep(models, IsChat) <==> m in models && m.chatCapable
  {
    KeepMembers(models, IsChat, m);
  }

  /** `<b>-<digits>` is version `<digits>` of base `<b>` unless the id says
      `latest`, which makes the version `"999"` whatever the digits; a
      dash-free id is its own base. */
  lemma BaseNameCases(b: string, d: string)
    requires AllDigits(d)
    ensures BaseName(MistralModel(b + "-" + d, None, None, true)) == b
    ensures Version(MistralModel(b + "-" + d, None, None, true)) ==
      if Contains(b + "-" + d, "latest") then "999" else d
    ensures '-' !in b ==> BaseName(MistralModel(b, None, None, true)) == b
    ensures '-' !in b && !Contains(b, "latest") ==> Version(MistralModel(b, None, None, true)) == "000"
  {
    DashSplitSuffix(b, d, true);
    if '-' !in b {
      if AllDigits(b) {
        DashSplitAllDigits(b);
      } else {
        DashSplitNoDash(b);
      }
    }
  }

  /** Two dated ids of one `latest` base both have version `"999"`, so
      neither replaces the other and the first listed stays, whatever the
      dates. */
  lemma LatestDatesTie(b: string, d1: string, d2: string)
    requires AllDigits(d1) && AllDigits(d2) && Contains(b, "latest")
    ensures var m1 := MistralModel(b + "-" + d1, None, None, true);
      var m2 := MistralModel(b + "-" + d2, None, None, true);
      BaseName(m1) == BaseName(m2) && !Newer(Version)(m2, m1) && !Newer(Version)(m1, m2)
  {
    var m1 := MistralModel(b + "-" + d1, None, None, true);
    var m2 := MistralModel(b + "-" + d2, None, None, true);
    DashSplitSuffix(b, d1, true);
    DashSplitSuffix(b, d2, true);
    ContainsPrefixOf(b, "-", d1, "latest");
    ContainsPrefixOf(b, "-", d2, "latest");
    assert Version(m1) == "999" && Version(m2) == "999";
    StrLessIrreflexive("999");
    assert Newer(Version)(m2, m1) == StrLess(Version(m1), Version(m2));
    assert Newer(Version)(m1, m2) == StrLess(Version(m2), Version(m1));
  }

  lemma ContainsPrefixOf(a: string, b: string, c: string, sub: string)
    requires Contains(a, sub)
    ensures Contains(a + b + c, sub)
  {
    var i := ContainsWitness(a, sub);
    assert (a + b + c)[i..i + |sub|] == a[i..i + |sub|];
    ContainsAt(a + b + c, sub, i);
  }

  /** Each info block opens with the model's id line, which models_ok reads
      back as the id. */
  lemma RecordId(m: MistralModel)
    requires m.id != [] && Stripped(m.id) && '\n' !in m.id
    ensures BlockId(Record(m)) == Some(m.id)
  {
    InfoRecordId(m.id, Fields(m));
  }
}
