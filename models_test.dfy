/** models_test.py: for each selected provider, probe every model of its
    models file with a minimal request and write the ones that answered as
    `id|window` lines, the window copied from the wnd file (`N/A` when it has
    none).

    The data directory arrives as a map from file name to lines (`None`
    when it does not exist), the environment as a map, and the live request
    of `test_gemini`, `test_openai_compatible` or the huggingface call as an
    oracle from (provider, model id, key) to whether it succeeded. */
module ModelsTest {
  import opened Wrappers
  import opened Text
  import opened CatalogFiles
  import opened Sorting

  // ---------------------------------------------------------------------
  // get_wnd_map

  /** `get_wnd_map`: it first checks the raw line for `|`, then splits the
      stripped line; the check changes nothing, so the dict is the one
      models_ok builds. */
  method GetWndMap(wndFile: Option<seq<string>>) returns (wnd: map<string, string>)
    ensures wnd == WndMapOfFile(wndFile)
  {
    wnd := map[];
    if wndFile.None? {
      return;
    }
    var lines := wndFile.value;
    for n := 0 to |lines|
      invariant wnd == WndMapOf(lines[..n])
    {
      WndMapSnoc(lines, n);
      if '|' in lines[n] {
        var parts := Split(Strip(lines[n]), '|');
        if |parts| >= 2 {
          wnd := wnd[parts[0] := parts[1]];
        }
      } else if '|' in Strip(lines[n]) {
        InStrip(lines[n], '|');
      }
    }
    assert lines[..|lines|] == lines;
  }

  // ---------------------------------------------------------------------
  // test_gemini: the URL

  const GeminiHost: string := "https://generativelanguage.googleapis.com"

  /** The model id as it goes into the URL: with a `models/` prefix, added
      only when missing. */
  function GeminiUrlId(id: string): (r: string)
    ensures StartsWith(r, "models/")
    ensures r == id || r == "models/" + id
  {
    if StartsWith(id, "models/") then id else "models/" + id
  }

  /** Prefixing twice is prefixing once. */
  lemma GeminiUrlIdIdempotent(id: string)
    ensures GeminiUrlId(GeminiUrlId(id)) == GeminiUrlId(id)
  {
  }

  /** An id that already has the prefix goes in unchanged; any other gets it. */
  lemma GeminiUrlIdKeeps(id: string)
    ensures StartsWith(id, "models/") <==> GeminiUrlId(id) == id
  {
    if !StartsWith(id, "models/") {
      assert |GeminiUrlId(id)| == |id| + 7;
    }
  }

  /** The part of the URL after the version. */
  function UrlTail(id: string, key: string): string {
    GeminiUrlId(id) + ":generateContent?key=" + key
  }

  /** `f"{base_url}/{model_id_for_url}:generateContent?key={api_key}"`. */
  function GeminiUrl(id: string, key: string): string {
    GeminiHost + ("/v1beta/" + UrlTail(id, key))
  }

  /** `url.replace("/v1beta/", "/v1/")`. */
  function FallbackUrl(url: string): string {
    ReplaceAll(url, "/v1beta/", "/v1/")
  }

  /** No `/v1beta/` starts inside the host. */
  lemma HostClean(rest: string)
    ensures forall i :: 0 <= i < |GeminiHost| ==> !StartsWith((GeminiHost + rest)[i..], "/v1beta/")
  {
    var s := GeminiHost + rest;
    forall i | 0 <= i < |GeminiHost| ensures !StartsWith(s[i..], "/v1beta/") {
      assert s[i] == GeminiHost[i];
      if i + 1 < |GeminiHost| {
        assert s[i + 1] == GeminiHost[i + 1];
      }
    }
  }

  /** The fallback is the same request on the `v1` API, provided the id and
      the key do not themselves contain `/v1beta/`. */
  lemma FallbackUrlOfGemini(id: string, key: string)
    requires !Contains(UrlTail(id, key), "/v1beta/")
    ensures FallbackUrl(GeminiUrl(id, key)) == GeminiHost + ("/v1/" + UrlTail(id, key))
  {
    var tail := UrlTail(id, key);
    var b := "/v1beta/" + tail;
    HostClean(b);
    ReplaceAfterClean(GeminiHost, b, "/v1beta/", "/v1/");
    assert b[..8] == "/v1beta/" && b[8..] == tail;
    ReplaceAbsent(tail, "/v1beta/", "/v1/");
  }

  // ---------------------------------------------------------------------
  // Provider selection

  const AllProviders: seq<string> := ["gemini", "groq", "mistral", "cerebras", "openrouter", "huggingface"]

  /** The providers to process, from the optional command-line argument
      (lower-cased): `None` when a non-empty argument names none of the six,
      which ends the script; all six without an argument or with an empty one. */
  function SelectedProviders(arg: Option<string>): (r: Option<seq<string>>)
    ensures r.Some? ==> forall p :: p in r.value ==> p in AllProviders
  {
    var target := match arg case Some(a) => Lower(a) case None => "";
    if target != "" then
      if target in AllProviders then Some([target]) else None
    else Some(AllProviders)
  }

  /** A named provider is run alone; an unknown one is rejected. */
  lemma SelectedNamed(a: string)
    requires Lower(a) != ""
    ensures Lower(a) in AllProviders ==> SelectedProviders(Some(a)) == Some([Lower(a)])
    ensures Lower(a) !in AllProviders ==> SelectedProviders(Some(a)).None?
  {
  }

  function Self(s: string): string { s }

  /** `sorted(providers)`. */
  function RunOrder(providers: seq<string>): seq<string> {
    SortBy(providers, Self, StrLess)
  }

  /** Providers run in ascending name order, each selected one once. */
  lemma RunOrderSorted(providers: seq<string>)
    ensures SortedBy(RunOrder(providers), Self, StrLess)
    ensures multiset(RunOrder(providers)) == multiset(providers)
  {
    StrLessOrder();
    SortBySorted(providers, Self, StrLess);
    SortByPermutes(providers, Self, StrLess);
  }

  // ---------------------------------------------------------------------
  // The test loop of main

  /** The providers `main` can send a request for: gemini, the four
      OpenAI-compatible endpoints and huggingface. */
  predicate HasTester(provider: string) {
    provider in {"gemini", "groq", "mistral", "cerebras", "openrouter", "huggingface"}
  }

  /** `f"{model_id}|{wnd}"` with `wnd_map.get(model_id, "N/A")`. */
  function TestOkLine(id: string, wnd: map<string, string>): string {
    id + "|" + WindowOf(wnd, id)
  }

  /** What one model contributes to `ok_models`. */
  function OkEntry(provider: string, id: string, wnd: map<string, string>, key: string,
                   probe: (string, string, string) -> bool): (e: Option<string>)
    ensures e.Some? <==> HasTester(provider) && probe(provider, id, key)
    ensures e.Some? ==> e.value == TestOkLine(id, wnd)
  {
    if HasTester(provider) && probe(provider, id, key) then Some(TestOkLine(id, wnd)) else None
  }

  function OkEntries(provider: string, models: seq<string>, wnd: map<string, string>, key: string,
                     probe: (string, string, string) -> bool): (r: seq<Option<string>>)
    ensures |r| == |models|
  {
    seq(|models|, i requires 0 <= i < |models| => OkEntry(provider, models[i], wnd, key, probe))
  }

  lemma OkEntriesAt(provider: string, models: seq<string>, wnd: map<string, string>, key: string,
                    probe: (string, string, string) -> bool, n: nat)
    requires n < |models|
    ensures OkEntries(provider, models, wnd, key, probe)[n] == OkEntry(provider, models[n], wnd, key, probe)
  {
  }

  /** `ok_models` of one provider. */
  function OkModels(provider: string, models: seq<string>, wnd: map<string, string>, key: string,
                    probe: (string, string, string) -> bool): (r: seq<string>)
    ensures |r| <= |models|
  {
    Somes(OkEntries(provider, models, wnd, key, probe))
  }

  /** One provider: `None` when skipped (no models file, no key), else its
      `ok_models`. */
  function ProviderRun(provider: string, env: map<string, string>, data: map<string, seq<string>>,
                       probe: (string, string, string) -> bool): Option<seq<string>>
  {
    var modelsFile := Lookup(data, ModelsFileName(provider));
    var key := ApiKeyFor(provider, env);
    if modelsFile.None? || key.None? then None
    else
      var models := NonBlankLines(modelsFile.value);
      var wnd := WndMapOfFile(Lookup(data, WndFileName(provider)));
      Some(OkModels(provider, models, wnd, key.value, probe))
  }

  /** The files written for `providers`, in order: `(provider, lines)` for
      each provider with at least one ok model. */
  function Written(providers: seq<string>, env: map<string, string>, data: map<string, seq<string>>,
                   probe: (string, string, string) -> bool): (r: seq<(string, seq<string>)>)
    ensures |r| <= |providers|
    decreases |providers|
  {
    if providers == [] then []
    else
      var before := Written(providers[..|providers| - 1], env, data, probe);
      var p := providers[|providers| - 1];
      match ProviderRun(p, env, data, probe)
      case Some(lines) => if lines != [] then before + [(p, lines)] else before
      case None => before
  }

  /** How `main` ends. */
  datatype TestRun = NoDataDir | UnknownProvider | Finished(written: seq<(string, seq<string>)>)

  function MainRun(arg: Option<string>, data: Option<map<string, seq<string>>>, env: map<string, string>,
                   probe: (string, string, string) -> bool): TestRun
  {
    if data.None? then NoDataDir
    else
      match SelectedProviders(arg)
      case None => UnknownProvider
      case Some(providers) => Finished(Written(RunOrder(providers), env, data.value, probe))
  }

  /** `main`. */
  method TestMain(arg: Option<string>, data: Option<map<string, seq<string>>>, env: map<string, string>,
                  probe: (string, string, string) -> bool) returns (run: TestRun)
    ensures run == MainRun(arg, data, env, probe)
  {
    if data.None? {
      return NoDataDir;
    }
    var selected := SelectedProviders(arg);
    if selected.None? {
      return UnknownProvider;
    }
    var written := TestProviders(RunOrder(selected.value), env, data.value, probe);
    return Finished(written);
  }

  /** The provider loop of `main`. */
  method TestProviders(providers: seq<string>, env: map<string, string>, data: map<string, seq<string>>,
                       probe: (string, string, string) -> bool) returns (written: seq<(string, seq<string>)>)
    ensures written == Written(providers, env, data, probe)
  {
    written := [];
    for n := 0 to |providers|
      invariant written == Written(providers[..n], env, data, probe)
    {
      var provider := providers[n];
      PrefixSnoc(providers, n);
      WrittenSnoc(providers[..n], provider, env, data, probe);
      var ok := TestProvider(provider, env, data, probe);
      if ok.Some? && ok.value != [] {
        written := written + [(provider, ok.value)];
      }
    }
    assert providers[..|providers|] == providers;
  }

  lemma WrittenSnoc(providers: seq<string>, p: string, env: map<string, string>,
                    data: map<string, seq<string>>, probe: (string, string, string) -> bool)
    ensures Written(providers + [p], env, data, probe) ==
      var before := Written(providers, env, data, probe);
      match ProviderRun(p, env, data, probe)
      case Some(lines) => if lines != [] then before + [(p, lines)] else before
      case None => before
  {
    assert (providers + [p])[..|providers|] == providers;
  }

  /** One pass of the provider loop. */
  method TestProvider(provider: string, env: map<string, string>, data: map<string, seq<string>>,
                      probe: (string, string, string) -> bool) returns (ok: Option<seq<string>>)
    ensures ok == ProviderRun(provider, env, data, probe)
  {
    var modelsFile := Lookup(data, ModelsFileName(provider));
    if modelsFile.None? {
      return None;
    }
    var apiKey := ApiKeyFor(provider, env);
    if apiKey.None? {
      return None;
    }
    var models := NonBlankLines(modelsFile.value);
    var wnd := GetWndMap(Lookup(data, WndFileName(provider)));
    var okModels := TestModels(provider, models, wnd, apiKey.value, probe);
    return Some(okModels);
  }

  /** The model loop: a model is kept when its request succeeded. */
  method TestModels(provider: string, models: seq<string>, wnd: map<string, string>, key: string,
                    probe: (string, string, string) -> bool) returns (okModels: seq<string>)
    ensures okModels == OkModels(provider, models, wnd, key, probe)
  {
    okModels := [];
    ghost var es := OkEntries(provider, models, wnd, key, probe);
    for n := 0 to |models|
      invariant okModels == Somes(es[..n])
    {
      var modelId := models[n];
      PrefixSnoc(es, n);
      SomesSnoc(es[..n], es[n]);
      OkEntriesAt(provider, models, wnd, key, probe, n);
      var success := false;
      if HasTester(provider) {
        success := probe(provider, modelId, key);
      }
      if success {
        var w := WindowOf(wnd, modelId);
        okModels := okModels + [modelId + "|" + w];
      }
    }
    assert es[..|models|] == es;
  }

  // ---------------------------------------------------------------------
  // Properties

  /** Every ok line is `id|wnd` of a model whose request succeeded. */
  lemma OkLineSource(provider: string, models: seq<string>, wnd: map<string, string>, key: string,
                     probe: (string, string, string) -> bool, i: nat) returns (j: nat)
    requires i < |OkModels(provider, models, wnd, key, probe)|
    ensures j < |models| && probe(provider, models[j], key)
    ensures OkModels(provider, models, wnd, key, probe)[i] == TestOkLine(models[j], wnd)
  {
    j := SomesSource(OkEntries(provider, models, wnd, key, probe), i);
    OkEntriesAt(provider, models, wnd, key, probe, j);
  }

  /** Every model whose request succeeded has its line. */
  lemma OkLineKept(provider: string, models: seq<string>, wnd: map<string, string>, key: string,
                   probe: (string, string, string) -> bool, j: nat)
    requires HasTester(provider) && j < |models| && probe(provider, models[j], key)
    ensures TestOkLine(models[j], wnd) in OkModels(provider, models, wnd, key, probe)
  {
    OkEntriesAt(provider, models, wnd, key, probe, j);
    SomesHas(OkEntries(provider, models, wnd, key, probe), j);
  }

  /** Ok lines keep the models-file order. */
  lemma OkLinesInFileOrder(provider: string, models: seq<string>, wnd: map<string, string>, key: string,
                           probe: (string, string, string) -> bool, i1: nat, i2: nat) returns (j1: nat, j2: nat)
    requires i1 < i2 < |OkModels(provider, models, wnd, key, probe)|
    ensures j1 < j2 < |models|
    ensures OkModels(provider, models, wnd, key, probe)[i1] == TestOkLine(models[j1], wnd)
    ensures OkModels(provider, models, wnd, key, probe)[i2] == TestOkLine(models[j2], wnd)
  {
    j1, j2 := SomesOrdered(OkEntries(provider, models, wnd, key, probe), i1, i2);
    OkEntriesAt(provider, models, wnd, key, probe, j1);
    OkEntriesAt(provider, models, wnd, key, probe, j2);
  }

  /** A model missing from the wnd file is written with `N/A`. */
  lemma OkLineWithoutWindow(id: string, wnd: map<string, string>)
    requires id !in wnd
    ensures TestOkLine(id, wnd) == id + "|N/A"
  {
  }

  /** A provider without a key is skipped. */
  lemma SkippedWithoutKey(provider: string, env: map<string, string>, data: map<string, seq<string>>,
                          probe: (string, string, string) -> bool)
    requires ApiKeyFor(provider, env).None?
    ensures ProviderRun(provider, env, data, probe).None?
  {
  }

  /** Every written file belongs to a run provider and holds its non-empty
      ok lines. */
  lemma {:induction false} WrittenSource(providers: seq<string>, env: map<string, string>,
                                        data: map<string, seq<string>>, probe: (string, string, string) -> bool, i: nat)
    returns (j: nat)
    requires i < |Written(providers, env, data, probe)|
    ensures var w := Written(providers, env, data, probe)[i];
      j < |providers| && w.0 == providers[j] && w.1 != [] && ProviderRun(providers[j], env, data, probe) == Some(w.1)
    decreases |providers|
  {
    var p := providers[..|providers| - 1];
    var before := Written(p, env, data, probe);
    if i < |before| {
      j := WrittenSource(p, env, data, probe, i);
      assert providers[j] == p[j];
    } else {
      j := |providers| - 1;
    }
  }

  /** An unknown provider name stops the script before any test. */
  lemma UnknownRejected(a: string, data: map<string, seq<string>>, env: map<string, string>,
                        probe: (string, string, string) -> bool)
    requires Lower(a) != "" && Lower(a) !in AllProviders
    ensures MainRun(Some(a), Some(data), env, probe) == UnknownProvider
  {
    SelectedNamed(a);
  }
}
