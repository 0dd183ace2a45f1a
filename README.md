# LLM provider registry and model catalog pipeline

This project models a small Python toolkit that routes chat requests to
several LLM providers (Gemini, Groq, Mistral, Cerebras, OpenRouter,
Hugging Face). It models five parts of it.

- **Fetch scripts.** Six `models_<provider>.py` scripts take a provider's
  model list, keep the usable models, and keep one model per base name (the
  newest version, or the most downloaded one). They then write three catalog
  files:
  - `models_<p>.txt`, the model ids;
  - `models_<p>_wnd.txt`, lines `id|window` (the id, a bar, the window). Five
    scripts write the window as `<n // 1024>k` from 1024 tokens up and as the
    plain number below that; the Hugging Face script always writes `N/A`;
  - `models_<p>_info.txt`, one block of `Key: value` lines per model.
- **models_ok.py.** For one provider, it tests the chat-capable models listed
  in the catalog and saves the ones that answered, fastest first.
- **models_test.py.** It probes every catalog model of the selected providers
  and saves the ones that answered, in catalog order.
- **models_2json.py.** It turns a directory of `_wnd.txt` files into the
  `models.json` provider table.
- **llm_provider.py.** The `LlmProvider` class loads API keys from
  `api_keys.json`, loads the provider catalogs, opens one client per keyed
  provider, and holds the current (provider, model, window) selection.
  `groq_payload_converter.py` reduces an OpenAI-style request to the
  parameters Groq accepts.

## How the model is built

- **Pure code** is modelled as functions with lemmas: the filters, the window
  token, the parsers and the payload filter. Dicts become `OrderedMap.ODict`,
  an insertion-ordered map in which a repeated key keeps its first position,
  as in Python.
- **Loops** become methods proved equal to those functions: the dedup loop,
  the file-reading loops, the test loops and the directory loop.
- **`LlmProvider`** is a class with fields for its four attributes:
  - `apiKeys`, the loaded keys;
  - `providerConfig`, the loaded catalogs;
  - `clients`, the opened clients;
  - `config`, the current selection.

  Its methods are proved against the same functions, and its invariant
  `Valid()` is preserved:
  - every catalog has a model and carries its own name as its client;
  - every client sits under its provider's name and has a non-empty key.

## What the model shows

- **The three window parsers disagree by a factor of 1024.** This is lemma
  `WindowUnits.UnitMismatch`. models_ok reads `128k` as 131072 tokens.
  models_2json and the registry both read it as 128, that is, in units of
  1024 tokens.
- **The registry drops every `k`.** llm_provider.py lines 65-70 lower-case
  the token, remove each `k` and read the rest with `int()`. So `128k` reads
  as 128, and the groq line `llama3-8b-8192|8k` gives the window 8. See
  `LlmRegistry.ProviderWindowOfK` and `LlmRegistry.GroqCatalogExample`.

## Model

A function with no contract of its own is mapped through the lemmas about
it. The three window readers are `ModelsOk.OkWindow` (rows
`ModelsOk.OkWindowCases` and after), `ModelsToJson.ParseWindowSize` (rows
`ModelsToJson.ParseWindowSizeOf` and after) and `LlmRegistry.ProviderWindow`
(rows `LlmRegistry.ProviderWindowOfNumber` and after). `ModelsOk.ChatAccepts`
is covered by the `ModelsOk.Chat*` lemmas and `ModelsOk.MainOutcome` by
`ModelsOk.DoMain`, `ModelsOk.SavedLineSource`, `ModelsOk.SavedLineKept` and
`ModelsOk.SavedFastestFirst`. `ModelsTest.ProviderRun` and `ModelsTest.MainRun`
are covered by `ModelsTest.TestProvider`, `ModelsTest.TestMain` and the
`ModelsTest.OkLine*` lemmas. Each script's `BaseName`, `Version` and `Token`
are covered by its `BaseNameCases` and token lemmas.

| member | source | states |
|---|---|---|
| Payload.ConvertToGroqPayload | groq_payload_converter.py:44-48 | the result holds exactly the payload's entries whose name is a Groq parameter and whose value is not `None`, with their values unchanged |
| Payload.ConvertIdempotent | groq_payload_converter.py:27-49 | converting an already converted payload changes nothing |
| Payload.ConvertNothingSupported | groq_payload_converter.py:44-48 | a payload with no supported non-null entry (the empty one included) converts to the empty payload |
| Payload.ConvertKeepsClean | groq_payload_converter.py:44-48 | a payload of supported, non-null entries passes through unchanged |
| Payload.ConvertIgnoresUnsupported | groq_payload_converter.py:6-25 | adding or changing an unsupported parameter does not change what reaches Groq |
| WindowToken.KLimit | models_groq.py:90 | the token is non-empty and ends in `k` exactly when the limit is at least 1024; then its digits are those of `limit / 1024`, otherwise it parses back to the limit |
| WindowToken.KLimitShape | models_gemini.py:63 | the token is `<limit/1024>k` from 1024 up, the decimal below, and signed when negative |
| WindowToken.KLimitExamples | models_mistral.py:68 | 131072, 32768, 8192 and 1024 give `128k`, `32k`, `8k` and `1k`; 1023 and 0 stay `1023` and `0` |
| Dedup.Table | models_gemini.py:18-35 | the `latest_models` dict after the loop is a well-formed ordered dict |
| Dedup.KeepBest | models_cerebras.py:16-34 | the loop returns the dict's values; no more models than its input, only input models, no two with one base name |
| Dedup.FirstIndex | models_gemini.py:30-31 | the position of a key's first model: that model has the key and no earlier model does |
| Dedup.TableSnoc | models_cerebras.py:27-32 | one more model is one step of the loop: it is added under a new key, replaces the kept model when it beats it, and is otherwise ignored |
| Dedup.TableEntries | models_groq.py:32-37 | each entry is an input model filed under its own base name |
| Dedup.TableComplete | models_groq.py:32-33 | every input base name gets an entry |
| Dedup.TableOrder | models_openrouter.py:40-41 | keys are listed in the order of their first appearance, at most one per input model |
| Dedup.WinnerOf | models_openrouter.py:43-45 | under a strict weak order, the kept model of a key is its winner: it beats every earlier model of its key, and no later one beats it |
| Dedup.OutputKeys | models_openrouter.py:47 | the returned list is the dict's entries in key order, each under its own key |
| Dedup.OutputProperties | models_groq.py:39 | the output has only input models, distinct base names listed in first-appearance order, and no more models than the input |
| Dedup.OutputCovers | models_groq.py:32-39 | every input base name is represented in the output |
| Dedup.Representative | models_groq.py:32-39 | for each input model, the position of the output model with its base name |
| Dedup.KeptAreWinners | models_mistral.py:37-44 | under a strict weak order, every kept model is the winner of its key |
| Dedup.ByKeyWeakOrder | models_mistral.py:41 | "strictly greater version" under a strict total order is a strict weak order on models |
| Dedup.BestPerKey | models_huggingface.py:20-31 | `KeepsBestPerKey`: only input models, distinct keys, every key kept, each kept model the winner |
| Dedup.DistinctKeysKeepAll | models_cerebras.py:16-34 | when no two models share a base name, every model is kept, in input order |
| FetchCommon.NewerWeakOrder | models_gemini.py:34 | `version > current_version` is a strict weak order on models |
| FetchCommon.DashSplit | models_cerebras.py:19-25 | the version is `000` or all digits |
| FetchCommon.DashSplitJoins | models_cerebras.py:20-22 | with a digit suffix, base, dash and version spell the id back |
| FetchCommon.DashSplitSuffix | models_mistral.py:27-29 | `<b>-<digits>` splits into base `b` and version `digits` |
| FetchCommon.DashSplitNoDash | models_mistral.py:30-32 | an id without a dash that is not all digits is its own base, with version `000` |
| FetchCommon.DashSplitAllDigits | models_gemini.py:23-25 | an all-digit id without a dash stays whole under the two-part guard but becomes version of base `""` without it |
| FetchCommon.Listed | models_gemini.py:54 | the listing has one entry per kept model |
| FetchCommon.ListedProperties | models_groq.py:83 | the listing is sorted by its key and is a permutation of the kept models |
| FetchCommon.ModelsLines | models_groq.py:82-84 | one line per kept model |
| FetchCommon.WndLines | models_groq.py:87-91 | one wnd line per kept model |
| FetchCommon.KLimitClean | models_openrouter.py:76 | a window token has no bar and does not end in whitespace |
| FetchCommon.WndLineReadBack | models_ok.py:41-45 | a written wnd line reads back, as models_ok and models_test parse it, as its id and token |
| FetchCommon.Keep | models_mistral.py:16-20 | the kept models all pass, and there are no more of them than inputs |
| FetchCommon.KeepMembers | models_openrouter.py:17-27 | a model is kept exactly when it is an input model that passes the filter |
| FetchCommon.KeepAll | models_groq.py:19 | nothing is dropped when every model passes |
| FetchCommon.FilterLoop | models_openrouter.py:17-27 | the append loop returns the filtered list |
| FetchCommon.ProviderSplit | models_openrouter.py:32-38 | the version is `000` or holds no `:` |
| FetchCommon.SlashFields | models_groq.py:24 | `p/q` splits into `p` and `q` |
| FetchCommon.ColonFields | models_groq.py:28 | `b:v` splits into `b` and `v` |
| FetchCommon.ProviderSplitTagged | models_openrouter.py:36-38 | `p/b:v` gives base `p/b` and version `v` |
| FetchCommon.ProviderSplitUntagged | models_groq.py:28-30 | `p/b` gives base `p/b` and version `000` |
| FetchCommon.ProviderSplitNoSlashTagged | models_groq.py:25-30 | an id `b:v` without `/` is also taken as the provider: base `b:v/b`, version `v` |
| FetchCommon.ProviderSplitPlain | models_groq.py:25-29 | a plain id `b` gives base `b/b` |
| FetchCommon.ProviderSplitEmptyProvider | models_groq.py:29 | an id `/b` gives base `b` for groq, which drops an empty provider, and `/b` for openrouter |
| FetchCommon.Repeat | models_groq.py:101 | a run of `n` copies of one character |
| FetchCommon.InfoRecordStarts | models_groq.py:98-101 | a record is its id line, its field lines and the dashed line |
| FetchCommon.InfoRecordId | models_groq.py:98 | models_ok reads the record's id back from its first line |
| FetchCommon.LinesContain | models_groq.py:94-101 | every written line occurs in the file text |
| FetchCommon.InfoRecordHas | models_groq.py:99-100 | a record holds each of its field lines |
| Groq.FilterAndSortModels | models_groq.py:11-39 | every model passes; the result is the dedup loop's output by `provider/name` and `:` version, and keeps the best model of each base |
| Groq.BaseNameCases | models_groq.py:23-30 | base and version of `p/b:v`, `p/b`, a plain id and an id with an empty provider |
| Groq.PlainIdsAllKept | models_groq.py:57-68 | distinct ids without `/` or `:` are all kept, in order |
| Groq.AvailableIdsDistinct | models_groq.py:57-68 | the built-in model ids are distinct |
| Groq.DoubledInjective | models_groq.py:29 | distinct plain ids give distinct bases `id/id` |
| Groq.AvailableTokens | models_groq.py:89-90 | the window tokens of the built-in models are `8k`, `32k` or `128k`, as their context lengths give |
| Groq.RecordId | models_groq.py:98 | an info block reads back as its model id |
| OpenRouter.FilterAndSortModels | models_openrouter.py:10-47 | the result is the dedup loop's output over the free text models, and keeps the best of each base |
| OpenRouter.FilterKeeps | models_openrouter.py:19-27 | a model passes exactly when its modality contains and ends with `text` and both prices are present and zero |
| OpenRouter.EndsWithText | models_openrouter.py:21 | ending with `text` implies containing it |
| OpenRouter.BaseNameCases | models_openrouter.py:30-38 | base and version of `p/b:v`, `p/b`, a plain id and an id starting with `/` |
| OpenRouter.FreeTagBeatsUntagged | models_openrouter.py:40-45 | `p/b:free` shares its base with `p/b` and replaces it, since `free` > `000` |
| OpenRouter.FreeTag | models_openrouter.py:36-38 | `p/b:free` has base `p/b` and version `free` |
| OpenRouter.FreeAfterUntagged | models_openrouter.py:44 | `000` compares below `free` |
| OpenRouter.RecordReadBack | models_openrouter.py:84-87 | an info block reads back as its id and holds its `Modality:` line |
| Cerebras.FilterAndSortModels | models_cerebras.py:10-34 | every model is a candidate; the result is the dedup loop's output by dash base and digit version |
| Cerebras.GetContextWindow | models_cerebras.py:54-59 | the window is 131072 exactly for Llama 3.1 and 3.3 ids, else 8192 |
| Cerebras.BaseNameCases | models_cerebras.py:19-25 | `b-<digits>` has base `b` and that version; an id without a dash is its own base with `000` |
| Cerebras.TokenIs | models_cerebras.py:67-72 | the written token is `128k` for Llama 3.1 and 3.3 ids and `8k` otherwise |
| Cerebras.RecordReadBack | models_cerebras.py:78-84 | an info block reads back as its id and holds the estimated context line |
| Gemini.FilterAndSortModels | models_gemini.py:10-37 | the result is the dedup loop's output over the `generateContent` models, and keeps the newest of each base |
| Gemini.FilterKeeps | models_gemini.py:16 | a model passes exactly when `generateContent` is among its actions |
| Gemini.CleanNameOf | models_gemini.py:20 | `models/x` has clean name `x` |
| Gemini.BaseNameCases | models_gemini.py:20-28 | `b-<digits>` has base `b`; a dashless non-digit name is its own base with `000`; an all-digit name has base `""` |
| Gemini.ListedByCleanName | models_gemini.py:54-56 | sorting by the raw name sorts by the clean name when all names carry the prefix |
| Gemini.ClassicName | models_gemini.py:55 | a prefixed name is the prefix followed by its clean name |
| Gemini.RecordId | models_gemini.py:70-77 | an info block reads back as its clean name |
| HuggingFace.FilterAndSortModels | models_huggingface.py:10-31 | the result is the dedup loop's output over the text-generation models, and keeps the most downloaded of each base |
| HuggingFace.DownloadsWeakOrder | models_huggingface.py:28 | "more downloads", a missing count read as 0, is a strict weak order |
| HuggingFace.FilterKeeps | models_huggingface.py:18 | a model passes exactly when its pipeline tag is `text-generation` |
| HuggingFace.BaseNameCases | models_huggingface.py:22-23 | the base is the last `/` field of `modelId`, falling back to `id` |
| HuggingFace.WndLineReadBack | models_huggingface.py:62-65 | a written line of the id, a bar and `N/A` reads back as its id and `N/A` |
| HuggingFace.RecordReadBack | models_huggingface.py:71-76 | an info block reads back as its id and holds its `Pipeline:` line |
| Mistral.FilterAndSortModels | models_mistral.py:10-44 | the result is the dedup loop's output over the chat-capable models, and keeps the newest of each base |
| Mistral.FilterKeeps | models_mistral.py:16-20 | a model passes exactly when it can chat |
| Mistral.BaseNameCases | models_mistral.py:24-35 | `b-<digits>` has base `b` and that version, or `999` when the id mentions `latest`; a dashless id is its own base |
| Mistral.LatestDatesTie | models_mistral.py:34-42 | two dated `latest` ids of one base tie at `999`, so the first one is kept |
| Mistral.RecordId | models_mistral.py:75-79 | an info block reads back as its id |
| InfoBlocks.FirstIdLine | models_ok.py:86-87 | the first line whose stripped text starts with `ID:` |
| InfoBlocks.BeforeFirstIdLine | models_ok.py:86-87 | no earlier line is an id line |
| InfoBlocks.BlockId | models_ok.py:84-89 | a block's id, when there is one, is non-empty and has no surrounding whitespace |
| InfoBlocks.BlockIdOfWritten | models_ok.py:84-89 | a block written as `ID: <id>` followed by more lines gives that id |
| InfoBlocks.BlockIdOfFirstLine | models_ok.py:85-89 | when the first line is an id line, the id is the stripped text after its first `ID:` |
| CatalogFiles.NonBlankLines | models_ok.py:34 | the ids are the stripped non-blank lines, no more of them than lines |
| CatalogFiles.NonBlankLinesMembers | models_test.py:119 | a string is read as an id exactly when it is the stripped form of a non-blank line |
| CatalogFiles.LineFields | models_ok.py:42-45 | a line has fields exactly when its stripped text contains a bar; they are its first two bar-separated fields |
| CatalogFiles.Lookup | models_ok.py:28-31 | a file is found exactly when it exists, and then it is that file's lines; `os.getenv` on line 234 is the same lookup: a variable is found exactly when it is set |
| CatalogFiles.WindowOf | models_ok.py:50 | the map's window for the id, else `N/A` |
| CatalogFiles.WndMapFromLine | models_ok.py:41-45 | an id is in `wnd_map` only if some line names it |
| CatalogFiles.WndMapHasLine | models_test.py:20-25 | every id a line names is in `wnd_map` |
| CatalogFiles.WndMapLastWins | models_ok.py:45 | the window kept for an id is the one on its last line |
| CatalogFiles.ReadWndMap | models_ok.py:39-45 | the read loop yields `wnd_map` of the lines |
| CatalogFiles.LineFieldsOfWritten | models_test.py:21-25 | a line written as the id, a bar and `w` reads back as `(id, w)` |
| CatalogFiles.DictOf | models_2json.py:48-50 | a dict filled in order is well formed and maps each key to its last entry's value |
| CatalogFiles.EnvVarNames | models_ok.py:233 | the variable names of openrouter and huggingface |
| CatalogFiles.ApiKeyFor | models_ok.py:233-243 | a key, when found, is non-empty |
| CatalogFiles.ApiKeyOwnWins | models_test.py:105-111 | a set provider variable is always the key |
| CatalogFiles.ApiKeyNoFallback | models_ok.py:233-241 | other providers use only their own variable |
| CatalogFiles.ApiKeyOpenRouter | models_ok.py:235-237 | openrouter falls back to `OPENROUTER_API_KEY`, then `OPENAI_API_KEY` |
| CatalogFiles.ApiKeyHuggingFace | models_ok.py:238-239 | huggingface falls back to `HF_TOKEN` |
| ModelsOk.OkWindowCases | models_ok.py:52-58 | a number `int()` reads is itself; a token ending in `k` or `K` reads as 1024 times the number before it, or 0; anything else reads as 0 |
| ModelsOk.OkWindowOfNA | models_ok.py:50-58 | `N/A`, the stand-in for a missing wnd line, reads as 0 |
| ModelsOk.OkWindowOfPadded | models_ok.py:53-54 | a space after the bar and an upper-case `K` are accepted: ` 128K` reads as 131072 |
| Text.IntValueOfPadded | models_ok.py:54-56 | `int()` ignores the whitespace around a number |
| Text.IntValueOfPlus | models_ok.py:54-56 | `int()` reads a leading plus sign |
| Text.IntValueOfInnerSpace | models_ok.py:54-56 | a space inside the number makes `int()` fail |
| ModelsOk.SpecsFor | models_ok.py:23-62 | no specs without a models file; otherwise one per non-blank line |
| ModelsOk.SpecsOf | models_ok.py:48-60 | one spec per id |
| ModelsOk.SpecsForAt | models_ok.py:49-60 | the i-th spec is the i-th id with its window read from `wnd_map`, or from `N/A` |
| ModelsOk.GetModelSpecs | models_ok.py:23-62 | the method builds `SpecsFor` of the two files |
| ModelsOk.BuildSpecs | models_ok.py:48-60 | the loop builds `SpecsOf` |
| ModelsOk.SpecWithoutWindow | models_ok.py:50-58 | a model with no wnd line gets window 0 |
| ModelsOk.BlockChatId | models_ok.py:79-108 | an id is contributed only when it is the block's id and passes the provider's chat rule |
| ModelsOk.ChatIds | models_ok.py:75-108 | no more ids than blocks |
| ModelsOk.InfoEntry | models_ok.py:72-111 | a file contributes its provider name and a non-empty list, or nothing |
| ModelsOk.InfoEntryIs | models_ok.py:110-111 | a file contributes exactly when its list is non-empty |
| ModelsOk.GetChatCapableModels | models_ok.py:65-113 | the loops build `ChatModelsOf` of the info files |
| ModelsOk.ReadInfoFile | models_ok.py:73-111 | one pass of the outer loop |
| ModelsOk.CollectChatIds | models_ok.py:78-108 | the block loop collects `ChatIds` |
| ModelsOk.ChatIdSource | models_ok.py:91-108 | every collected id comes from a block that announces it and passes the rule |
| ModelsOk.ChatIdClean | models_ok.py:89-92 | every collected id is non-empty and stripped |
| ModelsOk.ChatIdKept | models_ok.py:94-108 | every block with an id that passes the rule contributes it |
| ModelsOk.ChatKeepsAll | models_ok.py:101-102 | groq and cerebras keep every id |
| ModelsOk.ChatGeminiDrops | models_ok.py:103-105 | gemini never keeps an id mentioning image, tts or robotics, in any letter case |
| ModelsOk.ChatMistralDrops | models_ok.py:106-108 | mistral never keeps an id mentioning pixtral or voxtral, in any letter case |
| ModelsOk.ChatNeedsTag | models_ok.py:94-99 | huggingface keeps only text-generation blocks; openrouter keeps only text or text+image to text blocks |
| ModelsOk.ChatUnknownEmpty | models_ok.py:100-108 | any other provider keeps nothing |
| ModelsOk.ChatModelsFromFile | models_ok.py:110-111 | a provider is listed only if one of its info files gave ids |
| ModelsOk.ChatModelsHasFile | models_ok.py:110-111 | every info file that gave ids lists its provider |
| ModelsOk.ChatModelsLastWins | models_ok.py:72-111 | a provider's list is that of its last info file that gave ids |
| ModelsOk.Successful | models_ok.py:224 | no more successful tuples than tested ones |
| ModelsOk.SuccessfulMembers | models_ok.py:224 | a tuple is successful exactly when it was tested and its flag is set |
| ModelsOk.FilterAndSortModels | models_ok.py:222-226 | no more results than tested tuples |
| ModelsOk.FilterAndSortProperties | models_ok.py:222-226 | the result is sorted by response time and is a permutation of the successful tuples |
| ModelsOk.FilterAndSortStable | models_ok.py:225 | models with the same response time keep their input order |
| ModelsOk.Record | models_ok.py:271-278 | the tuple keeps id and window; it succeeded exactly when the probe succeeded with a valid answer, with the probe's time, and failed with 999.0 otherwise |
| ModelsOk.ShortError | models_ok.py:276-277 | an error of up to 30 characters is shown whole; a longer one as its first 30 characters and `..`; it is the text of the `FAILED (...)` progress line, whose printing is left out |
| ModelsOk.ChatSpecs | models_ok.py:253-254 | no more specs than read |
| ModelsOk.ChatSpecsMembers | models_ok.py:253-254 | a spec is tested exactly when it is read and its id is chat-capable |
| ModelsOk.TestAll | models_ok.py:264-280 | one result per model to test |
| ModelsOk.OkLines | models_ok.py:297-299 | one line per best model |
| ModelsOk.DoMain | models_ok.py:229-304 | the outcome is `MainOutcome`, and success is returned exactly when lines are saved |
| ModelsOk.ProbeAll | models_ok.py:264-280 | the test loop builds `TestAll` |
| ModelsOk.WriteLines | models_ok.py:297-299 | the write loop builds `OkLines` |
| ModelsOk.MainNeedsKey | models_ok.py:241-243 | the run stops for lack of a key exactly when no key is found |
| ModelsOk.BestSource | models_ok.py:265-282 | every best model was tested, its probe succeeded with a valid answer, and its tuple is its record |
| ModelsOk.SavedLineSource | models_ok.py:245-299 | each saved line is the id, a bar and the window of a tested model that is chat-capable for the provider, read from its catalog, whose probe succeeded |
| ModelsOk.SavedLineKept | models_ok.py:245-299 | every chat-capable model of the provider read from its catalog whose probe succeeded with a valid answer is saved, as its id, a bar and its window |
| ModelsOk.SavedFastestFirst | models_ok.py:282-299 | saved lines come in non-decreasing order of response time |
| ModelsOk.OkWindowOfSaved | models_ok.py:299 | models_ok reads a window it saved back unchanged |
| ModelsTest.GetWndMap | models_test.py:14-26 | the method builds `wnd_map` of the file, empty without a file |
| ModelsTest.GeminiUrlId | models_test.py:34-37 | the URL id starts with `models/` and is the id or the id with the prefix added |
| ModelsTest.GeminiUrlIdIdempotent | models_test.py:34-37 | adding the prefix twice is adding it once |
| ModelsTest.GeminiUrlIdKeeps | models_test.py:34-37 | an id is kept unchanged exactly when it already has the prefix |
| ModelsTest.HostClean | models_test.py:31 | no `/v1beta/` starts inside the host |
| ModelsTest.FallbackUrlOfGemini | models_test.py:46 | the fallback URL is the same request on the `v1` API when id and key hold no `/v1beta/` |
| ModelsTest.SelectedProviders | models_test.py:77-89 | the selected providers are known ones |
| ModelsTest.SelectedNamed | models_test.py:80-87 | a named known provider runs alone; an unknown one is rejected |
| ModelsTest.RunOrderSorted | models_test.py:98 | providers run in sorted order, each selected one once |
| ModelsTest.OkEntry | models_test.py:127-153 | a model contributes exactly when its provider has a tester and the request succeeded; its line is the id, a bar and its `wnd` |
| ModelsTest.OkModels | models_test.py:125-153 | no more ok lines than models |
| ModelsTest.Written | models_test.py:98-168 | no more written files than providers |
| ModelsTest.TestMain | models_test.py:69-168 | `main` ends as `MainRun` says |
| ModelsTest.TestProviders | models_test.py:98-168 | the provider loop builds `Written` |
| ModelsTest.TestProvider | models_test.py:99-168 | one pass of the provider loop is `ProviderRun` |
| ModelsTest.TestModels | models_test.py:127-156 | the model loop builds `OkModels` |
| ModelsTest.OkLineSource | models_test.py:148-151 | every ok line is the id, a bar and its `wnd` of a model whose request succeeded |
| ModelsTest.OkLineKept | models_test.py:131-151 | every model whose request succeeded has its line |
| ModelsTest.OkLinesInFileOrder | models_test.py:127-151 | ok lines keep the models-file order |
| ModelsTest.OkLineWithoutWindow | models_test.py:150 | a model missing from the wnd file is written with `N/A` |
| ModelsTest.SkippedWithoutKey | models_test.py:113-115 | a provider without a key writes nothing |
| ModelsTest.WrittenSource | models_test.py:158-164 | every written file belongs to a run provider and holds its non-empty ok lines |
| ModelsTest.UnknownRejected | models_test.py:82-86 | an unknown provider name stops the script before any test |
| ModelsToJson.FirstDigit | models_2json.py:10 | the position of the first digit |
| ModelsToJson.DigitRun | models_2json.py:10 | the length of the maximal digit run at the start |
| ModelsToJson.DigitSearch | models_2json.py:10-13 | a match is all digits |
| ModelsToJson.ParseWindowSizeOf | models_2json.py:8-13 | text without digits, then digits, then a non-digit reads as the value of those digits |
| ModelsToJson.ParseWindowSize128k | models_2json.py:9 | `128k` reads as 128 |
| ModelsToJson.ParseWindowSizeNA | models_2json.py:13 | `N/A` reads as 0 |
| ModelsToJson.ParseWindowSize1point5k | models_2json.py:10-12 | `1.5k` reads as 1 |
| ModelsToJson.JsonLine | models_2json.py:41-46 | a line counts exactly when its stripped text holds a bar; the model name holds no bar |
| ModelsToJson.JsonLineSplit | models_2json.py:45-46 | the line splits at its first bar, and the window is parsed from the rest |
| ModelsToJson.JsonLineOfWritten | models_2json.py:41-46 | a written line of the id, a bar and the token reads as the id and the token's parsed size |
| ModelsToJson.FileEntry | models_2json.py:28-50 | a listed file makes an entry exactly when its name ends in `_wnd.txt`; the client is the provider key and the models are those of its lines |
| ModelsToJson.BuildProviderConfig | models_2json.py:25-52 | the directory loop builds `ConfigOf` |
| ModelsToJson.ReadModels | models_2json.py:39-50 | the line loop builds `ModelsOf` |
| ModelsToJson.ConfigFromFile | models_2json.py:28-35 | only `_wnd.txt` files make entries, named by their file name without the suffix |
| ModelsToJson.ConfigHasFile | models_2json.py:32-35 | every `_wnd.txt` file makes an entry, even one without usable lines |
| ModelsToJson.ConfigLastFileWins | models_2json.py:32-35 | a provider's entry comes from its last file |
| ModelsToJson.ModelFromLine | models_2json.py:48-50 | a model is listed only if a line names it |
| ModelsToJson.ModelLastLineWins | models_2json.py:48-50 | a later line for a model overwrites its window |
| ModelsToJson.ModelsOfUnusable | models_2json.py:42-43 | a file without a line holding a bar gives an empty models dict |
| ModelsToJson.ProviderKeyExample | models_2json.py:29 | `models_groq_wnd.txt` gives the key `models_groq` |
| WindowUnits.OkReadsToken | models_ok.py:53-56 | models_ok reads a written token back as the limit rounded down to a multiple of 1024, small limits exactly |
| WindowUnits.JsonReadsToken | models_2json.py:8-13 | models_2json reads a written token as the number of 1024-token units, small limits exactly |
| WindowUnits.RegistryReadsToken | llm_provider.py:66-70 | the registry reads a written token as models_2json does |
| WindowUnits.UnitMismatch | llm_provider.py:65-70 | from 1024 tokens up, the models_ok window is 1024 times the registry's and the export's; below that all three agree |
| WindowUnits.NotAvailableIsZero | models_ok.py:56-58 | all three readers read `N/A` as 0 |
| LlmRegistry.FieldValue | llm_provider.py:37-40 | `get` gives a value exactly when the member is a string |
| LlmRegistry.MatchIndex | llm_provider.py:38-41 | the first entry whose name equals the exported key name, and none before it |
| LlmRegistry.ResolveProvider | llm_provider.py:36-43 | a provider's turn adds at most its own key and changes no other provider's |
| LlmRegistry.ResolveAll | llm_provider.py:32-45 | loading never removes a key |
| LlmRegistry.ResolveAllFrom | llm_provider.py:36-45 | one turn of the provider loop, stopping at the first failure |
| LlmRegistry.CatalogLine | llm_provider.py:60-64 | a line contributes exactly when its stripped text holds a bar |
| LlmRegistry.FileEntry | llm_provider.py:52-77 | a file contributes exactly when it has a usable line; then the provider named by the file, with itself as client |
| LlmRegistry.PutEntries | llm_provider.py:73-77 | adding entries keeps the dict well formed |
| LlmRegistry.PutEntriesVals | llm_provider.py:73-77 | later entries override what the dict held |
| LlmRegistry.CatalogOf | llm_provider.py:47-79 | loading catalogs keeps every provider with a model and its own client name |
| LlmRegistry.PutEntriesOk | llm_provider.py:73-77 | entries a file can make preserve that invariant |
| LlmRegistry.LookupKey | llm_provider.py:94 | a found key is the stored one |
| LlmRegistry.ClientKey | llm_provider.py:94-98 | a client key is non-empty |
| LlmRegistry.AddClients | llm_provider.py:93-99 | a client exists exactly when it existed or a known provider has a key, and a new one holds that key |
| LlmRegistry.Select | llm_provider.py:101-110 | a selection exists exactly when provider and model are loaded, and carries their window and client |
| LlmRegistry.DefaultSelection | llm_provider.py:25-29 | no selection without catalogs; otherwise the first provider's first model, which `set_config` accepts |
| LlmRegistry.LlmProvider.constructor | llm_provider.py:11-29 | keys, catalogs and clients are loaded from empty tables, the default is selected, and the invariant holds |
| LlmRegistry.LlmProvider.LoadApiKeys | llm_provider.py:31-45 | the loop ends with `KeysOf` of the credentials, and nothing else changes |
| LlmRegistry.LlmProvider.LoadProviderKey | llm_provider.py:37-43 | a turn succeeds exactly when `ResolveProvider` does, and then stores its keys |
| LlmRegistry.LlmProvider.LoadProviderConfig | llm_provider.py:47-79 | the loop ends with `CatalogOf` and keeps the catalog invariant |
| LlmRegistry.LlmProvider.ReadCatalog | llm_provider.py:56-71 | the line loop builds `CatalogModels` |
| LlmRegistry.LlmProvider.InitClients | llm_provider.py:81-99 | the loop ends with `ClientsOf` the keys |
| LlmRegistry.LlmProvider.OpenClient | llm_provider.py:94-99 | one turn opens a client exactly when `ClientKey` gives a key |
| LlmRegistry.LlmProvider.SetConfig | llm_provider.py:101-110 | success exactly when the selection exists, which then replaces the config; otherwise nothing changes |
| LlmRegistry.LlmProvider.GetClient | llm_provider.py:112-115 | the named client, or the selection's, when it exists; under the invariant it is that provider's, with a non-empty key |
| LlmRegistry.LlmProvider.GetConfig | llm_provider.py:117-118 | the current selection |
| LlmRegistry.LlmProvider.GetProviderConfig | llm_provider.py:120-121 | the loaded catalogs |
| LlmRegistry.LlmProvider.Reload | llm_provider.py:123-130 | keys and catalogs are read afresh, clients are added to the old ones, the selection is kept, the invariant holds, and the result is true |
| LlmRegistry.AddClientsSnoc | llm_provider.py:93-99 | one more provider is one turn of the loop |
| LlmRegistry.ResolveFirstMatch | llm_provider.py:38-41 | the first entry named by `exported_key` gives the key |
| LlmRegistry.ResolveFallback | llm_provider.py:42-43 | without a match, a provider not yet keyed gets its first entry's key |
| LlmRegistry.ResolveNoEntries | llm_provider.py:42 | an empty key list gives no key |
| LlmRegistry.ResolveFails | llm_provider.py:42-45 | a turn fails exactly when nothing matches, the provider has no key yet, and its first entry lacks `key` |
| LlmRegistry.ResolveAllComplete | llm_provider.py:36-43 | when no turn fails, the keys are those after the last provider |
| LlmRegistry.ResolveAllStops | llm_provider.py:44-45 | a failing turn ends the loading with the keys of the providers before it |
| LlmRegistry.ResolveExamples | llm_provider.py:37-43 | the entry named by `exported_key` wins; an unknown name falls back to the first entry |
| LlmRegistry.CatalogFromFile | llm_provider.py:73-77 | a loaded provider comes from a file of its name with a usable line |
| LlmRegistry.CatalogLastFileWins | llm_provider.py:73-77 | a provider's entry is read from its last usable file |
| LlmRegistry.UnusableFile | llm_provider.py:73 | a file without a usable line adds nothing |
| LlmRegistry.CatalogModelFromLine | llm_provider.py:71 | every model is named by one of its lines |
| LlmRegistry.CatalogLastLineWins | llm_provider.py:71 | a later line for a model overwrites its window |
| LlmRegistry.ProviderNameOf | llm_provider.py:54 | `models_<p>_wnd.txt` names provider `p` |
| LlmRegistry.OneCatalogDefault | llm_provider.py:25-29 | a lone catalog of two `k` lines selects its first model with the number before the `k` |
| LlmRegistry.GroqCatalogExample | llm_provider.py:25-29 | the groq catalog line `llama3-8b-8192` bar `8k` selects window 8 |
| LlmRegistry.WrittenCatalogLine | llm_provider.py:60-70 | a line of a model, a bar and `<n>k` gives the model with window `n` |
| LlmRegistry.TwoModels | llm_provider.py:71 | two different models keep their order and values |
| LlmRegistry.ProviderWindowOfNumber | llm_provider.py:66-68 | a plain number reads as itself |
| LlmRegistry.ProviderWindowOfK | llm_provider.py:65-68 | `<n>k` reads as `n` |
| LlmRegistry.ProviderWindowOfNA | llm_provider.py:69-70 | `N/A` reads as 0 |
| LlmRegistry.OpenRouterKey | llm_provider.py:83-96 | openrouter uses its own key, else the openai one |
| LlmRegistry.OwnKey | llm_provider.py:94-98 | every other provider needs a non-empty key of its own |
| LlmRegistry.NoCerebrasClient | llm_provider.py:85-91 | cerebras never gets a client |

The modules `Text`, `OrderedMap`, `Sorting` and `Wrappers` are helpers:
- `Text` models Python string operations on `seq<char>`;
- `OrderedMap` is an insertion-ordered dict;
- `Sorting` is a stable insertion sort, standing for `sorted(key=...)`;
- `Wrappers` holds `Option`.

## Left out

- Network calls are left out: the provider list APIs, `requests.post` in the
  test scripts, and `groq_client.py`. Probes are a function parameter
  (`probe`), and fetched model lists are inputs.
- File and directory I/O is left out. A file is its sequence of lines, a
  directory is a map from names to files, and listings arrive in a given
  order, since glob and listdir order is not specified.
- A read exception for one file inside a loop is left out: the model assumes
  every listed file can be read.
- `api_keys.json` is either missing or unreadable (`None`) or a list of
  providers in file order. JSON values of the wrong shape are left out, such
  as `keys` that is not a list or a provider that is not an object.
- Python `int()` is modelled on ASCII text: whitespace around the number, an
  optional `+` or `-` sign and one or more ASCII digits. Underscores between
  digits, Unicode digits and Unicode spaces are left out. The same goes for
  lower/upper case folding: only ASCII letters change case.
- `str.isdigit()` (the version rule of models_cerebras.py, models_gemini.py
  and models_mistral.py) and the `\d` of `re.search(r'(\d+)')` in
  models_2json.py are modelled on ASCII digits only (`Text.IsDigit`,
  `Text.AllDigits`). Python also accepts Unicode decimal digits there, so
  `FetchCommon.DashSplit`, `ModelsToJson.FirstDigit` and
  `ModelsToJson.DigitRun` differ from Python on an id such as `gemini-١٢`.
- OpenRouter prices are already-parsed reals. A price string that `float()`
  rejects is left out.
- `time.sleep` and the timing of a request are left out. The response time is
  the probe's value.
- `print` output and logging are left out.
- The module-level singleton `llm_provider` is left out, as is the aliasing of
  the dict returned by `get_config`/`get_provider_config`. They are returned
  as values.
- The constant third field `0` of the models_ok tuples is not modelled.
- Hugging Face models without an `id` are left out.
- Mistral's `capabilities.completion_chat` is a boolean; a `capabilities`
  value of another shape is left out.
- Gemini.Token, Mistral.Token, OpenRouter.Token, OpenRouter.IsText and
  OpenRouter.Price: an optional attribute or key is an `Option`, and `None`
  means that it is missing. An attribute or key that is present but `None`
  (a JSON `null`) is not modelled. In Python, `getattr(m, 'input_token_limit', 0)`
  and `getattr(m, 'max_context_length', 0)` then return `None`, and
  `None >= 1024` raises `TypeError`. On OpenRouter,
  `m.get("context_length", 0)`, `architecture.get("modality", "")` and
  `float(pricing.get(key, 1))` raise; the run stops there, leaving the
  files unwritten or cut short, and the outer `except` only prints. The model reads such a value as the default (`0`, `""` or `1.0`)
  and carries on.
- The dict order of the Groq payload: the payload is a map, so ordering is
  not captured.
- Groq.PlainIdsAllKept: the lemma is proved for any list of distinct plain
  ids. The built-in list has dashes and dots but no `/` or `:`, so it
  qualifies; its instantiation on the literal list is not stated.
- LlmRegistry.ResolveAll: the contract states only that no key is removed.
  What the keys become is stated by `ResolveAllComplete` and
  `ResolveAllStops`.
