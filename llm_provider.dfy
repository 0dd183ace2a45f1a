/** llm_provider.py: the registry of LLM providers. On construction (and on
    `reload`) it resolves one API key per provider from the credentials file,
    reads every `models_<provider>_wnd.txt` catalog of the data directory into
    a provider table, opens one client per known provider with a usable key,
    and selects a default provider and model.

    The decoded credentials file, the existence of the data directory and the
    glob result (file names with their lines, in glob order) arrive as
    parameters. A client is an opaque token naming its provider and key. */
module LlmRegistry {
  import opened Wrappers
  import opened Text
  import opened OrderedMap
  import opened CatalogFiles

  // ---------------------------------------------------------------------
  // The credentials file

  /** A JSON member: missing from its object, `null`, or a string. */
  datatype Field = Missing | Null | Str(s: string)

  /** Python `obj.get(name)`: `None` when the member is missing or null. */
  function FieldValue(f: Field): (r: Option<string>)
    ensures r.Some? <==> f.Str?
  {
    match f
    case Str(s) => Some(s)
    case _ => None
  }

  /** One `{"name": ..., "key": ...}` entry of a provider's `keys`. */
  datatype KeyEntry = KeyEntry(name: Field, key: Field)

  /** A provider's object: its `exported_key` and its `keys` list (a missing
      list is the empty one). */
  datatype ProviderKeys = ProviderKeys(exportedKey: Field, keys: seq<KeyEntry>)

  /** The `providers` object in file order, or `None` when `api_keys.json`
      does not exist or cannot be decoded. */
  type Credentials = Option<seq<(string, ProviderKeys)>>

  /** `self.api_keys`: a stored key can be `None` (a `null` in the file). */
  type ApiKeys = map<string, Option<string>>

  /** Position of the first entry whose name equals `name` (`|entries|` when
      none does). */
  function MatchIndex(entries: seq<KeyEntry>, name: Option<string>): (i: nat)
    ensures i <= |entries|
    ensures i < |entries| ==> FieldValue(entries[i].name) == name
    ensures forall j :: 0 <= j < i ==> FieldValue(entries[j].name) != name
    decreases |entries|
  {
    if entries == [] then 0
    else if FieldValue(entries[0].name) == name then 0
    else 1 + MatchIndex(entries[1..], name)
  }

  /** The keys after one provider's turn of `_load_api_keys`, or `None` when
      the fallback `info["keys"][0]["key"]` raises `KeyError`. Only the
      provider's own key can change. */
  function ResolveProvider(keys: ApiKeys, provider: string, info: ProviderKeys): (r: Option<ApiKeys>)
    ensures r.Some? ==> keys.Keys <= r.value.Keys <= keys.Keys + {provider}
    ensures r.Some? ==> forall q | q in keys && q != provider :: r.value[q] == keys[q]
  {
    var i := MatchIndex(info.keys, FieldValue(info.exportedKey));
    var matched := if i < |info.keys| then keys[provider := FieldValue(info.keys[i].key)] else keys;
    if provider !in matched && info.keys != [] then
      if info.keys[0].key.Missing? then None
      else Some(matched[provider := FieldValue(info.keys[0].key)])
    else Some(matched)
  }

  /** The loop over the providers; the first exception ends it, and the keys
      resolved until then stay. Keys are only ever added or overwritten. */
  function ResolveAll(keys: ApiKeys, ps: seq<(string, ProviderKeys)>): (r: ApiKeys)
    ensures keys.Keys <= r.Keys
    decreases |ps|
  {
    if ps == [] then keys
    else
      match ResolveProvider(keys, ps[0].0, ps[0].1)
      case None => keys
      case Some(next) => ResolveAll(next, ps[1..])
  }

  /** The keys after `_load_api_keys`. */
  function KeysOf(keys: ApiKeys, credentials: Credentials): ApiKeys {
    match credentials
    case None => keys
    case Some(ps) => ResolveAll(keys, ps)
  }

  /** The keys after the first providers, when none of them raises. */
  function ResolvePrefix(keys: ApiKeys, ps: seq<(string, ProviderKeys)>): Option<ApiKeys>
    decreases |ps|
  {
    if ps == [] then Some(keys)
    else
      match ResolveProvider(keys, ps[0].0, ps[0].1)
      case None => None
      case Some(next) => ResolvePrefix(next, ps[1..])
  }

  lemma ResolveAllFrom(keys: ApiKeys, ps: seq<(string, ProviderKeys)>, n: nat)
    requires n < |ps|
    ensures ResolveAll(keys, ps[n..]) ==
      match ResolveProvider(keys, ps[n].0, ps[n].1)
      case None => keys
      case Some(next) => ResolveAll(next, ps[n + 1..])
  {
    assert ps[n..][0] == ps[n];
    assert ps[n..][1..] == ps[n + 1..];
  }

  // ---------------------------------------------------------------------
  // The provider catalogs

  /** A provider's entry of `provider_config`: its client name and its models
      with their window sizes. */
  datatype CatalogEntry = CatalogEntry(client: string, models: ODict<string, int>)

  type Catalog = ODict<string, CatalogEntry>

  /** Every provider lists at least one model, and its client is its name. */
  ghost predicate CatalogOk(c: Catalog) {
    && c.Valid()
    && forall p | p in c.vals :: c.vals[p].client == p && c.vals[p].models.Valid() && c.vals[p].models.keys != []
  }

  /** The window of a catalog line: lower-cased, every `k` removed, read by
      `int()`, 0 when that fails. */
  function ProviderWindow(token: string): int {
    IntValue(ReplaceAll(Lower(token), "k", "")).GetOr(0)
  }

  /** The model and window a line contributes: a stripped line that is not
      blank and holds a `|`, split into its first two fields. */
  function CatalogLine(line: string): (r: Option<(string, int)>)
    ensures r.Some? <==> '|' in Strip(line)
  {
    match LineFields(line)
    case Some((model, token)) => Some((model, ProviderWindow(token)))
    case None => None
  }

  function CatalogLines(lines: seq<string>): (r: seq<Option<(string, int)>>)
    ensures |r| == |lines|
  {
    seq(|lines|, i requires 0 <= i < |lines| => CatalogLine(lines[i]))
  }

  lemma CatalogLinesAt(lines: seq<string>, i: nat)
    requires i < |lines|
    ensures CatalogLines(lines)[i] == CatalogLine(lines[i])
  {
  }

  /** The `models` dict read from one catalog file. */
  function CatalogModels(lines: seq<string>): ODict<string, int> {
    DictOf(CatalogLines(lines))
  }

  /** `filename.replace("models_", "").replace("_wnd.txt", "")`. */
  function ProviderName(fileName: string): string {
    ReplaceAll(ReplaceAll(fileName, "models_", ""), "_wnd.txt", "")
  }

  /** The entry one catalog file contributes: none when it has no usable
      line. */
  function FileEntry(file: (string, seq<string>)): (e: Option<(string, CatalogEntry)>)
    ensures e.Some? <==> CatalogModels(file.1).keys != []
    ensures e.Some? ==> e.value == (ProviderName(file.0), CatalogEntry(ProviderName(file.0), CatalogModels(file.1)))
  {
    var models := CatalogModels(file.1);
    if models.keys != [] then
      var name := ProviderName(file.0);
      Some((name, CatalogEntry(name, models)))
    else None
  }

  function FileEntries(files: seq<(string, seq<string>)>): (r: seq<Option<(string, CatalogEntry)>>)
    ensures |r| == |files|
  {
    seq(|files|, i requires 0 <= i < |files| => FileEntry(files[i]))
  }

  lemma FileEntriesAt(files: seq<(string, seq<string>)>, i: nat)
    requires i < |files|
    ensures FileEntries(files)[i] == FileEntry(files[i])
  {
  }

  /** `d[k] = v` for every entry in order, on an existing dict. */
  function PutEntries<K(==), V>(d: ODict<K, V>, entries: seq<Option<(K, V)>>): (r: ODict<K, V>)
    requires d.Valid()
    ensures r.Valid()
    decreases |entries|
  {
    if entries == [] then d
    else
      var prev := PutEntries(d, entries[..|entries| - 1]);
      match entries[|entries| - 1]
      case Some(f) => prev.Put(f.0, f.1)
      case None => prev
  }

  lemma PutEntriesSnoc<K, V>(d: ODict<K, V>, entries: seq<Option<(K, V)>>, e: Option<(K, V)>)
    requires d.Valid()
    ensures PutEntries(d, entries + [e]) ==
      match e case Some(f) => PutEntries(d, entries).Put(f.0, f.1) case None => PutEntries(d, entries)
  {
    assert (entries + [e])[..|entries|] == entries;
  }

  /** The entries override what the dict held before. */
  lemma {:induction false} PutEntriesVals<K, V>(d: ODict<K, V>, entries: seq<Option<(K, V)>>)
    requires d.Valid()
    ensures PutEntries(d, entries).vals == d.vals + AssocMap(entries)
    decreases |entries|
  {
    if entries != [] {
      var init := entries[..|entries| - 1];
      var e := entries[|entries| - 1];
      PutEntriesVals(d, init);
      AssocMapSnoc(init, e);
      assert init + [e] == entries;
      if e.Some? {
        UnionUpdate(d.vals, AssocMap(init), e.value.0, e.value.1);
      }
    }
  }

  lemma UnionUpdate<K, V>(m: map<K, V>, n: map<K, V>, k: K, v: V)
    ensures (m + n)[k := v] == m + n[k := v]
  {
  }

  /** `provider_config` after `_load_provider_config`. */
  function CatalogOf(c: Catalog, dataDirExists: bool, files: seq<(string, seq<string>)>): (r: Catalog)
    requires c.Valid()
    ensures CatalogOk(c) ==> CatalogOk(r)
  {
    if dataDirExists then
      PutEntriesOk(c, FileEntries(files));
      PutEntries(c, FileEntries(files))
    else c
  }

  /** An entry a catalog file can contribute. */
  ghost predicate EntryOk(e: Option<(string, CatalogEntry)>) {
    e.Some? ==> e.value.1.client == e.value.0 && e.value.1.models.Valid() && e.value.1.models.keys != []
  }

  lemma {:induction false} PutEntriesOk(c: Catalog, entries: seq<Option<(string, CatalogEntry)>>)
    requires c.Valid()
    requires forall i :: 0 <= i < |entries| ==> EntryOk(entries[i])
    ensures CatalogOk(c) ==> CatalogOk(PutEntries(c, entries))
    decreases |entries|
  {
    if entries != [] {
      PutEntriesOk(c, entries[..|entries| - 1]);
      assert EntryOk(entries[|entries| - 1]);
    }
  }

  // ---------------------------------------------------------------------
  // Clients

  /** An opened client: the provider it talks to and the key it was given. */
  datatype Client = Client(provider: string, key: string)

  /** The providers `_init_clients` knows, in its mapping's order. */
  const ClientOrder: seq<string> := ["gemini", "groq", "mistral", "huggingface", "openrouter"]

  /** Python `self.api_keys.get(name)`. */
  function LookupKey(keys: ApiKeys, name: string): (r: Option<string>)
    ensures r.Some? ==> name in keys && keys[name] == r
  {
    if name in keys then keys[name] else None
  }

  /** `self.api_keys.get("openrouter") or self.api_keys.get("openai")`. */
  function OrKey(keys: ApiKeys): Option<string> {
    Or(LookupKey(keys, "openrouter"), LookupKey(keys, "openai"))
  }

  /** The key a known provider's client is opened with, if any. */
  function ClientKey(keys: ApiKeys, name: string): (r: Option<string>)
    ensures r.Some? ==> r.value != ""
  {
    var own := LookupKey(keys, name);
    var key := if name == "openrouter" && !Truthy(own) then OrKey(keys) else own;
    if Truthy(key) then key else None
  }

  /** The client table after opening a client for each of `names` that has
      a key; clients opened before stay unless replaced. */
  function AddClients(c: map<string, Client>, keys: ApiKeys, names: seq<string>): (r: map<string, Client>)
    ensures forall n :: n in r <==> n in c || (n in names && ClientKey(keys, n).Some?)
    ensures forall n | n in r ::
      r[n] == if n in names && ClientKey(keys, n).Some? then Client(n, ClientKey(keys, n).value) else c[n]
    decreases |names|
  {
    if names == [] then c
    else
      var prev := AddClients(c, keys, names[..|names| - 1]);
      var n := names[|names| - 1];
      assert names == names[..|names| - 1] + [n];
      match ClientKey(keys, n)
      case Some(k) => prev[n := Client(n, k)]
      case None => prev
  }

  /** `self.clients` after `_init_clients`. */
  function ClientsOf(c: map<string, Client>, keys: ApiKeys): map<string, Client> {
    AddClients(c, keys, ClientOrder)
  }

  /** Every client is stored under its own provider's name with a non-empty
      key, and only the known providers have one. */
  ghost predicate ClientsOk(c: map<string, Client>) {
    forall n | n in c :: c[n] == Client(n, c[n].key) && c[n].key != "" && n in ClientOrder
  }

  // ---------------------------------------------------------------------
  // The selection

  /** `self.config`. */
  datatype Selection = Selection(provider: string, model: string, windowSize: int, client: string)

  /** The selection before any `set_config` succeeds. */
  const NoSelection: Selection := Selection("", "", 0, "")

  /** What `set_config(provider, model)` selects, or `None` when the table
      has no such provider or the provider no such model. */
  function Select(c: Catalog, provider: string, model: string): (r: Option<Selection>)
    ensures r.Some? <==> provider in c.vals && model in c.vals[provider].models.vals
    ensures r.Some? ==> r.value.provider == provider && r.value.model == model
    ensures r.Some? ==> r.value.windowSize == c.vals[provider].models.vals[model]
    ensures r.Some? ==> r.value.client == c.vals[provider].client
  {
    if provider in c.vals && model in c.vals[provider].models.vals then
      var entry := c.vals[provider];
      Some(Selection(provider, model, entry.models.vals[model], entry.client))
    else None
  }

  /** The selection the constructor ends with: the first provider's first
      model, which `set_config` accepts, or the empty default. */
  function DefaultSelection(c: Catalog): (r: Selection)
    requires CatalogOk(c)
    ensures c.keys == [] ==> r == NoSelection
    ensures c.keys != [] ==> r.provider == c.keys[0] && r.model == c.vals[c.keys[0]].models.keys[0]
    ensures c.keys != [] ==> Select(c, r.provider, r.model) == Some(r)
  {
    if c.keys == [] then NoSelection
    else
      var p := c.keys[0];
      var m := c.vals[p].models.keys[0];
      Select(c, p, m).value
  }

  // ---------------------------------------------------------------------
  // The registry

  class LlmProvider {
    var clients: map<string, Client>
    var providerConfig: Catalog
    var config: Selection
    var apiKeys: ApiKeys

    ghost predicate Valid()
      reads this
    {
      CatalogOk(providerConfig) && ClientsOk(clients)
    }

    /** Loads keys, catalogs and clients, then selects the default. */
    constructor(credentials: Credentials, dataDirExists: bool, files: seq<(string, seq<string>)>)
      ensures Valid()
      ensures apiKeys == KeysOf(map[], credentials)
      ensures providerConfig == CatalogOf(Empty(), dataDirExists, files)
      ensures clients == ClientsOf(map[], apiKeys)
      ensures config == DefaultSelection(providerConfig)
    {
      clients := map[];
      providerConfig := Empty();
      config := NoSelection;
      apiKeys := map[];
      new;
      LoadApiKeys(credentials);
      LoadProviderConfig(dataDirExists, files);
      InitClients();
      if providerConfig.keys != [] {
        var p := providerConfig.keys[0];
        var m := providerConfig.vals[p].models.keys[0];
        var _ := SetConfig(p, m);
      }
    }

    /** `_load_api_keys`. */
    method LoadApiKeys(credentials: Credentials)
      modifies this
      ensures apiKeys == KeysOf(old(apiKeys), credentials)
      ensures clients == old(clients) && providerConfig == old(providerConfig) && config == old(config)
    {
      if credentials.None? {
        return;
      }
      var ps := credentials.value;
      var n := 0;
      while n < |ps|
        invariant n <= |ps|
        invariant ResolveAll(apiKeys, ps[n..]) == ResolveAll(old(apiKeys), ps)
        invariant clients == old(clients) && providerConfig == old(providerConfig) && config == old(config)
      {
        ResolveAllFrom(apiKeys, ps, n);
        var ok := LoadProviderKey(ps[n].0, ps[n].1);
        if !ok {
          break;
        }
        n := n + 1;
      }
      if n == |ps| {
        assert ps[n..] == [];
      }
    }

    /** One provider's turn: the entry named by `exported_key`, else the
        first entry; `false` when that first entry has no `key`. */
    method LoadProviderKey(provider: string, info: ProviderKeys) returns (ok: bool)
      modifies this
      ensures ok == ResolveProvider(old(apiKeys), provider, info).Some?
      ensures apiKeys == if ok then ResolveProvider(old(apiKeys), provider, info).value else old(apiKeys)
      ensures clients == old(clients) && providerConfig == old(providerConfig) && config == old(config)
    {
      var exported := FieldValue(info.exportedKey);
      var j := 0;
      while j < |info.keys|
        invariant j <= |info.keys|
        invariant forall l :: 0 <= l < j ==> FieldValue(info.keys[l].name) != exported
        invariant apiKeys == old(apiKeys)
      {
        if FieldValue(info.keys[j].name) == exported {
          apiKeys := apiKeys[provider := FieldValue(info.keys[j].key)];
          break;
        }
        j := j + 1;
      }
      if provider !in apiKeys && |info.keys| > 0 {
        if info.keys[0].key.Missing? {
          return false;
        }
        apiKeys := apiKeys[provider := FieldValue(info.keys[0].key)];
      }
      return true;
    }

    /** `_load_provider_config`. */
    method LoadProviderConfig(dataDirExists: bool, files: seq<(string, seq<string>)>)
      requires CatalogOk(providerConfig)
      modifies this
      ensures CatalogOk(providerConfig)
      ensures providerConfig == CatalogOf(old(providerConfig), dataDirExists, files)
      ensures clients == old(clients) && apiKeys == old(apiKeys) && config == old(config)
    {
      if !dataDirExists {
        return;
      }
      ghost var es := FileEntries(files);
      for n := 0 to |files|
        invariant CatalogOk(providerConfig)
        invariant providerConfig == PutEntries(old(providerConfig), es[..n])
        invariant clients == old(clients) && apiKeys == old(apiKeys) && config == old(config)
      {
        var name := ProviderName(files[n].0);
        var models := ReadCatalog(files[n].1);
        FileEntriesAt(files, n);
        PrefixSnoc(es, n);
        PutEntriesSnoc(old(providerConfig), es[..n], es[n]);
        if models.keys != [] {
          providerConfig := providerConfig.Put(name, CatalogEntry(name, models));
        }
      }
      assert es[..|files|] == es;
    }

    /** The `models` dict of one catalog file, line by line. */
    static method ReadCatalog(lines: seq<string>) returns (models: ODict<string, int>)
      ensures models == CatalogModels(lines)
    {
      ghost var es := CatalogLines(lines);
      models := Empty();
      for n := 0 to |lines|
        invariant models == DictOf(es[..n])
      {
        CatalogLinesAt(lines, n);
        PrefixSnoc(es, n);
        DictOfSnoc(es[..n], es[n]);
        var parts := LineFields(lines[n]);
        if parts.Some? {
          models := models.Put(parts.value.0, ProviderWindow(parts.value.1));
        }
      }
      assert es[..|lines|] == es;
    }

    /** `_init_clients`. */
    method InitClients()
      modifies this
      ensures clients == ClientsOf(old(clients), apiKeys)
      ensures apiKeys == old(apiKeys) && providerConfig == old(providerConfig) && config == old(config)
    {
      var orKey := OrKey(apiKeys);
      for n := 0 to |ClientOrder|
        invariant clients == AddClients(old(clients), apiKeys, ClientOrder[..n])
        invariant apiKeys == old(apiKeys) && providerConfig == old(providerConfig) && config == old(config)
      {
        PrefixSnoc(ClientOrder, n);
        AddClientsSnoc(old(clients), apiKeys, ClientOrder[..n], ClientOrder[n]);
        OpenClient(ClientOrder[n], orKey);
      }
      assert ClientOrder[..|ClientOrder|] == ClientOrder;
    }

    /** One turn of `_init_clients`: openrouter falls back to `or_key`. */
    method OpenClient(name: string, orKey: Option<string>)
      requires orKey == OrKey(apiKeys)
      modifies this
      ensures clients == match ClientKey(apiKeys, name)
        case Some(k) => old(clients)[name := Client(name, k)]
        case None => old(clients)
      ensures apiKeys == old(apiKeys) && providerConfig == old(providerConfig) && config == old(config)
    {
      var key := LookupKey(apiKeys, name);
      if name == "openrouter" && !Truthy(key) {
        key := orKey;
      }
      if Truthy(key) {
        clients := clients[name := Client(name, key.value)];
      }
    }

    /** `set_config`: replaces the whole selection exactly when the provider
        and model are loaded, and reports whether it did. */
    method SetConfig(provider: string, model: string) returns (ok: bool)
      modifies this
      ensures ok <==> Select(providerConfig, provider, model).Some?
      ensures config == if ok then Select(providerConfig, provider, model).value else old(config)
      ensures clients == old(clients) && providerConfig == old(providerConfig) && apiKeys == old(apiKeys)
    {
      if provider in providerConfig.vals && model in providerConfig.vals[provider].models.vals {
        var entry := providerConfig.vals[provider];
        config := Selection(provider, model, entry.models.vals[model], entry.client);
        return true;
      }
      return false;
    }

    /** `get_client`: the named client, by default the selection's; `None`
        for a name without a client. */
    function GetClient(name: Option<string>): (r: Option<Client>)
      reads this
      ensures var n := name.GetOr(config.client); r.Some? <==> n in clients
      ensures var n := name.GetOr(config.client); r.Some? ==> r.value == clients[n]
      ensures Valid() && r.Some? ==> r.value.provider == name.GetOr(config.client) && r.value.key != ""
    {
      var n := name.GetOr(config.client);
      if n in clients then Some(clients[n]) else None
    }

    /** `get_config`. */
    function GetConfig(): (r: Selection)
      reads this
      ensures r == config
    {
      config
    }

    /** `get_provider_config`. */
    function GetProviderConfig(): (r: Catalog)
      reads this
      ensures r == providerConfig
    {
      providerConfig
    }

    /** `reload`: keys and catalogs are read afresh; clients are added to
        the old table and the selection is kept. */
    method Reload(credentials: Credentials, dataDirExists: bool, files: seq<(string, seq<string>)>) returns (ok: bool)
      requires Valid()
      modifies this
      ensures Valid() && ok
      ensures apiKeys == KeysOf(map[], credentials)
      ensures providerConfig == CatalogOf(Empty(), dataDirExists, files)
      ensures clients == ClientsOf(old(clients), apiKeys)
      ensures config == old(config)
    {
      providerConfig := Empty();
      apiKeys := map[];
      LoadApiKeys(credentials);
      LoadProviderConfig(dataDirExists, files);
      InitClients();
      return true;
    }
  }

  lemma AddClientsSnoc(c: map<string, Client>, keys: ApiKeys, names: seq<string>, n: string)
    ensures AddClients(c, keys, names + [n]) ==
      match ClientKey(keys, n) case Some(k) => AddClients(c, keys, names)[n := Client(n, k)] case None => AddClients(c, keys, names)
  {
    assert (names + [n])[..|names|] == names;
  }

  // ---------------------------------------------------------------------
  // Properties of key resolution

  /** The first entry named by `exported_key` gives the provider's key. */
  lemma ResolveFirstMatch(keys: ApiKeys, provider: string, info: ProviderKeys, i: nat)
    requires i < |info.keys| && FieldValue(info.keys[i].name) == FieldValue(info.exportedKey)
    requires forall j :: 0 <= j < i ==> FieldValue(info.keys[j].name) != FieldValue(info.exportedKey)
    ensures ResolveProvider(keys, provider, info) == Some(keys[provider := FieldValue(info.keys[i].key)])
  {
    var m := MatchIndex(info.keys, FieldValue(info.exportedKey));
    assert m == i;
  }

  /** Without a matching entry a provider not yet keyed gets the first
      entry's key. */
  lemma ResolveFallback(keys: ApiKeys, provider: string, info: ProviderKeys)
    requires provider !in keys && info.keys != [] && !info.keys[0].key.Missing?
    requires forall j :: 0 <= j < |info.keys| ==> FieldValue(info.keys[j].name) != FieldValue(info.exportedKey)
    ensures ResolveProvider(keys, provider, info) == Some(keys[provider := FieldValue(info.keys[0].key)])
  {
    var m := MatchIndex(info.keys, FieldValue(info.exportedKey));
    assert m == |info.keys|;
  }

  /** A provider with an empty key list gets no key. */
  lemma ResolveNoEntries(keys: ApiKeys, provider: string, info: ProviderKeys)
    requires info.keys == []
    ensures ResolveProvider(keys, provider, info) == Some(keys)
  {
  }

  /** A provider's turn fails exactly when nothing matches, it has no key yet,
      and its first entry has no `key` member. */
  lemma ResolveFails(keys: ApiKeys, provider: string, info: ProviderKeys)
    ensures ResolveProvider(keys, provider, info).None? <==>
      && provider !in keys && info.keys != [] && info.keys[0].key.Missing?
      && forall j :: 0 <= j < |info.keys| ==> FieldValue(info.keys[j].name) != FieldValue(info.exportedKey)
  {
    var m := MatchIndex(info.keys, FieldValue(info.exportedKey));
    if forall j :: 0 <= j < |info.keys| ==> FieldValue(info.keys[j].name) != FieldValue(info.exportedKey) {
      assert m == |info.keys|;
    }
  }

  /** When every provider resolves, the keys are those of the last one. */
  lemma {:induction false} ResolveAllComplete(keys: ApiKeys, ps: seq<(string, ProviderKeys)>)
    requires ResolvePrefix(keys, ps).Some?
    ensures ResolveAll(keys, ps) == ResolvePrefix(keys, ps).value
    decreases |ps|
  {
    if ps != [] {
      ResolveAllComplete(ResolveProvider(keys, ps[0].0, ps[0].1).value, ps[1..]);
    }
  }

  /** A failing provider ends the loading: the providers before it keep their
      keys, and none after it is read. */
  lemma {:induction false} ResolveAllStops(keys: ApiKeys, ps: seq<(string, ProviderKeys)>, n: nat)
    requires n < |ps| && ResolvePrefix(keys, ps[..n]).Some?
    requires ResolveProvider(ResolvePrefix(keys, ps[..n]).value, ps[n].0, ps[n].1).None?
    ensures ResolveAll(keys, ps) == ResolvePrefix(keys, ps[..n]).value
    decreases n
  {
    if n > 0 {
      var next := ResolveProvider(keys, ps[0].0, ps[0].1);
      assert ps[..n][0] == ps[0];
      assert ps[..n][1..] == ps[1..][..n - 1];
      ResolveAllStops(next.value, ps[1..], n - 1);
    }
  }

  /** The two credential examples: the entry named by `exported_key` wins,
      and a name without an entry falls back to the first one. */
  lemma ResolveExamples()
    ensures var entries := [KeyEntry(Str("primary"), Str("A")), KeyEntry(Str("secondary"), Str("B"))];
      && ResolveProvider(map[], "x", ProviderKeys(Str("primary"), entries)) == Some(map["x" := Some("A")])
      && ResolveProvider(map[], "x", ProviderKeys(Str("nonexistent"), entries)) == Some(map["x" := Some("A")])
  {
    var entries := [KeyEntry(Str("primary"), Str("A")), KeyEntry(Str("secondary"), Str("B"))];
    ResolveFirstMatch(map[], "x", ProviderKeys(Str("primary"), entries), 0);
    assert "nonexistent" != "primary" && "nonexistent" != "secondary";
    ResolveFallback(map[], "x", ProviderKeys(Str("nonexistent"), entries));
  }

  // ---------------------------------------------------------------------
  // Properties of the catalogs

  /** A loaded provider comes from a file of that name with a usable line. */
  lemma CatalogFromFile(files: seq<(string, seq<string>)>, p: string) returns (i: nat)
    requires p in CatalogOf(Empty(), true, files).vals
    ensures i < |files| && ProviderName(files[i].0) == p && CatalogModels(files[i].1).keys != []
  {
    PutEntriesVals(Empty<string, CatalogEntry>(), FileEntries(files));
    i := AssocMapFromEntry(FileEntries(files), p);
    FileEntriesAt(files, i);
  }

  /** A provider's entry is read from its last file with usable lines, and
      its client is its name. */
  lemma CatalogLastFileWins(files: seq<(string, seq<string>)>, i: nat)
    requires i < |files| && CatalogModels(files[i].1).keys != []
    requires forall j :: i < j < |files| ==> !(ProviderName(files[j].0) == ProviderName(files[i].0) && CatalogModels(files[j].1).keys != [])
    ensures var p := ProviderName(files[i].0);
      p in CatalogOf(Empty(), true, files).vals &&
      CatalogOf(Empty(), true, files).vals[p] == CatalogEntry(p, CatalogModels(files[i].1))
  {
    var es := FileEntries(files);
    var p := ProviderName(files[i].0);
    FileEntriesAt(files, i);
    forall j | i < j < |files| ensures !Gives(es[j], p) {
      FileEntriesAt(files, j);
    }
    PutEntriesVals(Empty<string, CatalogEntry>(), es);
    AssocMapLastWins(es, i, p, CatalogEntry(p, CatalogModels(files[i].1)));
  }

  /** A file without a usable line adds no provider. */
  lemma UnusableFile(file: (string, seq<string>))
    requires forall i :: 0 <= i < |file.1| ==> '|' !in Strip(file.1[i])
    ensures FileEntry(file).None?
  {
    var lines := file.1;
    var es := CatalogLines(lines);
    assert CatalogModels(lines).vals == map[] by {
      forall k | k in CatalogModels(lines).vals ensures false {
        var i := AssocMapFromEntry(es, k);
        CatalogLinesAt(lines, i);
      }
    }
    DistinctKeysBound(CatalogModels(lines));
  }

  /** Every model of a catalog is named by one of its lines. */
  lemma CatalogModelFromLine(lines: seq<string>, model: string) returns (i: nat)
    requires model in CatalogModels(lines).vals
    ensures i < |lines| && LineFields(lines[i]).Some? && LineFields(lines[i]).value.0 == model
  {
    i := AssocMapFromEntry(CatalogLines(lines), model);
    CatalogLinesAt(lines, i);
  }

  /** A later line for the same model overwrites its window. */
  lemma CatalogLastLineWins(lines: seq<string>, i: nat, model: string, token: string)
    requires i < |lines| && LineFields(lines[i]) == Some((model, token))
    requires forall j :: i < j < |lines| ==> !(LineFields(lines[j]).Some? && LineFields(lines[j]).value.0 == model)
    ensures model in CatalogModels(lines).vals && CatalogModels(lines).vals[model] == ProviderWindow(token)
  {
    var es := CatalogLines(lines);
    CatalogLinesAt(lines, i);
    forall j | i < j < |lines| ensures !Gives(es[j], model) {
      CatalogLinesAt(lines, j);
    }
    AssocMapLastWins(es, i, model, ProviderWindow(token));
  }

  /** `models_<p>_wnd.txt` registers provider `p`, for a name without `_`
      that does not end in `models`. */
  lemma ProviderNameOf(p: string)
    requires '_' !in p && !EndsWith(p, "models")
    ensures ProviderName("models_" + p + "_wnd.txt") == p
  {
    var head, tail := "models_", "_wnd.txt";
    ReplaceAtStart(head, p + tail, "");
    assert head + p + tail == head + (p + tail);
    UnderscoreOnlyAt(p, tail, head);
    ReplaceAbsent(p + tail, head, "");
    assert "" + (p + tail) == p + tail;
    ReplaceTail(p, tail);
  }

  /** Replacing a pattern the string starts with. */
  lemma ReplaceAtStart(pat: string, x: string, rep: string)
    requires |pat| > 0
    ensures ReplaceAll(pat + x, pat, rep) == rep + ReplaceAll(x, pat, rep)
  {
    assert (pat + x)[..|pat|] == pat && (pat + x)[|pat|..] == x;
  }

  /** Removing a suffix that starts with a character `p` lacks. */
  lemma ReplaceTail(p: string, tail: string)
    requires |tail| > 0 && tail[0] !in p
    ensures ReplaceAll(p + tail, tail, "") == p
  {
    forall i | 0 <= i < |p| ensures !StartsWith((p + tail)[i..], tail) {
      assert (p + tail)[i..][0] == p[i];
    }
    ReplaceAfterClean(p, tail, tail, "");
    ReplaceAtStart(tail, "", "");
    assert tail + "" == tail;
    assert p + "" == p;
  }

  /** `head` ends in the separator `_` that `p` lacks and `tail` holds only at
      its start, so it occurs in `p + tail` only as a suffix of `p` followed by
      that separator. */
  lemma UnderscoreOnlyAt(p: string, tail: string, head: string)
    requires |head| > 0 && head[|head| - 1] == '_'
    requires '_' !in p && |tail| > 0 && tail[0] == '_' && '_' !in tail[1..]
    requires !EndsWith(p, head[..|head| - 1])
    ensures !Contains(p + tail, head)
  {
    var x := p + tail;
    if Contains(x, head) {
      var i := ContainsWitness(x, head);
    }
  }

  /** A data directory holding just `models_<p>_wnd.txt` with two lines
      `<first>|<n1>k` and `<second>|<n2>k` makes the default selection `p`'s
      first model with window `n1`: the `k` is dropped, not read as 1024. */
  lemma OneCatalogDefault(p: string, first: string, n1: nat, second: string, n2: nat)
    requires '_' !in p && !EndsWith(p, "models")
    requires '|' !in first && first != [] && !IsSpace(first[0])
    requires '|' !in second && second != [] && !IsSpace(second[0]) && first != second
    ensures var lines := [first + "|" + NatToString(n1) + "k", second + "|" + NatToString(n2) + "k"];
      DefaultSelection(CatalogOf(Empty(), true, [("models_" + p + "_wnd.txt", lines)])) == Selection(p, first, n1, p)
  {
    var lines := [first + "|" + NatToString(n1) + "k", second + "|" + NatToString(n2) + "k"];
    WrittenCatalogLine(first, n1);
    WrittenCatalogLine(second, n2);
    CatalogLinesAt(lines, 0);
    CatalogLinesAt(lines, 1);
    TwoModels(CatalogLines(lines), (first, n1), (second, n2));
    ProviderNameOf(p);
    var files := [("models_" + p + "_wnd.txt", lines)];
    FileEntriesAt(files, 0);
    OneEntry(Empty(), FileEntries(files));
  }

  /** The groq example: `llama3-8b-8192|8k` and `mixtral-8x7b-32768|32k`
      select `llama3-8b-8192` with window 8. */
  lemma GroqCatalogExample()
    ensures var files := [("models_groq_wnd.txt", ["llama3-8b-8192|8k", "mixtral-8x7b-32768|32k"])];
      DefaultSelection(CatalogOf(Empty(), true, files)) == Selection("groq", "llama3-8b-8192", 8, "groq")
  {
    assert NatToString(8) == "8" && NatToString(32) == "32";
    assert "models_" + "groq" + "_wnd.txt" == "models_groq_wnd.txt";
    assert "llama3-8b-8192" + "|" + "8" + "k" == "llama3-8b-8192|8k";
    assert "mixtral-8x7b-32768" + "|" + "32" + "k" == "mixtral-8x7b-32768|32k";
    assert !EndsWith("groq", "models");
    assert '|' !in "llama3-8b-8192" && '|' !in "mixtral-8x7b-32768";
    OneCatalogDefault("groq", "llama3-8b-8192", 8, "mixtral-8x7b-32768", 32);
  }

  /** The entry of a `<model>|<n>k` line. */
  lemma WrittenCatalogLine(model: string, n: nat)
    requires '|' !in model && model != [] && !IsSpace(model[0])
    ensures CatalogLine(model + "|" + NatToString(n) + "k") == Some((model, n))
  {
    var token := NatToString(n) + "k";
    assert '|' !in token;
    LineFieldsOfWritten(model, token);
    assert model + "|" + NatToString(n) + "k" == model + "|" + token;
    ProviderWindowOfK(n);
  }

  /** Two entries for different models keep their order and values. */
  lemma TwoModels(es: seq<Option<(string, int)>>, a: (string, int), b: (string, int))
    requires |es| == 2 && es[0] == Some(a) && es[1] == Some(b) && a.0 != b.0
    ensures DictOf(es).keys == [a.0, b.0] && DictOf(es).vals[a.0] == a.1
  {
    assert es == es[..1] + [es[1]];
    DictOfSnoc(es[..1], es[1]);
    assert es[..1] == [] + [es[0]];
    DictOfSnoc([], es[0]);
  }

  /** Putting a single entry. */
  lemma OneEntry<K, V>(d: ODict<K, V>, es: seq<Option<(K, V)>>)
    requires d.Valid() && |es| == 1 && es[0].Some?
    ensures PutEntries(d, es) == d.Put(es[0].value.0, es[0].value.1)
  {
    assert es[..0] == [];
  }

  /** A plain number is read as itself. */
  lemma ProviderWindowOfNumber(n: nat)
    ensures ProviderWindow(NatToString(n)) == n
  {
    var s := NatToString(n);
    LowerOfDigits(s);
    ContainsChar(s, 'k');
    ReplaceAbsent(s, "k", "");
    StripOfStripped(s);
    DigitsValueOfNatToString(n);
  }

  /** A number with a `k` suffix is read as the number itself, not in units
      of 1024. */
  lemma ProviderWindowOfK(n: nat)
    ensures ProviderWindow(NatToString(n) + "k") == n
  {
    var s := NatToString(n);
    LowerOfDigits(s);
    assert Lower(s + "k") == s + "k";
    ReplaceCharConcat(s, "k", 'k', "");
    ContainsChar(s, 'k');
    ReplaceAbsent(s, "k", "");
    assert ReplaceAll("k", "k", "") == "";
    assert s + "" == s;
    StripOfStripped(s);
    DigitsValueOfNatToString(n);
  }

  /** `N/A` is not a number: the window is 0. */
  lemma ProviderWindowOfNA()
    ensures ProviderWindow("N/A") == 0
  {
    assert Lower("N/A") == "n/a";
    ContainsChar("n/a", 'k');
    ReplaceAbsent("n/a", "k", "");
    assert Strip("n/a") == "n/a" by {
      StripOfStripped("n/a");
    }
  }

  // ---------------------------------------------------------------------
  // Properties of the client table

  /** Openrouter uses its own key, else the openai one. */
  lemma OpenRouterKey(keys: ApiKeys)
    ensures var own := LookupKey(keys, "openrouter");
      var openai := LookupKey(keys, "openai");
      ClientKey(keys, "openrouter") == if Truthy(own) then own else if Truthy(openai) then openai else None
  {
  }

  /** Every other provider needs a non-empty key of its own. */
  lemma OwnKey(keys: ApiKeys, name: string)
    requires name != "openrouter"
    ensures ClientKey(keys, name).Some? <==> Truthy(LookupKey(keys, name))
    ensures ClientKey(keys, name).Some? ==> ClientKey(keys, name) == LookupKey(keys, name)
  {
  }

  /** Cerebras never gets a client, whatever its key. */
  lemma NoCerebrasClient(c: map<string, Client>, keys: ApiKeys)
    ensures "cerebras" in ClientsOf(c, keys) <==> "cerebras" in c
  {
    assert "cerebras" !in ClientOrder;
  }
}
