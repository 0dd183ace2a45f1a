/** What models_ok.py and models_test.py both do with the catalog files the
    fetch scripts write under `data/`, and with the environment:

    - `models_<provider>.txt` holds one model id per line; blank lines are
      skipped and ids are stripped;
    - `models_<provider>_wnd.txt` holds `<id>|<window>` lines, read into a
      dict from id to window token (a later line for the same id wins);
    - the provider's API key comes from `<PROVIDER>_API_KEY`, with fallbacks
      for openrouter and huggingface.

    File contents arrive as sequences of lines and the environment as a map
    from variable name to value. */
module CatalogFiles {
  import opened Wrappers
  import opened Text
  import opened OrderedMap

  // ---------------------------------------------------------------------
  // The models file

  /** `[line.strip() for line in f if line.strip()]`. */
  function NonBlankLines(lines: seq<string>): (r: seq<string>)
    ensures |r| <= |lines|
    ensures forall i :: 0 <= i < |r| ==> r[i] != [] && Stripped(r[i])
  {
    var stripped := seq(|lines|, i requires 0 <= i < |lines| => Strip(lines[i]));
    NonEmpty(stripped)
  }

  /** The non-empty strings of `xs`, in order. */
  function NonEmpty(xs: seq<string>): (r: seq<string>)
    ensures |r| <= |xs|
    ensures forall i :: 0 <= i < |r| ==> r[i] != [] && r[i] in xs
    decreases |xs|
  {
    if xs == [] then []
    else if xs[0] == [] then NonEmpty(xs[1..])
    else [xs[0]] + NonEmpty(xs[1..])
  }

  /** Every non-empty string of `xs` is kept. */
  lemma {:induction false} NonEmptyKeeps(xs: seq<string>, i: nat)
    requires i < |xs| && xs[i] != []
    ensures xs[i] in NonEmpty(xs)
    decreases |xs|
  {
    if i > 0 {
      assert xs[1..][i - 1] == xs[i];
      NonEmptyKeeps(xs[1..], i - 1);
    }
  }

  /** A model id is read from every line that is not blank, and from no
      other. */
  lemma NonBlankLinesMembers(lines: seq<string>, x: string)
    ensures x in NonBlankLines(lines) <==>
      x != [] && exists i :: 0 <= i < |lines| && Strip(lines[i]) == x
  {
    var stripped := seq(|lines|, i requires 0 <= i < |lines| => Strip(lines[i]));
    if x != [] && exists i :: 0 <= i < |lines| && Strip(lines[i]) == x {
      var i :| 0 <= i < |lines| && Strip(lines[i]) == x;
      assert stripped[i] == x;
      NonEmptyKeeps(stripped, i);
    }
  }

  // ---------------------------------------------------------------------
  // The wnd file

  /** The `(id, window)` fields of a wnd line: `line.strip().split("|")`
      when that gives at least two fields (extra fields are ignored). */
  function LineFields(line: string): (r: Option<(string, string)>)
    ensures r.Some? <==> '|' in Strip(line)
  {
    var parts := Split(Strip(line), '|');
    if |parts| >= 2 then Some((parts[0], parts[1])) else None
  }

  /** The fields of every line, in order. */
  function FieldsOf(lines: seq<string>): (r: seq<Option<(string, string)>>)
    ensures |r| == |lines|
    ensures forall i :: 0 <= i < |lines| ==> r[i] == LineFields(lines[i])
  {
    seq(|lines|, i requires 0 <= i < |lines| => LineFields(lines[i]))
  }

  /** The dict `wnd_map` after reading `lines`. */
  function WndMapOf(lines: seq<string>): map<string, string> {
    AssocMap(FieldsOf(lines))
  }

  /** The entry of `name` in `m`, `None` when there is none: a file of the
      data directory (a map from file name to lines) or an environment
      variable (`os.getenv(name)`). */
  function Lookup<V>(m: map<string, V>, name: string): (r: Option<V>)
    ensures r.Some? <==> name in m
    ensures r.Some? ==> r.value == m[name]
  {
    if name in m then Some(m[name]) else None
  }

  function ModelsFileName(provider: string): string {
    "models_" + provider + ".txt"
  }

  function WndFileName(provider: string): string {
    "models_" + provider + "_wnd.txt"
  }

  /** `wnd_map` as read from an optional wnd file: empty when it is missing. */
  function WndMapOfFile(wndFile: Option<seq<string>>): map<string, string> {
    match wndFile case Some(lines) => WndMapOf(lines) case None => map[]
  }

  /** `wnd_map.get(model_id, "N/A")`. */
  function WindowOf(wnd: map<string, string>, id: string): (w: string)
    ensures id in wnd ==> w == wnd[id]
    ensures id !in wnd ==> w == "N/A"
  {
    if id in wnd then wnd[id] else "N/A"
  }

  /** A dict filled from `(key, value)` entries in order, skipping `None`. */
  function AssocMap<K, V>(entries: seq<Option<(K, V)>>): map<K, V>
    decreases |entries|
  {
    if entries == [] then map[]
    else
      var m := AssocMap(entries[..|entries| - 1]);
      match entries[|entries| - 1]
      case Some(f) => m[f.0 := f.1]
      case None => m
  }

  /** A prefix one element longer. */
  lemma PrefixSnoc<T>(xs: seq<T>, n: nat)
    requires n < |xs|
    ensures xs[..n + 1] == xs[..n] + [xs[n]]
  {
  }

  /** The present values of a list of options, in order. */
  function Somes<T>(xs: seq<Option<T>>): (r: seq<T>)
    ensures |r| <= |xs|
    decreases |xs|
  {
    if xs == [] then []
    else
      var rest := Somes(xs[..|xs| - 1]);
      match xs[|xs| - 1]
      case None => rest
      case Some(x) => rest + [x]
  }

  /** One more option. */
  lemma SomesSnoc<T>(xs: seq<Option<T>>, x: Option<T>)
    ensures Somes(xs + [x]) == match x case None => Somes(xs) case Some(v) => Somes(xs) + [v]
  {
    assert (xs + [x])[..|xs|] == xs;
  }

  /** Every value comes from a present option. */
  lemma {:induction false} SomesSource<T>(xs: seq<Option<T>>, i: nat) returns (j: nat)
    requires i < |Somes(xs)|
    ensures j < |xs| && xs[j] == Some(Somes(xs)[i])
    decreases |xs|
  {
    var p := xs[..|xs| - 1];
    if i < |Somes(p)| {
      j := SomesSource(p, i);
      assert xs[j] == p[j];
    } else {
      j := |xs| - 1;
    }
  }

  /** The values keep the order of their options. */
  lemma {:induction false} SomesOrdered<T>(xs: seq<Option<T>>, i1: nat, i2: nat) returns (j1: nat, j2: nat)
    requires i1 < i2 < |Somes(xs)|
    ensures j1 < j2 < |xs| && xs[j1] == Some(Somes(xs)[i1]) && xs[j2] == Some(Somes(xs)[i2])
    decreases |xs|
  {
    var p := xs[..|xs| - 1];
    if i2 < |Somes(p)| {
      j1, j2 := SomesOrdered(p, i1, i2);
      assert xs[j1] == p[j1] && xs[j2] == p[j2];
    } else {
      j1 := SomesSource(p, i1);
      assert xs[j1] == p[j1];
      j2 := |xs| - 1;
    }
  }

  /** Every present option contributes its value. */
  lemma {:induction false} SomesHas<T>(xs: seq<Option<T>>, j: nat)
    requires j < |xs| && xs[j].Some?
    ensures xs[j].value in Somes(xs)
    decreases |xs|
  {
    var p := xs[..|xs| - 1];
    if j < |p| {
      assert xs[j] == p[j];
      SomesHas(p, j);
    }
  }

  /** No present option, no values. */
  lemma {:induction false} SomesAllNone<T>(xs: seq<Option<T>>)
    requires forall j :: 0 <= j < |xs| ==> xs[j].None?
    ensures Somes(xs) == []
    decreases |xs|
  {
    if xs != [] {
      SomesAllNone(xs[..|xs| - 1]);
    }
  }

  /** The entry gives key `k`. */
  predicate Gives<K(==), V>(e: Option<(K, V)>, k: K) {
    e.Some? && e.value.0 == k
  }

  /** A key is in the dict only if some entry gives it. */
  lemma {:induction false} AssocMapFromEntry<K, V>(entries: seq<Option<(K, V)>>, k: K) returns (i: nat)
    requires k in AssocMap(entries)
    ensures i < |entries| && Gives(entries[i], k)
    decreases |entries|
  {
    var p := entries[..|entries| - 1];
    if Gives(entries[|entries| - 1], k) {
      i := |entries| - 1;
    } else {
      assert k in AssocMap(p);
      i := AssocMapFromEntry(p, k);
      assert entries[i] == p[i];
    }
  }

  /** Every key an entry gives is in the dict. */
  lemma {:induction false} AssocMapHasEntry<K, V>(entries: seq<Option<(K, V)>>, i: nat, k: K)
    requires i < |entries| && Gives(entries[i], k)
    ensures k in AssocMap(entries)
    decreases |entries|
  {
    var p := entries[..|entries| - 1];
    if i < |p| {
      assert entries[i] == p[i];
      AssocMapHasEntry(p, i, k);
    }
  }

  /** The value kept for a key is the one of the last entry giving it. */
  lemma {:induction false} AssocMapLastWins<K, V>(entries: seq<Option<(K, V)>>, i: nat, k: K, v: V)
    requires i < |entries| && entries[i] == Some((k, v))
    requires forall j :: i < j < |entries| ==> !Gives(entries[j], k)
    ensures k in AssocMap(entries) && AssocMap(entries)[k] == v
    decreases |entries|
  {
    var p := entries[..|entries| - 1];
    if i < |p| {
      assert forall j :: i < j < |p| ==> p[j] == entries[j];
      assert entries[i] == p[i];
      AssocMapLastWins(p, i, k, v);
    }
  }

  /** A filled dict extends by one entry at a time. */
  lemma AssocMapSnoc<K, V>(entries: seq<Option<(K, V)>>, e: Option<(K, V)>)
    ensures AssocMap(entries + [e]) ==
      match e case Some(f) => AssocMap(entries)[f.0 := f.1] case None => AssocMap(entries)
  {
    assert (entries + [e])[..|entries|] == entries;
  }

  /** A dict filled from `(key, value)` entries in order, as Python does. */
  function DictOf<K(==), V>(entries: seq<Option<(K, V)>>): (d: ODict<K, V>)
    ensures d.Valid() && d.vals == AssocMap(entries)
    decreases |entries|
  {
    if entries == [] then Empty()
    else
      var d := DictOf(entries[..|entries| - 1]);
      match entries[|entries| - 1]
      case Some(f) => d.Put(f.0, f.1)
      case None => d
  }

  lemma DictOfSnoc<K, V>(entries: seq<Option<(K, V)>>, e: Option<(K, V)>)
    ensures DictOf(entries + [e]) == match e case Some(f) => DictOf(entries).Put(f.0, f.1) case None => DictOf(entries)
  {
    assert (entries + [e])[..|entries|] == entries;
  }


  /** An id is in `wnd_map` only if some line names it. */
  lemma WndMapFromLine(lines: seq<string>, id: string) returns (i: nat)
    requires id in WndMapOf(lines)
    ensures i < |lines| && Gives(LineFields(lines[i]), id)
  {
    i := AssocMapFromEntry(FieldsOf(lines), id);
  }

  /** Every id a line names is in `wnd_map`. */
  lemma WndMapHasLine(lines: seq<string>, i: nat, id: string)
    requires i < |lines| && Gives(LineFields(lines[i]), id)
    ensures id in WndMapOf(lines)
  {
    AssocMapHasEntry(FieldsOf(lines), i, id);
  }

  /** The window kept for an id is the one on the last line naming it. */
  lemma WndMapLastWins(lines: seq<string>, i: nat, id: string, w: string)
    requires i < |lines| && LineFields(lines[i]) == Some((id, w))
    requires forall j :: i < j < |lines| ==> !Gives(LineFields(lines[j]), id)
    ensures id in WndMapOf(lines) && WndMapOf(lines)[id] == w
  {
    var es := FieldsOf(lines);
    assert forall j :: i < j < |lines| ==> es[j] == LineFields(lines[j]);
    AssocMapLastWins(es, i, id, w);
  }

  /** The loop that fills `wnd_map` from the wnd file, one line at a time
      (models_ok `get_model_specs`, models_test `get_wnd_map`). */
  method ReadWndMap(lines: seq<string>) returns (wnd: map<string, string>)
    ensures wnd == WndMapOf(lines)
  {
    wnd := map[];
    for n := 0 to |lines|
      invariant wnd == WndMapOf(lines[..n])
    {
      var parts := Split(Strip(lines[n]), '|');
      WndMapSnoc(lines, n);
      if |parts| >= 2 {
        wnd := wnd[parts[0] := parts[1]];
      }
    }
    assert lines[..|lines|] == lines;
  }

  /** Reading one more line. */
  lemma WndMapSnoc(lines: seq<string>, n: nat)
    requires n < |lines|
    ensures WndMapOf(lines[..n + 1]) ==
      match LineFields(lines[n]) case Some(f) => WndMapOf(lines[..n])[f.0 := f.1] case None => WndMapOf(lines[..n])
  {
    assert FieldsOf(lines[..n + 1]) == FieldsOf(lines[..n]) + [LineFields(lines[n])];
    AssocMapSnoc(FieldsOf(lines[..n]), LineFields(lines[n]));
  }

  /** A line written as `id|window` reads back as that pair, provided the id
      and window contain no `|` and the line has no surrounding whitespace. */
  lemma LineFieldsOfWritten(id: string, w: string)
    requires '|' !in id && '|' !in w
    requires id != [] && !IsSpace(id[0]) && w != [] && !IsSpace(w[|w| - 1])
    ensures LineFields(id + "|" + w) == Some((id, w))
  {
    var line := id + ['|'] + w;
    assert line == id + "|" + w;
    assert line[0] == id[0] && line[|line| - 1] == w[|w| - 1];
    StripOfStripped(line);
    SplitAtFirst(id, w, '|');
    SplitNone(w, '|');
  }

  // ---------------------------------------------------------------------
  // The API key

  /** Python truthiness of an optional string: present and non-empty. */
  predicate Truthy(v: Option<string>) {
    v.Some? && v.value != ""
  }

  /** Python `a or b` on optional strings. */
  function Or(a: Option<string>, b: Option<string>): Option<string> {
    if Truthy(a) then a else b
  }

  /** `f"{provider.upper()}_API_KEY"`. */
  function EnvVarName(provider: string): string {
    Upper(provider) + "_API_KEY"
  }

  lemma EnvVarNames()
    ensures EnvVarName("openrouter") == "OPENROUTER_API_KEY"
    ensures EnvVarName("huggingface") == "HUGGINGFACE_API_KEY"
  {
    UpperIs("openrouter", "OPENROUTER");
    UpperIs("huggingface", "HUGGINGFACE");
  }

  /** The key models_ok and models_test use for `provider` (already
      lower-case): `<PROVIDER>_API_KEY`; for openrouter, when that is empty
      or unset, `OPENROUTER_API_KEY` or else `OPENAI_API_KEY`; for
      huggingface, `HF_TOKEN`. An empty value counts as none. */
  function ApiKeyFor(provider: string, env: map<string, string>): (r: Option<string>)
    ensures r.Some? ==> r.value != ""
  {
    var own := Lookup(env, EnvVarName(provider));
    var k1 := if provider == "openrouter" && !Truthy(own)
      then Or(Lookup(env, "OPENROUTER_API_KEY"), Lookup(env, "OPENAI_API_KEY"))
      else own;
    var k2 := if provider == "huggingface" && !Truthy(k1) then Lookup(env, "HF_TOKEN") else k1;
    if Truthy(k2) then k2 else None
  }

  /** A set provider variable always wins. */
  lemma ApiKeyOwnWins(provider: string, env: map<string, string>)
    requires Truthy(Lookup(env, EnvVarName(provider)))
    ensures ApiKeyFor(provider, env) == Lookup(env, EnvVarName(provider))
  {
  }

  /** Providers other than openrouter and huggingface have no fallback. */
  lemma ApiKeyNoFallback(provider: string, env: map<string, string>)
    requires provider != "openrouter" && provider != "huggingface"
    ensures var own := Lookup(env, EnvVarName(provider));
      ApiKeyFor(provider, env) == if Truthy(own) then own else None
  {
  }

  /** openrouter: `OPENROUTER_API_KEY`, then `OPENAI_API_KEY`. */
  lemma ApiKeyOpenRouter(env: map<string, string>)
    ensures var a := Lookup(env, "OPENROUTER_API_KEY");
      var b := Lookup(env, "OPENAI_API_KEY");
      ApiKeyFor("openrouter", env) == if Truthy(a) then a else if Truthy(b) then b else None
  {
    EnvVarNames();
  }

  /** huggingface: `HUGGINGFACE_API_KEY`, then `HF_TOKEN`. */
  lemma ApiKeyHuggingFace(env: map<string, string>)
    ensures var a := Lookup(env, "HUGGINGFACE_API_KEY");
      var b := Lookup(env, "HF_TOKEN");
      ApiKeyFor("huggingface", env) == if Truthy(a) then a else if Truthy(b) then b else None
  {
    EnvVarNames();
    assert "huggingface" != "openrouter";
  }
}
