/** models_2json.py: every `<name>_wnd.txt` file of a directory becomes an
    entry of `models.json`, `{"client": <name>, "models": {<id>:
    {"windowSize": <n>}}}`, with the window read as the first run of digits
    of the text after the line's first `|`.

    The directory listing arrives as `(file name, lines)` pairs in the order
    `os.listdir` returns them. */
module ModelsToJson {
  import opened Wrappers
  import opened Text
  import opened OrderedMap
  import opened CatalogFiles

  // ---------------------------------------------------------------------
  // parse_window_size

  /** Position of the first decimal digit (`|s|` when there is none). */
  function FirstDigit(s: string): (i: nat)
    ensures i <= |s|
    ensures i < |s| ==> IsDigit(s[i])
    decreases |s|
  {
    if s == [] || IsDigit(s[0]) then 0 else 1 + FirstDigit(s[1..])
  }

  /** Length of the run of digits `s` starts with. */
  function DigitRun(s: string): (n: nat)
    ensures n <= |s|
    ensures n < |s| ==> !IsDigit(s[n])
    ensures forall j :: 0 <= j < n ==> IsDigit(s[j])
    decreases |s|
  {
    if s != [] && IsDigit(s[0]) then 1 + DigitRun(s[1..]) else 0
  }

  /** `re.search(r'(\d+)', size_str)`: the first maximal run of digits, or
      `None`. */
  function DigitSearch(s: string): (r: Option<string>)
    ensures r.Some? ==> AllDigits(r.value)
  {
    var i := FirstDigit(s);
    if i == |s| then None
    else
      var run := s[i..i + DigitRun(s[i..])];
      assert run[0] == s[i];
      Some(run)
  }

  /** `parse_window_size`: the value of the first run of digits, else 0. */
  function ParseWindowSize(s: string): (n: nat) {
    match DigitSearch(s)
    case Some(run) => DigitsValue(run)
    case None => 0
  }

  /** No digit before `i`. */
  lemma {:induction false} FirstDigitAt(s: string, i: nat)
    requires i <= |s| && (forall j :: 0 <= j < i ==> !IsDigit(s[j]))
    requires i < |s| ==> IsDigit(s[i])
    ensures FirstDigit(s) == i
    decreases i
  {
    if i > 0 {
      FirstDigitAt(s[1..], i - 1);
    }
  }

  /** A run of digits followed by a non-digit or the end. */
  lemma {:induction false} DigitRunAt(s: string, n: nat)
    requires n <= |s| && (forall j :: 0 <= j < n ==> IsDigit(s[j]))
    requires n < |s| ==> !IsDigit(s[n])
    ensures DigitRun(s) == n
    decreases n
  {
    if n > 0 {
      DigitRunAt(s[1..], n - 1);
    }
  }

  /** Text without digits, then digits, then text starting with a non-digit:
      the digits are what is read. */
  lemma ParseWindowSizeOf(pre: string, digits: string, rest: string)
    requires forall j :: 0 <= j < |pre| ==> !IsDigit(pre[j])
    requires AllDigits(digits)
    requires rest == [] || !IsDigit(rest[0])
    ensures ParseWindowSize(pre + digits + rest) == DigitsValue(digits)
  {
    var s := pre + digits + rest;
    FirstDigitAt(s, |pre|);
    assert s[|pre|..] == digits + rest;
    DigitRunAt(digits + rest, |digits|);
    assert s[|pre|..|pre| + |digits|] == digits;
  }

  /** The docstring's `128k` is 128; two edge cases: `N/A` is 0 and `1.5k`
      is 1. */
  lemma ParseWindowSize128k()
    ensures ParseWindowSize("128k") == 128
  {
    assert DigitsValue("128") == 128 by {
      assert "128"[..2] == "12" && "12"[..1] == "1";
    }
    ParseWindowSizeOf("", "128", "k");
    assert "" + "128" + "k" == "128k";
  }

  lemma ParseWindowSizeNA()
    ensures ParseWindowSize("N/A") == 0
  {
    FirstDigitAt("N/A", 3);
  }

  lemma ParseWindowSize1point5k()
    ensures ParseWindowSize("1.5k") == 1
  {
    ParseWindowSizeOf("", "1", ".5k");
    assert "" + "1" + ".5k" == "1.5k";
  }

  // ---------------------------------------------------------------------
  // One line of a wnd file

  /** The `(model name, window size)` of a line: after stripping it must be
      non-blank and contain `|`; the name is the text before the first `|`
      and the size is parsed from all of the rest. */
  function JsonLine(line: string): (r: Option<(string, nat)>)
    ensures r.Some? <==> '|' in Strip(line)
    ensures r.Some? ==> '|' !in r.value.0
  {
    var l := Strip(line);
    if l == [] || '|' !in l then None
    else
      var (name, size) := SplitOnce(l, '|');
      Some((name, ParseWindowSize(size)))
  }

  /** The line splits at its first `|`, whatever follows it. */
  lemma JsonLineSplit(line: string) returns (size: string)
    requires '|' in Strip(line)
    ensures Strip(line) == JsonLine(line).value.0 + "|" + size
    ensures JsonLine(line).value.1 == ParseWindowSize(size)
  {
    var l := Strip(line);
    size := SplitOnce(l, '|').1;
  }

  /** A line as the fetch scripts write it, `id|token`, reads back as the id
      and the parsed token. */
  lemma JsonLineOfWritten(id: string, token: string)
    requires '|' !in id && id != [] && !IsSpace(id[0])
    requires token != [] && !IsSpace(token[|token| - 1])
    ensures JsonLine(id + "|" + token) == Some((id, ParseWindowSize(token)))
  {
    var line := id + "|" + token;
    StripOfStripped(line);
    assert line[|id|] == '|';
    var (name, size) := SplitOnce(line, '|');
    SplitOnceAt(line, id, token);
  }

  /** `SplitOnce` cuts at the first separator. */
  lemma SplitOnceAt(line: string, a: string, b: string)
    requires '|' !in a && line == a + "|" + b
    ensures '|' in line && SplitOnce(line, '|') == (a, b)
  {
    assert line[|a|] == '|';
    var (x, y) := SplitOnce(line, '|');
    IndexOfAt(line, a);
  }

  lemma IndexOfAt(line: string, a: string)
    requires |a| < |line| && line[..|a|] == a && '|' !in a && line[|a|] == '|'
    ensures IndexOf(line, '|') == |a|
  {
    var i := IndexOf(line, '|');
    assert i <= |a|;
  }

  // ---------------------------------------------------------------------
  // The models of one file and the whole configuration

  function JsonLines(lines: seq<string>): (r: seq<Option<(string, nat)>>)
    ensures |r| == |lines|
  {
    seq(|lines|, i requires 0 <= i < |lines| => JsonLine(lines[i]))
  }

  /** The `"models"` dict of one wnd file. */
  function ModelsOf(lines: seq<string>): ODict<string, nat> {
    DictOf(JsonLines(lines))
  }

  /** One entry of `models.json`. */
  datatype ProviderEntry = ProviderEntry(client: string, models: ODict<string, nat>)

  const WndSuffix: string := "_wnd.txt"

  /** `filename.replace("_wnd.txt", "")`. */
  function ProviderKey(fileName: string): string {
    ReplaceAll(fileName, WndSuffix, "")
  }

  /** The entry one listed file contributes, if its name ends in `_wnd.txt`. */
  function FileEntry(file: (string, seq<string>)): (e: Option<(string, ProviderEntry)>)
    ensures e.Some? <==> EndsWith(file.0, WndSuffix)
    ensures e.Some? ==> e.value.0 == ProviderKey(file.0) && e.value.1 == ProviderEntry(e.value.0, ModelsOf(file.1))
  {
    if EndsWith(file.0, WndSuffix) then
      var provider := ProviderKey(file.0);
      Some((provider, ProviderEntry(provider, ModelsOf(file.1))))
    else None
  }

  function FileEntries(files: seq<(string, seq<string>)>): (r: seq<Option<(string, ProviderEntry)>>)
    ensures |r| == |files|
  {
    seq(|files|, i requires 0 <= i < |files| => FileEntry(files[i]))
  }

  /** `provider_config` after the whole listing. */
  function ConfigOf(files: seq<(string, seq<string>)>): ODict<string, ProviderEntry> {
    DictOf(FileEntries(files))
  }

  lemma FileEntriesAt(files: seq<(string, seq<string>)>, i: nat)
    requires i < |files|
    ensures FileEntries(files)[i] == FileEntry(files[i])
  {
  }

  lemma JsonLinesAt(lines: seq<string>, i: nat)
    requires i < |lines|
    ensures JsonLines(lines)[i] == JsonLine(lines[i])
  {
  }

  /** `main`'s directory loop. */
  method BuildProviderConfig(files: seq<(string, seq<string>)>) returns (config: ODict<string, ProviderEntry>)
    ensures config == ConfigOf(files)
  {
    config := Empty();
    ghost var es := FileEntries(files);
    for n := 0 to |files|
      invariant config == DictOf(es[..n])
    {
      var (fileName, lines) := files[n];
      FileEntriesAt(files, n);
      PrefixSnoc(es, n);
      DictOfSnoc(es[..n], es[n]);
      if EndsWith(fileName, WndSuffix) {
        var provider := ReplaceAll(fileName, WndSuffix, "");
        var models := ReadModels(lines);
        config := config.Put(provider, ProviderEntry(provider, models));
      }
    }
    assert es[..|files|] == es;
  }

  /** The line loop over one file. */
  method ReadModels(lines: seq<string>) returns (models: ODict<string, nat>)
    ensures models == ModelsOf(lines)
  {
    models := Empty();
    ghost var es := JsonLines(lines);
    for n := 0 to |lines|
      invariant models == DictOf(es[..n])
    {
      var line := Strip(lines[n]);
      JsonLinesAt(lines, n);
      PrefixSnoc(es, n);
      DictOfSnoc(es[..n], es[n]);
      if line != [] && '|' in line {
        var (modelName, sizeStr) := SplitOnce(line, '|');
        models := models.Put(modelName, ParseWindowSize(sizeStr));
      }
    }
    assert es[..|lines|] == es;
  }

  // ---------------------------------------------------------------------
  // Properties

  /** Only `_wnd.txt` files make entries, named by the file name without the
      suffix. */
  lemma ConfigFromFile(files: seq<(string, seq<string>)>, p: string) returns (i: nat)
    requires p in ConfigOf(files).vals
    ensures i < |files| && EndsWith(files[i].0, WndSuffix) && ProviderKey(files[i].0) == p
  {
    i := AssocMapFromEntry(FileEntries(files), p);
    FileEntriesAt(files, i);
  }

  /** Every `_wnd.txt` file makes an entry, even one without usable lines. */
  lemma ConfigHasFile(files: seq<(string, seq<string>)>, i: nat)
    requires i < |files| && EndsWith(files[i].0, WndSuffix)
    ensures ProviderKey(files[i].0) in ConfigOf(files).vals
  {
    FileEntriesAt(files, i);
    AssocMapHasEntry(FileEntries(files), i, ProviderKey(files[i].0));
  }

  /** The entry of a provider is built from the last file naming it, and its
      client is its own name. */
  lemma ConfigLastFileWins(files: seq<(string, seq<string>)>, i: nat)
    requires i < |files| && EndsWith(files[i].0, WndSuffix)
    requires forall j :: i < j < |files| ==> !(EndsWith(files[j].0, WndSuffix) && ProviderKey(files[j].0) == ProviderKey(files[i].0))
    ensures var p := ProviderKey(files[i].0);
      p in ConfigOf(files).vals && ConfigOf(files).vals[p] == ProviderEntry(p, ModelsOf(files[i].1))
  {
    var es := FileEntries(files);
    var p := ProviderKey(files[i].0);
    FileEntriesAt(files, i);
    forall j | i < j < |files| ensures !Gives(es[j], p) {
      FileEntriesAt(files, j);
    }
    AssocMapLastWins(es, i, p, ProviderEntry(p, ModelsOf(files[i].1)));
  }

  /** A model is listed only if some line names it. */
  lemma ModelFromLine(lines: seq<string>, name: string) returns (i: nat)
    requires name in ModelsOf(lines).vals
    ensures i < |lines| && Gives(JsonLine(lines[i]), name)
  {
    i := AssocMapFromEntry(JsonLines(lines), name);
    JsonLinesAt(lines, i);
  }

  /** A later line for the same model overwrites the window. */
  lemma ModelLastLineWins(lines: seq<string>, i: nat, name: string, w: nat)
    requires i < |lines| && JsonLine(lines[i]) == Some((name, w))
    requires forall j :: i < j < |lines| ==> !Gives(JsonLine(lines[j]), name)
    ensures name in ModelsOf(lines).vals && ModelsOf(lines).vals[name] == w
  {
    var es := JsonLines(lines);
    JsonLinesAt(lines, i);
    forall j | i < j < |lines| ensures !Gives(es[j], name) {
      JsonLinesAt(lines, j);
    }
    AssocMapLastWins(es, i, name, w);
  }

  /** A file without any line holding `|` gives an empty models dict. */
  lemma ModelsOfUnusable(lines: seq<string>)
    requires forall i :: 0 <= i < |lines| ==> '|' !in Strip(lines[i])
    ensures ModelsOf(lines).vals == map[]
  {
    var es := JsonLines(lines);
    forall k | k in ModelsOf(lines).vals ensures false {
      var i := ModelFromLine(lines, k);
    }
  }

  /** The `models_` prefix of the fetch scripts' file names stays in the key. */
  lemma ProviderKeyExample()
    ensures ProviderKey("models_groq_wnd.txt") == "models_groq"
  {
    var pre := "models_groq";
    assert "models_groq_wnd.txt" == pre + WndSuffix;
    forall j | 0 <= j < |pre| ensures !StartsWith((pre + WndSuffix)[j..], WndSuffix) {
      assert (pre + WndSuffix)[j + 4] != WndSuffix[4] || (pre + WndSuffix)[j] != WndSuffix[0];
    }
    ReplaceAfterClean(pre, WndSuffix, WndSuffix, "");
    assert WndSuffix[..|WndSuffix|] == WndSuffix;
    assert WndSuffix[|WndSuffix|..] == [];
  }
}
