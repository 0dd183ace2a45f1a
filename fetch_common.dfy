/** What the six catalog fetch scripts share: the version comparison of
    their deduplication, the `-<digits>` version suffix, and the three files
    they write under `data/` (`models_<p>.txt`, `models_<p>_wnd.txt`,
    `models_<p>_info.txt`), each listing the kept models in ascending order
    of a sort key. */
module FetchCommon {
  import opened Wrappers
  import opened Text
  import opened Sorting
  import opened Dedup
  import opened WindowToken
  import opened CatalogFiles
  import opened InfoBlocks

  /** `version > current_version` on the versions of two models. */
  function Newer<T>(ver: T -> string): (T, T) -> bool {
    (a: T, b: T) => StrLess(ver(b), ver(a))
  }

  /** Comparing version strings is a strict weak order on any models. */
  lemma NewerWeakOrder<T>(xs: seq<T>, ver: T -> string)
    ensures WeakOrderOn(xs, Newer(ver))
  {
    StrLessOrder();
    ByKeyWeakOrder(xs, ver, StrLess, Newer(ver));
  }

  // ---------------------------------------------------------------------
  // The `-<digits>` suffix (cerebras, gemini, mistral)

  /** `parts = s.split("-")`; when the last part is all digits (and, with
      `needTwo`, there are at least two parts) the base is
      `"-".join(parts[:-1])` and the version that last part; otherwise the
      base is `s` and the version `"000"`. */
  function DashSplit(s: string, needTwo: bool): (r: (string, string))
    ensures r.1 == "000" || AllDigits(r.1)
  {
    var parts := Split(s, '-');
    var last := parts[|parts| - 1];
    if (!needTwo || |parts| > 1) && AllDigits(last) then (Join(parts[..|parts| - 1], '-'), last)
    else (s, "000")
  }

  /** With two or more parts and a digit suffix, base, dash and version spell
      the id. */
  lemma DashSplitJoins(s: string, needTwo: bool)
    requires |Split(s, '-')| > 1 && AllDigits(Split(s, '-')[|Split(s, '-')| - 1])
    ensures DashSplit(s, needTwo).0 + "-" + DashSplit(s, needTwo).1 == s
  {
    var parts := Split(s, '-');
    JoinSnoc(parts, '-');
    JoinSplit(s, '-');
  }

  /** A digit suffix after a dash is the version and the rest the base. */
  lemma DashSplitSuffix(b: string, d: string, needTwo: bool)
    requires AllDigits(d)
    ensures DashSplit(b + "-" + d, needTwo) == (b, d)
  {
    assert '-' !in d by {
      assert forall i :: 0 <= i < |d| ==> d[i] != '-';
    }
    SplitConcat(b, d, '-');
    SplitNone(d, '-');
    var parts := Split(b, '-') + [d];
    assert parts[..|parts| - 1] == Split(b, '-');
    JoinSplit(b, '-');
  }

  /** Without a dash the id is its own base. */
  lemma DashSplitNoDash(s: string)
    requires '-' !in s && !AllDigits(s)
    ensures DashSplit(s, false) == (s, "000") && DashSplit(s, true) == (s, "000")
  {
    SplitNone(s, '-');
  }

  /** An all-digit id with no dash: with the two-part guard it stays whole,
      without it the base is empty. */
  lemma DashSplitAllDigits(s: string)
    requires '-' !in s && AllDigits(s)
    ensures DashSplit(s, true) == (s, "000")
    ensures DashSplit(s, false) == ("", s)
  {
    SplitNone(s, '-');
  }

  // ---------------------------------------------------------------------
  // The written files

  /** The kept models in the order the files list them:
      `sorted(filtered_models, key=...)`. */
  function Listed<T>(ms: seq<T>, sortKey: T -> string): (r: seq<T>)
    ensures |r| == |ms|
  {
    SortBy(ms, sortKey, StrLess)
  }

  /** The listing is sorted by its key and holds each kept model once. */
  lemma ListedProperties<T>(ms: seq<T>, sortKey: T -> string)
    ensures SortedBy(Listed(ms, sortKey), sortKey, StrLess)
    ensures multiset(Listed(ms, sortKey)) == multiset(ms)
  {
    StrLessOrder();
    SortBySorted(ms, sortKey, StrLess);
    SortByPermutes(ms, sortKey, StrLess);
  }

  /** The lines of `models_<p>.txt`: one written id per listed model. */
  function ModelsLines<T>(ms: seq<T>, sortKey: T -> string, written: T -> string): (r: seq<string>)
    ensures |r| == |ms|
  {
    var l := Listed(ms, sortKey);
    seq(|l|, i requires 0 <= i < |l| => written(l[i]))
  }

  /** `f"{id}|{k_limit}"`. */
  function WndLine(id: string, token: string): string {
    id + "|" + token
  }

  /** The lines of `models_<p>_wnd.txt`. */
  function WndLines<T>(ms: seq<T>, sortKey: T -> string, written: T -> string, token: T -> string): (r: seq<string>)
    ensures |r| == |ms|
  {
    var l := Listed(ms, sortKey);
    seq(|l|, i requires 0 <= i < |l| => WndLine(written(l[i]), token(l[i])))
  }

  /** A written window token holds no `|` and does not end in whitespace. */
  lemma KLimitClean(limit: int)
    ensures '|' !in KLimit(limit) && !IsSpace(KLimit(limit)[|KLimit(limit)| - 1])
  {
    var t := KLimit(limit);
    KLimitShape(limit);
    if limit >= 1024 {
      assert t == NatToString(limit / 1024) + "k";
      assert forall i :: 0 <= i < |t| - 1 ==> IsDigit(t[i]);
    } else if limit >= 0 {
      assert AllDigits(t);
    } else {
      assert t == "-" + NatToString(-limit);
      assert forall i :: 1 <= i < |t| ==> t[i] == NatToString(-limit)[i - 1];
    }
  }

  /** models_ok and models_test read a written wnd line back as its id and
      token, for an id that holds no `|` and does not start with whitespace. */
  lemma WndLineReadBack(id: string, limit: int)
    requires '|' !in id && id != [] && !IsSpace(id[0])
    ensures LineFields(WndLine(id, KLimit(limit))) == Some((id, KLimit(limit)))
  {
    KLimitClean(limit);
    LineFieldsOfWritten(id, KLimit(limit));
  }

  /** The first line of an info block: `f"ID: {id}"`. */
  function IdLine(id: string): string {
    "ID: " + id
  }

  // ---------------------------------------------------------------------
  // The script's own filter

  /** The models that pass `p`, in input order (`filtered.append(model)` in
      a loop, or a list comprehension). */
  function Keep<T>(xs: seq<T>, p: T -> bool): (r: seq<T>)
    ensures |r| <= |xs|
    ensures forall i :: 0 <= i < |r| ==> p(r[i])
    decreases |xs|
  {
    if xs == [] then []
    else
      var r := Keep(xs[..|xs| - 1], p);
      if p(xs[|xs| - 1]) then r + [xs[|xs| - 1]] else r
  }

  /** A model is kept exactly when it is an input model that passes. */
  lemma {:induction false} KeepMembers<T>(xs: seq<T>, p: T -> bool, x: T)
    ensures x in Keep(xs, p) <==> x in xs && p(x)
    decreases |xs|
  {
    if xs != [] {
      var q := xs[..|xs| - 1];
      KeepMembers(q, p, x);
      assert xs == q + [xs[|xs| - 1]];
    }
  }

  /** Nothing is dropped when every model passes. */
  lemma {:induction false} KeepAll<T>(xs: seq<T>, p: T -> bool)
    requires forall i :: 0 <= i < |xs| ==> p(xs[i])
    ensures Keep(xs, p) == xs
    decreases |xs|
  {
    if xs != [] {
      var q := xs[..|xs| - 1];
      KeepAll(q, p);
      assert xs == q + [xs[|xs| - 1]];
    }
  }

  /** The filtering loop. */
  method FilterLoop<T>(xs: seq<T>, p: T -> bool) returns (filtered: seq<T>)
    ensures filtered == Keep(xs, p)
  {
    filtered := [];
    for n := 0 to |xs|
      invariant filtered == Keep(xs[..n], p)
    {
      assert xs[..n + 1][..n] == xs[..n];
      if p(xs[n]) {
        filtered := filtered + [xs[n]];
      }
    }
    assert xs[..|xs|] == xs;
  }

  // ---------------------------------------------------------------------
  // `<provider>/<name>:<version>` ids (groq, openrouter)

  /** `name_parts = id.split("/")`, provider the first part, model name the
      second part (the whole id when there is no `/`), that split on `:`;
      the base is `provider/<name before ':'>` (just the name before `:` when
      the provider is empty and `emptyProviderBare` holds) and the version
      the second `:` part, else `"000"`. */
  function ProviderSplit(id: string, emptyProviderBare: bool): (r: (string, string))
    ensures r.1 == "000" || ':' !in r.1
  {
    var nameParts := Split(id, '/');
    var provider := nameParts[0];
    var modelName := if |nameParts| > 1 then nameParts[1] else id;
    var parts := Split(modelName, ':');
    var version := if |parts| > 1 then parts[1] else "000";
    assert version == "000" || ':' !in version by {
      if |parts| > 1 { SplitPartsFree(modelName, ':', 1); }
    }
    (if emptyProviderBare && provider == [] then parts[0] else provider + "/" + parts[0],
     version)
  }

  /** The first two `/` fields of `p + "/" + q`. */
  lemma SlashFields(p: string, q: string)
    requires '/' !in p && '/' !in q
    ensures Split(p + "/" + q, '/') == [p, q]
  {
    var id := p + "/" + q;
    assert id[..|p|] == p && id[|p|] == '/' && id[|p| + 1..] == q;
    SplitHere(id, '/', |p|);
    SplitNone(q, '/');
  }

  /** The `:` fields of `b + ":" + v`. */
  lemma ColonFields(b: string, v: string)
    requires ':' !in b && ':' !in v
    ensures Split(b + ":" + v, ':') == [b, v]
  {
    var s := b + ":" + v;
    assert s[..|b|] == b && s[|b|] == ':' && s[|b| + 1..] == v;
    SplitHere(s, ':', |b|);
    SplitNone(v, ':');
  }

  /** `p/b:v` gives base `p/b` and version `v`. */
  lemma ProviderSplitTagged(p: string, b: string, v: string, emptyProviderBare: bool)
    requires p != [] && '/' !in p && '/' !in b + ":" + v && ':' !in b && ':' !in v
    ensures ProviderSplit(p + "/" + (b + ":" + v), emptyProviderBare) == (p + "/" + b, v)
  {
    SlashFields(p, b + ":" + v);
    ColonFields(b, v);
  }

  /** `p/b` gives base `p/b` and version `"000"`. */
  lemma ProviderSplitUntagged(p: string, b: string, emptyProviderBare: bool)
    requires p != [] && '/' !in p && '/' !in b && ':' !in b
    ensures ProviderSplit(p + "/" + b, emptyProviderBare) == (p + "/" + b, "000")
  {
    SlashFields(p, b);
    SplitNone(b, ':');
  }

  /** Without a `/` the whole id is taken as the provider: `b:v` gives base
      `b:v/b` and version `v`. */
  lemma ProviderSplitNoSlashTagged(b: string, v: string, emptyProviderBare: bool)
    requires '/' !in b + ":" + v && ':' !in b && ':' !in v
    ensures ProviderSplit(b + ":" + v, emptyProviderBare) == (b + ":" + v + "/" + b, v)
  {
    SplitNone(b + ":" + v, '/');
    ColonFields(b, v);
  }

  /** Without `/` or `:` a non-empty id `b` gives base `b/b`. */
  lemma ProviderSplitPlain(b: string, emptyProviderBare: bool)
    requires b != [] && '/' !in b && ':' !in b
    ensures ProviderSplit(b, emptyProviderBare) == (b + "/" + b, "000")
  {
    SplitNone(b, '/');
    SplitNone(b, ':');
  }

  /** An id starting with `/` has an empty provider: bare (groq) or with a
      leading `/` (openrouter). */
  lemma ProviderSplitEmptyProvider(b: string)
    requires '/' !in b && ':' !in b
    ensures ProviderSplit("/" + b, true) == (b, "000")
    ensures ProviderSplit("/" + b, false) == ("/" + b, "000")
  {
    assert "/" + b == [] + "/" + b;
    SlashFields([], b);
    SplitNone(b, ':');
  }

  // ---------------------------------------------------------------------
  // The info file

  /** Lines written one after another, each followed by a newline. */
  function Lines(ls: seq<string>): string
    decreases |ls|
  {
    if ls == [] then "" else ls[0] + "\n" + Lines(ls[1..])
  }

  function Repeat(c: char, n: nat): (r: string)
    ensures |r| == n && forall i :: 0 <= i < n ==> r[i] == c
  {
    seq(n, i => c)
  }

  /** The two header lines and the blank line before the first record. */
  function InfoHeader(title: string): string {
    Lines(["MODELLI " + title + " - INFORMAZIONI DETTAGLIATE", Repeat('=', 50), ""])
  }

  /** One model's record: its id line, the script's field lines, the line of
      30 dashes. */
  function InfoRecord(id: string, fields: seq<string>): string {
    Lines([IdLine(id)] + fields + [Repeat('-', 30)])
  }

  /** The whole info file for records in listing order. */
  function InfoText(title: string, records: seq<string>): string {
    InfoHeader(title) + Concat(records)
  }

  function Concat(ss: seq<string>): string
    decreases |ss|
  {
    if ss == [] then "" else ss[0] + Concat(ss[1..])
  }

  /** A record begins with its id line. */
  lemma InfoRecordStarts(id: string, fields: seq<string>)
    ensures InfoRecord(id, fields) == "ID: " + id + "\n" + Lines(fields + [Repeat('-', 30)])
  {
    var ls := [IdLine(id)] + fields + [Repeat('-', 30)];
    assert ls[0] == IdLine(id);
    assert ls[1..] == fields + [Repeat('-', 30)];
  }

  /** models_ok reads a record's id back from its first line. */
  lemma InfoRecordId(id: string, fields: seq<string>)
    requires id != [] && Stripped(id) && '\n' !in id
    ensures BlockId(InfoRecord(id, fields)) == Some(id)
  {
    InfoRecordStarts(id, fields);
    BlockIdOfWritten(id, Lines(fields + [Repeat('-', 30)]));
  }

  /** Python `str()` of an optional text attribute (`None` when missing). */
  function PyStr(v: Option<string>): string {
    match v
    case None => "None"
    case Some(s) => s
  }

  /** Python `str()` of an optional integer attribute. */
  function PyInt(v: Option<int>): string {
    match v
    case None => "None"
    case Some(n) => IntToString(n)
  }

  /** Every line written is found in the text. */
  lemma {:induction false} LinesContain(ls: seq<string>, k: nat)
    requires k < |ls|
    ensures Contains(Lines(ls), ls[k])
    decreases k
  {
    if k == 0 {
      ContainsAt(Lines(ls), ls[0], 0) by {
        assert Lines(ls)[..|ls[0]|] == ls[0];
      }
    } else {
      LinesContain(ls[1..], k - 1);
      ContainsSuffix(ls[0] + "\n", Lines(ls[1..]), ls[k]);
    }
  }

  lemma ContainsSuffix(a: string, b: string, sub: string)
    requires Contains(b, sub)
    ensures Contains(a + b, sub)
  {
    var i := ContainsWitness(b, sub);
    assert (a + b)[|a| + i..|a| + i + |sub|] == b[i..i + |sub|];
    ContainsAt(a + b, sub, |a| + i);
  }

  /** A record holds each of its field lines. */
  lemma InfoRecordHas(id: string, fields: seq<string>, k: nat)
    requires k < |fields|
    ensures Contains(InfoRecord(id, fields), fields[k])
  {
    var ls := [IdLine(id)] + fields + [Repeat('-', 30)];
    assert ls[k + 1] == fields[k];
    LinesContain(ls, k + 1);
  }
}
