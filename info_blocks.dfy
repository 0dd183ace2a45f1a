/** The `models_<provider>_info.txt` format: blocks of `Key: value` lines
    separated by a line of 30 dashes, each block opening with `ID: <id>`.
    The fetch scripts write it; models_ok.py reads the ids back. */
module InfoBlocks {
  import opened Wrappers
  import opened Text

  /** The line of dashes between the blocks of an info file. */
  const Separator: string := "------------------------------"

  /** A block line that announces the model id. */
  predicate IsIdLine(line: string) {
    StartsWith(Strip(line), "ID:")
  }

  /** Position of the first id line (`|lines|` when there is none). */
  function FirstIdLine(lines: seq<string>): (i: nat)
    ensures i <= |lines|
    ensures i < |lines| ==> IsIdLine(lines[i])
  {
    var flags := IdFlags(lines);
    var i := FirstTrue(flags);
    assert i < |lines| ==> flags[i];
    i
  }

  /** Which lines are id lines. */
  function IdFlags(lines: seq<string>): (flags: seq<bool>)
    ensures |flags| == |lines|
  {
    seq(|lines|, j requires 0 <= j < |lines| => IsIdLine(lines[j]))
  }

  /** Position of the first `true` (`|bs|` when there is none). */
  function FirstTrue(bs: seq<bool>): (i: nat)
    ensures i <= |bs|
    ensures i < |bs| ==> bs[i]
  {
    if bs == [] then 0
    else if bs[0] then 0
    else 1 + FirstTrue(bs[1..])
  }

  lemma {:induction false} BeforeFirstTrue(bs: seq<bool>, j: nat)
    requires j < FirstTrue(bs)
    ensures !bs[j]
    decreases j
  {
    if j > 0 {
      BeforeFirstTrue(bs[1..], j - 1);
    }
  }

  /** No line before the first id line is one. */
  lemma BeforeFirstIdLine(lines: seq<string>, j: nat)
    requires j < FirstIdLine(lines)
    ensures !IsIdLine(lines[j])
  {
    BeforeFirstTrue(IdFlags(lines), j);
  }

  /** The id of a stripped info block: the stripped text after the first `ID:`
      on its first id line; `None` when there is no such line or the text is
      empty. */
  function BlockId(entry: string): (r: Option<string>)
    ensures r.Some? ==> r.value != [] && Stripped(r.value)
  {
    if !Contains(entry, "ID:") then None
    else
      var lines := Split(entry, '\n');
      var i := FirstIdLine(lines);
      if i == |lines| then None
      else
        ContainsAt(Strip(lines[i]), "ID:", 0);
        ContainsInStrip(lines[i], "ID:");
        var id := Strip(AfterFirst(lines[i], "ID:"));
        if id == [] then None else Some(id)
  }

  /** A block as the fetch scripts write it, `ID: <id>` on its first line,
      yields that id. */
  lemma BlockIdOfWritten(id: string, rest: string)
    requires id != [] && Stripped(id) && '\n' !in id
    ensures BlockId("ID: " + id + "\n" + rest) == Some(id)
  {
    var head := "ID: " + id;
    var entry := head + "\n" + rest;
    assert '\n' !in head by {
      assert head == "ID: " + id;
      assert '\n' !in "ID: ";
    }
    FirstLine(head, rest);
    IdLineOf(id);
    IdHeadFinds(id);
    ContainsPrefix(head, "\n", rest, "ID:");
    BlockIdOfFirstLine(entry);
  }

  /** Text found in a prefix is found in the whole. */
  lemma ContainsPrefix(a: string, b: string, c: string, sub: string)
    requires StartsWith(a, sub)
    ensures Contains(a + b + c, sub)
  {
    ContainsAt(a + b + c, sub, 0) by {
      assert (a + b + c)[..|sub|] == a[..|sub|];
    }
  }

  /** When the first line is an id line, the block's id is read from it. */
  lemma BlockIdOfFirstLine(entry: string)
    requires Contains(entry, "ID:") && IsIdLine(Split(entry, '\n')[0])
    ensures Contains(Split(entry, '\n')[0], "ID:")
    ensures BlockId(entry) ==
            var id := Strip(AfterFirst(Split(entry, '\n')[0], "ID:"));
            if id == [] then None else Some(id)
  {
    var lines := Split(entry, '\n');
    assert IdFlags(lines)[0];
    assert FirstIdLine(lines) == 0;
    ContainsAt(Strip(lines[0]), "ID:", 0);
    ContainsInStrip(lines[0], "ID:");
  }

  /** The first line of `head + "\n" + rest` is `head`. */
  lemma FirstLine(head: string, rest: string)
    requires '\n' !in head
    ensures Split(head + "\n" + rest, '\n')[0] == head
  {
    var entry := head + "\n" + rest;
    assert entry[..|head|] == head;
    assert entry[|head|] == '\n';
    SplitHere(entry, '\n', |head|);
  }

  /** `ID: <id>` is an id line whose stripped remainder is the id. */
  lemma IdLineOf(id: string)
    requires id != [] && Stripped(id)
    ensures IsIdLine("ID: " + id)
    ensures Contains("ID: " + id, "ID:")
    ensures Strip(AfterFirst("ID: " + id, "ID:")) == id
  {
    IdHeadFinds(id);
    IdHeadStripped(id);
    StripOfStripped("ID: " + id);
    AfterIdHead(id);
    StripSpaced(id);
  }

  lemma IdHeadFinds(id: string)
    ensures StartsWith("ID: " + id, "ID:")
    ensures Contains("ID: " + id, "ID:")
    ensures FindSub("ID: " + id, "ID:") == 0
  {
    assert ("ID: " + id)[..3] == "ID:";
  }

  lemma IdHeadStripped(id: string)
    requires id != [] && Stripped(id)
    ensures Stripped("ID: " + id)
  {
  }

  lemma AfterIdHead(id: string)
    ensures Contains("ID: " + id, "ID:")
    ensures AfterFirst("ID: " + id, "ID:") == " " + id
  {
    IdHeadFinds(id);
    assert ("ID: " + id)[3..] == " " + id;
  }

  /** One leading space is stripped off. */
  lemma StripSpaced(id: string)
    requires Stripped(id)
    ensures Strip(" " + id) == id
  {
    assert TrimLeft(" " + id) == TrimLeft(id);
    StripOfStripped(id);
  }
}
