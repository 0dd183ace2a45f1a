/** The window-size token that every catalog fetch script writes after the
    `|` of a `<model id>|<window>` line: the limit in units of 1024 tokens
    followed by `k` once it reaches 1024 (floor division), the plain decimal
    limit below that. */
module WindowToken {
  import opened Wrappers
  import opened Text

  function KLimit(limit: int): (t: string)
    ensures |t| > 0
    ensures limit >= 1024 <==> t[|t| - 1] == 'k'
    ensures limit >= 1024 ==> AllDigits(t[..|t| - 1]) && t[..|t| - 1] == NatToString(limit / 1024)
    ensures limit < 1024 ==> ParseInt(t) == Some(limit)
  {
    if limit >= 1024 then
      var q := limit / 1024;
      assert NatToString(q) + "k" == NatToString(q) + ['k'];
      NatToString(q) + "k"
    else
      ParseIntOfIntToString(limit);
      IntToString(limit)
  }

  /** The token's digits: those of `limit / 1024` with the `k`, or the whole
      decimal, possibly signed, below 1024. */
  lemma KLimitShape(limit: int)
    ensures limit >= 1024 ==> KLimit(limit) == NatToString(limit / 1024) + "k"
    ensures 0 <= limit < 1024 ==> KLimit(limit) == NatToString(limit)
    ensures limit < 0 ==> KLimit(limit) == "-" + NatToString(-limit)
  {
    var t := KLimit(limit);
    if limit >= 1024 {
      assert t == t[..|t| - 1] + [t[|t| - 1]];
    }
  }

  lemma KLimitExamples()
    ensures KLimit(131072) == "128k"
    ensures KLimit(32768) == "32k"
    ensures KLimit(8192) == "8k"
    ensures KLimit(1024) == "1k"
    ensures KLimit(1023) == "1023"
    ensures KLimit(0) == "0"
  {
    KLimitShape(131072);
    KLimitShape(32768);
    KLimitShape(8192);
    KLimitShape(1024);
    KLimitShape(1023);
    KLimitShape(0);
  }
}
