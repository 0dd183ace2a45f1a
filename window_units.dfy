/** The three readers of the window token that the fetch scripts write
    (`<n / 1024>k` from 1024 tokens up, the plain number below):

    - models_ok.py multiplies a `k` token by 1024 and so gets the limit back
      rounded down to a multiple of 1024;
    - models_2json.py takes the first run of digits and llm_provider.py drops
      every `k`, so both get the number of 1024-token units.

    The same catalog line therefore means a window 1024 times larger to the
    tester than to the registry and the JSON export. */
module WindowUnits {
  import opened Text
  import opened WindowToken
  import opened ModelsOk
  import opened ModelsToJson
  import opened LlmRegistry

  /** models_ok.py: `k` tokens come back as whole multiples of 1024, small
      limits exactly. */
  lemma OkReadsToken(n: nat)
    ensures OkWindow(KLimit(n)) == if n >= 1024 then (n / 1024) * 1024 else n
  {
    var w := KLimit(n);
    OkWindowCases(w);
    if n >= 1024 {
      assert w[|w| - 1] == 'k' && LowerChar('k') == 'k';
      DigitsValueOfNatToString(n / 1024);
      StripOfStripped(w[..|w| - 1]);
    } else {
      ParseIntOfIntToString(n);
    }
  }

  /** models_2json.py: the token reads as its number of 1024-token units. */
  lemma JsonReadsToken(n: nat)
    ensures ParseWindowSize(KLimit(n)) == if n >= 1024 then n / 1024 else n
  {
    KLimitShape(n);
    if n >= 1024 {
      var digits := NatToString(n / 1024);
      ParseWindowSizeOf("", digits, "k");
      assert "" + digits + "k" == KLimit(n);
      DigitsValueOfNatToString(n / 1024);
    } else {
      var digits := NatToString(n);
      ParseWindowSizeOf("", digits, "");
      assert "" + digits + "" == KLimit(n);
      DigitsValueOfNatToString(n);
    }
  }

  /** llm_provider.py: the same units as models_2json.py. */
  lemma RegistryReadsToken(n: nat)
    ensures ProviderWindow(KLimit(n)) == if n >= 1024 then n / 1024 else n
  {
    KLimitShape(n);
    if n >= 1024 {
      ProviderWindowOfK(n / 1024);
    } else {
      ProviderWindowOfNumber(n);
    }
  }

  /** From 1024 tokens up the tester's window is 1024 times the registry's
      and the export's; below that all three agree. */
  lemma UnitMismatch(n: nat)
    ensures n >= 1024 ==> OkWindow(KLimit(n)) == 1024 * ProviderWindow(KLimit(n)) == 1024 * ParseWindowSize(KLimit(n))
    ensures n < 1024 ==> OkWindow(KLimit(n)) == ProviderWindow(KLimit(n)) == ParseWindowSize(KLimit(n)) == n
  {
    OkReadsToken(n);
    JsonReadsToken(n);
    RegistryReadsToken(n);
  }

  /** The hugging face catalog's `N/A` reads as 0 everywhere. */
  lemma NotAvailableIsZero()
    ensures OkWindow("N/A") == 0 && ParseWindowSize("N/A") == 0 && ProviderWindow("N/A") == 0
  {
    OkWindowOfNA();
    ParseWindowSizeNA();
    ProviderWindowOfNA();
  }
}
