// The retry strategy: which failed verdicts are worth a second extraction,
// which kind of failure a verdict shows, and how the prompts of the retry
// are built from the original ones.

module RetryStrategy {
  import opened Text
  import opened Values
  import opened Validators

  /** The number of the last attempt a retry chain may make. */
  const MaxRetries: int := 2

  /** The words that mark an error as one a new extraction may fix, matched
      against the lower-cased error. */
  const RetryableKeywords: seq<string> :=
    ["address format", "service_provider", "Amount must be a valid number", "too short", "missing"]

  // ---------------------------------------------------------------------------
  // should_retry
  // ---------------------------------------------------------------------------

  /** `any(keyword in text for keyword in keywords)`. */
  predicate MentionsAny(text: string, keywords: seq<string>)
    decreases |keywords|
  {
    keywords != [] && (Contains(text, keywords[0]) || MentionsAny(text, keywords[1..]))
  }

  /** Some error, lower-cased, holds one of the retryable keywords. */
  predicate AnyRetryable(errors: seq<string>)
    decreases |errors|
  {
    errors != [] && (MentionsAny(Lower(errors[0]), RetryableKeywords) || AnyRetryable(errors[1..]))
  }

  /** `should_retry`: only an invalid verdict with at least one error that
      mentions a retryable keyword is retried. */
  predicate ShouldRetry(v: Verdict) {
    if v.isValid then false
    else if v.errors == [] then false
    else AnyRetryable(v.errors)
  }

  lemma {:induction false} MentionsAnyMeaning(text: string, keywords: seq<string>)
    ensures MentionsAny(text, keywords) <==> exists k :: 0 <= k < |keywords| && Contains(text, keywords[k])
    decreases |keywords|
  {
    if keywords != [] {
      MentionsAnyMeaning(text, keywords[1..]);
      if MentionsAny(text, keywords[1..]) {
        var k :| 0 <= k < |keywords[1..]| && Contains(text, keywords[1..][k]);
        assert Contains(text, keywords[k + 1]);
      }
      if exists k :: 0 <= k < |keywords| && Contains(text, keywords[k]) {
        var k :| 0 <= k < |keywords| && Contains(text, keywords[k]);
        if k > 0 {
          assert Contains(text, keywords[1..][k - 1]);
        }
      }
    }
  }

  /** An error is retryable when, lower-cased, it holds some keyword. */
  predicate Retryable(error: string) {
    exists k :: 0 <= k < |RetryableKeywords| && Contains(Lower(error), RetryableKeywords[k])
  }

  lemma {:induction false} AnyRetryableMeaning(errors: seq<string>)
    ensures AnyRetryable(errors) <==> exists i :: 0 <= i < |errors| && Retryable(errors[i])
    decreases |errors|
  {
    if errors != [] {
      MentionsAnyMeaning(Lower(errors[0]), RetryableKeywords);
      AnyRetryableMeaning(errors[1..]);
      if AnyRetryable(errors[1..]) {
        var i :| 0 <= i < |errors[1..]| && Retryable(errors[1..][i]);
        assert Retryable(errors[i + 1]);
      }
      if exists i :: 0 <= i < |errors| && Retryable(errors[i]) {
        var i :| 0 <= i < |errors| && Retryable(errors[i]);
        if i > 0 {
          assert Retryable(errors[1..][i - 1]);
        }
      }
    }
  }

  /** A verdict is retried exactly when it is invalid and one of its errors
      holds a retryable keyword after lower-casing; a valid verdict and one
      without errors are never retried. */
  lemma ShouldRetryMeaning(v: Verdict)
    ensures ShouldRetry(v) <==> !v.isValid && exists i :: 0 <= i < |v.errors| && Retryable(v.errors[i])
    ensures v.isValid || v.errors == [] ==> !ShouldRetry(v)
  {
    AnyRetryableMeaning(v.errors);
  }

  /** A word with a character that `s` lacks does not occur in `s`. */
  lemma {:induction false} AbsentCharNotContained(s: string, w: string, c: char)
    requires c in w && c !in s
    ensures !Contains(s, w)
    decreases |s|
  {
    assert !StartsWith(s, w);
    if s != [] {
      AbsentCharNotContained(s[1..], w, c);
    }
  }

  /** Lower-casing creates a small letter only from itself or its capital. */
  lemma LowerAbsent(s: string, c: char)
    requires 'a' <= c <= 'z'
    requires forall k :: 0 <= k < |s| ==> s[k] != c && s[k] != UpperChar(c)
    ensures c !in Lower(s)
  {
  }

  /** The keyword "Amount must be a valid number" starts with a capital, and
      a lower-cased error has none, so it never matches. */
  lemma AmountKeywordNeverMatches(error: string)
    ensures !Contains(Lower(error), RetryableKeywords[2])
  {
    var w := RetryableKeywords[2];
    assert w[0] == 'A';
    assert forall k :: 0 <= k < |Lower(error)| ==> Lower(error)[k] != 'A';
    AbsentCharNotContained(Lower(error), w, 'A');
  }

  /** A lower-cased text lacking a small letter and its capital does not
      hold a word with that letter. */
  lemma KeywordNotMatched(error: string, w: string, c: char)
    requires 'a' <= c <= 'z' && c in w
    requires forall k :: 0 <= k < |error| ==> error[k] != c && error[k] != UpperChar(c)
    ensures !Contains(Lower(error), w)
  {
    LowerAbsent(error, c);
    AbsentCharNotContained(Lower(error), w, c);
  }

  /** Letters "Amount must be a valid number" does not hold. */
  lemma AmountErrorLetters()
    ensures forall k :: 0 <= k < |AmountError| ==>
      AmountError[k] != 'f' && AmountError[k] != 'F' && AmountError[k] != 'c' && AmountError[k] != 'C'
      && AmountError[k] != 'h' && AmountError[k] != 'H' && AmountError[k] != 'g' && AmountError[k] != 'G'
  {
  }

  /** "Amount must be a valid number" holds none of the other keywords once
      lower-cased: each of them has a letter the message lacks. */
  lemma AmountErrorNotMatched()
    ensures !Retryable(AmountError)
  {
    AmountErrorLetters();
    forall k | 0 <= k < |RetryableKeywords|
      ensures !Contains(Lower(AmountError), RetryableKeywords[k])
    {
      var w := RetryableKeywords[k];
      if k == 0 {
        assert w[8] == 'f';
        KeywordNotMatched(AmountError, w, 'f');
      } else if k == 1 {
        assert w[5] == 'c';
        KeywordNotMatched(AmountError, w, 'c');
      } else if k == 2 {
        AmountKeywordNeverMatches(AmountError);
      } else if k == 3 {
        assert w[5] == 'h';
        KeywordNotMatched(AmountError, w, 'h');
      } else {
        assert w[6] == 'g';
        KeywordNotMatched(AmountError, w, 'g');
      }
    }
  }

  /** The only error the amount check adds is not retryable: a verdict
      whose one error is "Amount must be a valid number" is not retried. */
  lemma AmountErrorNotRetryable(v: Verdict)
    requires v.errors == [AmountError]
    ensures !ShouldRetry(v)
  {
    AmountErrorNotMatched();
    ShouldRetryMeaning(v);
  }

  // ---------------------------------------------------------------------------
  // classify_errors
  // ---------------------------------------------------------------------------

  const AddressFormat := "address_format"
  const ServiceProviderStructure := "service_provider_structure"
  const AmountFormat := "amount_format"
  const General := "general"

  /** The text `classify_errors` searches: the errors joined by one space,
      lower-cased. */
  function ErrorText(errors: seq<string>): string {
    Lower(Join(errors, " "))
  }

  /** `classify_errors`: the first category, in priority order, whose words
      occur in the error text. */
  function ClassifyErrors(errors: seq<string>): (category: string)
    ensures category in RetryStrategies
  {
    var text := ErrorText(errors);
    if Contains(text, "address") && (Contains(text, "comma") || Contains(text, "format")) then AddressFormat
    else if Contains(text, "service_provider") then ServiceProviderStructure
    else if Contains(text, "amount") then AmountFormat
    else General
  }

  /** The category is decided by priority: an address-format mention wins,
      then a service-provider mention, then an amount mention. */
  lemma ClassifyPriority(errors: seq<string>)
    ensures var text := ErrorText(errors);
      (ClassifyErrors(errors) == AddressFormat <==>
         Contains(text, "address") && (Contains(text, "comma") || Contains(text, "format")))
      && (ClassifyErrors(errors) == ServiceProviderStructure <==>
         !(Contains(text, "address") && (Contains(text, "comma") || Contains(text, "format")))
         && Contains(text, "service_provider"))
      && (ClassifyErrors(errors) == AmountFormat <==>
         !(Contains(text, "address") && (Contains(text, "comma") || Contains(text, "format")))
         && !Contains(text, "service_provider") && Contains(text, "amount"))
      && (ClassifyErrors(errors) == General <==>
         !(Contains(text, "address") && (Contains(text, "comma") || Contains(text, "format")))
         && !Contains(text, "service_provider") && !Contains(text, "amount"))
  {
  }

  /** A word in one lower-cased error is in the lower-cased join of all of them. */
  lemma {:induction false} JoinedTextContains(errors: seq<string>, i: nat, w: string)
    requires i < |errors| && Contains(Lower(errors[i]), w)
    ensures Contains(ErrorText(errors), w)
    decreases |errors|
  {
    if |errors| > 1 {
      var rest := Join(errors[1..], " ");
      assert Join(errors, " ") == errors[0] + " " + rest;
      LowerConcat(errors[0] + " ", rest);
      LowerConcat(errors[0], " ");
      if i == 0 {
        ContainsInPrefix(Lower(errors[0]), Lower(" "), w);
        ContainsInPrefix(Lower(errors[0]) + Lower(" "), Lower(rest), w);
      } else {
        assert errors[1..][i - 1] == errors[i];
        JoinedTextContains(errors[1..], i - 1, w);
        ContainsInSuffix(Lower(errors[0] + " "), Lower(rest), w);
      }
    }
  }

  // ---------------------------------------------------------------------------
  // The strategy table and the prompt enhancers
  // ---------------------------------------------------------------------------

  /** The four prompt enhancers. */
  datatype Enhancer = EnhanceAddress | EnhanceStructure | EnhanceAmount | EnhanceGeneral

  /** `retry_strategies`: one enhancer per category. */
  const RetryStrategies: map<string, Enhancer> := map[
    AddressFormat := EnhanceAddress,
    ServiceProviderStructure := EnhanceStructure,
    AmountFormat := EnhanceAmount,
    General := EnhanceGeneral]

  /** The table holds exactly the four categories `classify_errors` returns,
      each with its own enhancer. */
  lemma StrategyTableKeys()
    ensures RetryStrategies.Keys == {AddressFormat, ServiceProviderStructure, AmountFormat, General}
    ensures RetryStrategies.Keys ==
      {ClassifyErrors(["address format"]), ClassifyErrors(["service_provider"]), ClassifyErrors(["amount"]), ClassifyErrors([])}
  {
    ClassifyAddressExample();
    ClassifyProviderExample();
    ClassifyAmountExample();
    ClassifyEmptyExample();
  }

  /** A text without capitals is its own lower-case form. */
  lemma LowerNoCapitals(s: string)
    requires forall k :: 0 <= k < |s| ==> !('A' <= s[k] <= 'Z')
    ensures Lower(s) == s
  {
  }

  /** No errors at all fall to the general strategy. */
  lemma ClassifyEmptyExample()
    ensures ClassifyErrors([]) == General
  {
    assert ErrorText([]) == "";
  }

  lemma ClassifyAddressExample()
    ensures ClassifyErrors(["address format"]) == AddressFormat
  {
    var a := "address format";
    LowerNoCapitals(a);
    assert ErrorText([a]) == a;
    assert a[..7] == "address";
    assert a[8..14] == "format";
    ContainsAt(a, "address", 0);
    ContainsAt(a, "format", 8);
  }

  lemma ClassifyProviderExample()
    ensures ClassifyErrors(["service_provider"]) == ServiceProviderStructure
  {
    var s := "service_provider";
    LowerNoCapitals(s);
    assert ErrorText([s]) == s;
    assert s[..16] == "service_provider";
    AbsentCharNotContained(s, "address", 'a');
  }

  lemma ClassifyAmountExample()
    ensures ClassifyErrors(["amount"]) == AmountFormat
  {
    var m := "amount";
    LowerNoCapitals(m);
    assert ErrorText([m]) == m;
    assert m[..6] == "amount";
    AbsentCharNotContained(m, "address", 'd');
    AbsentCharNotContained(m, "service_provider", 'v');
  }

  /** The text an enhancer appends to the user prompt: two line breaks, a
      heading naming the enhancer's concern, then its instructions, line by
      line. */
  function Suffix(e: Enhancer): string {
    match e
    case EnhanceAddress =>
      "\n\nCRITICAL ADDRESS FORMATTING REQUIREMENTS:\n"
      + ("- The address MUST be a complete address with street, city, postal code, and country\n"
      + "- Format EXACTLY as: \"Street Number Street Name, City Postal Code, Country\"\n"
      + "- Example: \"Sarló u 7, Székesfehérvár 8000, Hungary\"\n"
      + "- DO NOT use partial addresses, abbreviations, or incomplete information\n"
      + "- If you can see any part of an address on the document, extract ALL visible components\n"
      + "- Look carefully for street numbers, street names, city names, postal codes, and country information\n"
      + "- Combine all address components into a single complete string\n"
      + "\n"
      + "POSITIVE ADDRESS EXAMPLES (CORRECT formats to follow):\n"
      + "\n"
      + "{\n"
      + "  \"service_provider\": {\n"
      + "    \"name\": \"Magyar Solutions Kft\",\n"
      + "    \"address\": \"Váci út 1-3, Budapest 1052, Hungary\"\n"
      + "  }\n"
      + "}\n"
      + "\n"
      + "{\n"
      + "  \"service_provider\": {\n"
      + "    \"name\": \"Berlin Tech GmbH\",\n"
      + "    \"address\": \"Unter den Linden 42, Berlin 10117, Germany\"\n"
      + "  }\n"
      + "}\n"
      + "\n"
      + "{\n"
      + "  \"service_provider\": {\n"
      + "    \"name\": \"NYC Services Inc\",\n"
      + "    \"address\": \"123 Business Street, New York, NY 10001, United States\"\n"
      + "  }\n"
      + "}\n"
      + "\n"
      + "NEGATIVE ADDRESS EXAMPLES (INCORRECT - DO NOT DO THIS):\n"
      + "\n"
      + "\"Budapest\" (too short, missing street and postal code)\n"
      + "\"Main Street 123, Berlin 10117\" (missing country)\n"
      + "\"Main Street 123 Berlin Germany\" (missing commas)\n"
      + "\"Address not available\" (placeholder text)\n"
      + "Just company name without address\n"
      + "\n"
      + "COMMON ADDRESS EXTRACTION MISTAKES TO AVOID:\n"
      + "- DO NOT return just the company name without address\n"
      + "- DO NOT return partial addresses like \"Budapest\" or \"Main Street\"\n"
      + "- DO NOT use placeholders like \"Address not provided\"\n"
      + "- DO NOT split address into multiple fields - combine into ONE string\n"
      + "- DO NOT forget commas between address components\n"
      + "- DO NOT omit country information from the address\n"
      + "\n"
      + "If you cannot find a complete address with at least street, city, and country components,\n"
      + "look more carefully at the entire document including headers, footers, and contact information sections.\n"
      + "        ")
    case EnhanceStructure =>
      "\n\nCRITICAL JSON STRUCTURE REQUIREMENTS:\n"
      + ("- service_provider MUST be an object (not a string) with \"name\" and \"address\" fields\n"
      + "- NEVER return service_provider as a simple string\n"
      + "- Use service_provider for ALL types of providers (stores, restaurants, companies, etc.)\n"
      + "\n"
      + "CORRECT FORMAT EXAMPLES:\n"
      + "\n"
      + "For invoices and receipts (service_provider):\n"
      + "{\n"
      + "  \"service_provider\": {\n"
      + "    \"name\": \"Tech Solutions Kft\",\n"
      + "    \"address\": \"Sarló u 7, Székesfehérvár 8000, Hungary\"\n"
      + "  }\n"
      + "}\n"
      + "\n"
      + "For stores/restaurants (service_provider):\n"
      + "{\n"
      + "  \"service_provider\": {\n"
      + "    \"name\": \"Café Central\",\n"
      + "    \"address\": \"Herrengasse 14, Wien 1010, Austria\"\n"
      + "  }\n"
      + "}\n"
      + "\n"
      + "INCORRECT FORMAT EXAMPLES (DO NOT DO THIS):\n"
      + "\n"
      + "{\n"
      + "  \"service_provider\": \"Just company name\"  // WRONG! Must be object\n"
      + "}\n"
      + "\n"
      + "{\n"
      + "  \"service_provider\": \"Store Name Only\"  // WRONG! Must be object\n"
      + "}\n"
      + "\n"
      + "{\n"
      + "  \"service_provider\": {\n"
      + "    \"name\": \"Company Name\"\n"
      + "    // WRONG! Missing address field\n"
      + "  }\n"
      + "}\n"
      + "\n"
      + "VERIFICATION CHECKLIST:\n"
      + "- Is service_provider an object with both \"name\" and \"address\"?\n"
      + "- Does the address follow the complete format with street, city, country?\n"
      + "- Is the JSON syntax valid (proper commas, brackets, quotes)?\n"
      + "\n"
      + "Double-check your JSON structure before returning the response.\n"
      + "        ")
    case EnhanceAmount =>
      "\n\nCRITICAL AMOUNT EXTRACTION REQUIREMENTS:\n"
      + ("- amount MUST be a numeric value (not text)\n"
      + "- Look for the total amount, final amount, or amount due\n"
      + "- Remove currency symbols, commas, and spaces\n"
      + "- Convert to decimal format (e.g., 1500.50)\n"
      + "- If you see \"1,500.50 EUR\", return just 1500.50 as the amount\n"
      + "\n"
      + "EXAMPLES:\n"
      + "- \"€1,500.50\" → amount: 1500.50\n"
      + "- \"$1000\" → amount: 1000.00\n"
      + "- \"2.500,75 HUF\" → amount: 2500.75\n"
      + "\n"
      + "Extract ONLY the numeric value without any text or symbols.\n"
      + "        ")
    case EnhanceGeneral =>
      "\n\nCRITICAL DATA EXTRACTION REQUIREMENTS:\n"
      + ("- Read the document VERY carefully and extract ALL visible information\n"
      + "- Pay special attention to addresses, company names, and amounts\n"
      + "- Look in headers, footers, contact sections, and invoice details\n"
      + "- Ensure ALL required fields are filled with actual data from the document\n"
      + "- Double-check that your extracted data matches what you see in the image\n"
      + "\n"
      + "If any field seems incomplete, look again at the entire document more carefully.\n"
      + "        ")
  }

  /** `_enhance_*_prompt(original_prompt, errors)`: the errors are not used. */
  function Enhance(e: Enhancer, originalPrompt: string, errors: seq<string>): string {
    originalPrompt + Suffix(e)
  }

  /** The retry's user prompt: the enhancer of the verdict's category
      applied to the original user prompt. */
  function EnhancedUserPrompt(userPrompt: string, errors: seq<string>): string {
    Enhance(RetryStrategies[ClassifyErrors(errors)], userPrompt, errors)
  }

  /** An enhanced prompt is the original prompt followed by the
      enhancer's fixed text, whatever the errors were. */
  lemma EnhanceKeepsPrompt(e: Enhancer, p: string, errs1: seq<string>, errs2: seq<string>)
    ensures StartsWith(Enhance(e, p, errs1), p)
    ensures Enhance(e, p, errs1) == Enhance(e, p, errs2)
  {
    assert Enhance(e, p, errs1)[..|p|] == p;
  }

  /** The fixed text before and after the attempt number in the retry note. */
  const AttemptNoteHead := "\n\nRETRY ATTEMPT "
  const AttemptNoteTail := ": Previous extraction had validation errors. Please extract more carefully."

  /** The text appended to the system prompt on attempt `n`. */
  function AttemptNote(n: int): string {
    AttemptNoteHead + IntToString(n) + AttemptNoteTail
  }

  /** The retry's system prompt on attempt `n`. */
  function RetrySystemPrompt(originalPrompt: string, n: int): string {
    originalPrompt + AttemptNote(n)
  }

  lemma {:induction false} NatToStringLong(n: nat)
    requires n >= 10
    ensures |NatToString(n)| >= 2
  {
  }

  /** Different numbers are written differently. */
  lemma {:induction false} NatToStringInjective(a: nat, b: nat)
    requires NatToString(a) == NatToString(b)
    ensures a == b
    decreases a
  {
    if a < 10 && b >= 10 {
      NatToStringLong(b);
    } else if a >= 10 && b < 10 {
      NatToStringLong(a);
    } else if a >= 10 && b >= 10 {
      var sa, sb := NatToString(a), NatToString(b);
      assert sa[|sa| - 1] == DigitChar(a % 10) && sb[|sb| - 1] == DigitChar(b % 10);
      assert NatToString(a / 10) == sa[..|sa| - 1] == sb[..|sb| - 1] == NatToString(b / 10);
      NatToStringInjective(a / 10, b / 10);
    }
  }

  /** The attempt number can be read back from the retry's system prompt:
      two attempts never send the same system prompt. */
  lemma RetrySystemPromptInjective(p: string, m: nat, n: nat)
    requires RetrySystemPrompt(p, m) == RetrySystemPrompt(p, n)
    ensures m == n
  {
    var sm, sn := IntToString(m), IntToString(n);
    MiddleCancel(p, AttemptNoteHead, sm, sn, AttemptNoteTail);
    NatToStringInjective(m, n);
  }

  /** The retry's system prompt keeps the original one as its beginning. */
  lemma RetrySystemPromptExtends(p: string, n: int)
    ensures StartsWith(RetrySystemPrompt(p, n), p)
    ensures |RetrySystemPrompt(p, n)| > |p|
  {
    assert RetrySystemPrompt(p, n)[..|p|] == p;
  }

  // ---------------------------------------------------------------------------
  // Verdicts of the record validator
  // ---------------------------------------------------------------------------

  /** A text beginning with a word free of capitals still begins with it once
      lower-cased. */
  lemma LowerKeepsPrefix(s: string, p: string)
    requires StartsWith(s, p)
    requires forall k :: 0 <= k < |p| ==> !('A' <= p[k] <= 'Z')
    ensures StartsWith(Lower(s), p)
  {
    assert forall k :: 0 <= k < |p| ==> Lower(s)[k] == LowerChar(s[k]) == p[k];
    assert Lower(s)[..|p|] == p;
  }

  /** Every provider error of the validator mentions "service_provider". */
  lemma ProviderErrorRetryable(e: string)
    requires StartsWith(e, "service_provider")
    ensures Retryable(e)
    ensures Contains(Lower(e), "service_provider")
  {
    LowerKeepsPrefix(e, "service_provider");
    assert RetryableKeywords[1] == "service_provider";
  }

  /** Unless the amount conversion crashed the check, a verdict of the
      record validator is retried exactly when one of its two provider
      blocks was rejected; an amount error alone is never retried. */
  lemma ValidatorVerdictRetried(conv: Conversions, data: Record)
    requires !AmountCrashed(conv, data)
    ensures ShouldRetry(Validate(conv, data)) <==>
      !(BlockAccepted(conv, data, "service_provider") && BlockAccepted(conv, data, "merchant"))
  {
    var v := Validate(conv, data);
    ValidateErrors(conv, data);
    var sp := BlockIssues(conv, data, "service_provider");
    var me := BlockIssues(conv, data, "merchant");
    var am := AmountIssues(conv, data);
    assert am == [] || am == [AmountError];
    ShouldRetryMeaning(v);
    if sp != [] {
      assert v.errors[0] == sp[0];
      ProviderErrorRetryable(sp[0]);
    } else if me != [] {
      assert v.errors[0] == me[0];
      ProviderErrorRetryable(me[0]);
    } else {
      assert v.errors == am;
      if am != [] {
        AmountErrorNotRetryable(v);
      }
    }
  }

  /** Unless the amount conversion crashed the check, a retried verdict of
      the record validator always falls in the address-format or the
      service-provider category: the amount and general strategies are
      never chosen for it. */
  lemma ValidatorVerdictCategory(conv: Conversions, data: Record)
    requires !AmountCrashed(conv, data)
    requires ShouldRetry(Validate(conv, data))
    ensures ClassifyErrors(Validate(conv, data).errors) in {AddressFormat, ServiceProviderStructure}
  {
    var v := Validate(conv, data);
    ValidatorVerdictRetried(conv, data);
    ValidateErrors(conv, data);
    var sp := BlockIssues(conv, data, "service_provider");
    var me := BlockIssues(conv, data, "merchant");
    if sp != [] {
      assert v.errors[0] == sp[0];
    } else {
      assert v.errors[0] == me[0];
    }
    ProviderErrorRetryable(v.errors[0]);
    JoinedTextContains(v.errors, 0, "service_provider");
  }
}
