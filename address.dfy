/** `validate_address_format`: the structural check of a free-text postal
    address ("Street, City PostalCode, Country"), its verdict and the
    normalised form it produces. */
module AddressValidation {
  import opened Wrappers
  import opened Text
  import opened Values

  const EmptyError := "Address cannot be empty or null"
  const TooShortError := "Address is too short (minimum 5 characters)"
  const CommaError := "Address should contain at least 2 commas separating street, city, and country"
  const FormatSuggestion := "Format should be: 'Street Address, City PostalCode, Country'"
  const StreetError := "Street address is too short or missing"
  const CityError := "City and postal code section is too short or missing"
  const PostalSuggestion := "Consider including postal code with city (e.g., 'Budapest 1051')"
  const CountryError := "Country is missing or too short"
  const UnknownError := "Address contains 'unknown' - please provide specific location"
  const NotApplicableError := "Address contains 'N/A' - please provide actual address"

  /** `AddressValidationResult`. */
  datatype AddressVerdict = AddressVerdict(
    isValid: bool,
    formattedAddress: Option<string>,
    errors: seq<string>,
    suggestions: seq<string>)

  // ---------------------------------------------------------------------------
  // The postal-code pattern \b\d{4,6}\b
  // ---------------------------------------------------------------------------

  /** A decimal digit (`\d`), ASCII only. */
  predicate IsDigit(c: char) {
    '0' <= c <= '9'
  }

  /** A regular-expression word character (`\w`), ASCII letters, digits and `_`. */
  predicate IsWordChar(c: char) {
    ('a' <= c <= 'z') || ('A' <= c <= 'Z') || IsDigit(c) || c == '_'
  }

  /** `s[i..j]` is four to six digits with no word character on either side:
      a match of `\b\d{4,6}\b`. */
  predicate PostalCodeAt(s: string, i: int, j: int)
    requires 0 <= i <= j <= |s|
  {
    && 4 <= j - i <= 6
    && (forall k | i <= k < j :: IsDigit(s[k]))
    && (i == 0 || !IsWordChar(s[i - 1]))
    && (j == |s| || !IsWordChar(s[j]))
  }

  /** Some match of the pattern starts at position `i` or later. */
  predicate PostalCodeFrom(s: string, i: nat)
    requires i <= |s|
    decreases |s| - i
  {
    (i + 4 <= |s| && PostalCodeAt(s, i, i + 4))
    || (i + 5 <= |s| && PostalCodeAt(s, i, i + 5))
    || (i + 6 <= |s| && PostalCodeAt(s, i, i + 6))
    || (i < |s| && PostalCodeFrom(s, i + 1))
  }

  /** `re.search(r'\b\d{4,6}\b', s)` finds a match. */
  predicate HasPostalCode(s: string) {
    PostalCodeFrom(s, 0)
  }

  lemma {:induction false} PostalCodeFromMeaning(s: string, i: nat)
    requires i <= |s|
    ensures PostalCodeFrom(s, i) <==> exists m, n | i <= m <= n <= |s| :: PostalCodeAt(s, m, n)
    decreases |s| - i
  {
    if i < |s| {
      PostalCodeFromMeaning(s, i + 1);
      if exists m, n | i <= m <= n <= |s| :: PostalCodeAt(s, m, n) {
        var m, n :| i <= m <= n <= |s| && PostalCodeAt(s, m, n);
        if m == i {
          assert n == i + 4 || n == i + 5 || n == i + 6;
        } else {
          assert i + 1 <= m;
        }
      }
    }
  }

  /** The search finds a match exactly when some segment of `s` matches the
      pattern: the scan over start positions is the regular expression's
      meaning. */
  lemma PostalCodeSearch(s: string)
    ensures HasPostalCode(s) <==> exists m, n | 0 <= m <= n <= |s| :: PostalCodeAt(s, m, n)
  {
    PostalCodeFromMeaning(s, 0);
  }

  // ---------------------------------------------------------------------------
  // The verdict
  // ---------------------------------------------------------------------------

  /** `address.lower().count(w) > 0`. */
  predicate Mentions(address: string, w: string) {
    Contains(Lower(address), w)
  }

  /** `[part.strip() for part in address.split(',')]`. */
  function Parts(address: string): (parts: seq<string>)
    ensures |parts| == CountChar(address, ',') + 1
  {
    StripAll(Split(address, ','))
  }

  /** `messages` with `message` appended when `failed` holds. */
  function AppendIf(messages: seq<string>, failed: bool, message: string): seq<string> {
    if failed then messages + [message] else messages
  }

  /** The checks that run once the address has at least two commas, in the
      order the source runs them: street, city/postal, country, placeholders. */
  function SegmentErrors(address: string, parts: seq<string>): seq<string>
    requires |parts| >= 3
  {
    var e := AppendIf([], |parts[0]| < 2, StreetError);
    var e := AppendIf(e, |parts[1]| < 2, CityError);
    var e := AppendIf(e, |parts[|parts| - 1]| < 2, CountryError);
    var e := AppendIf(e, Mentions(address, "unknown"), UnknownError);
    AppendIf(e, Mentions(address, "n/a"), NotApplicableError)
  }

  /** The errors for a trimmed address of at least five characters. */
  function TrimmedErrors(address: string): seq<string> {
    if CountChar(address, ',') < 2 then [CommaError] else SegmentErrors(address, Parts(address))
  }

  /** The suggestions for a trimmed address of at least five characters. */
  function TrimmedSuggestions(address: string): seq<string> {
    if CountChar(address, ',') < 2 then [FormatSuggestion]
    else if HasPostalCode(Parts(address)[1]) then []
    else [PostalSuggestion]
  }

  /** Every segment is comma-free and already trimmed. */
  lemma PartsStripped(address: string)
    ensures forall k :: 0 <= k < |Parts(address)| ==> ',' !in Parts(address)[k]
    ensures StripAll(Parts(address)) == Parts(address)
  {
    var split := Split(address, ',');
    forall k | 0 <= k < |split|
      ensures ',' !in Strip(split[k]) && Strip(Strip(split[k])) == Strip(split[k])
    {
      StripKeepsAbsent(split[k], ',');
      StripIdempotent(split[k]);
    }
  }

  /** The segment checks find nothing exactly when every segment is long
      enough and neither placeholder occurs; each placeholder found is
      reported. */
  lemma SegmentErrorsMeaning(address: string, parts: seq<string>)
    requires |parts| >= 3
    ensures SegmentErrors(address, parts) == [] <==>
      |parts[0]| >= 2 && |parts[1]| >= 2 && |parts[|parts| - 1]| >= 2
      && !Mentions(address, "unknown") && !Mentions(address, "n/a")
    ensures Mentions(address, "unknown") ==> UnknownError in SegmentErrors(address, parts)
    ensures Mentions(address, "n/a") ==> NotApplicableError in SegmentErrors(address, parts)
  {
  }

  /** The verdict for a trimmed address of at least five characters. */
  function CheckTrimmed(address: string): AddressVerdict {
    var errors := TrimmedErrors(address);
    AddressVerdict(errors == [], if errors == [] then Some(Join(Parts(address), ", ")) else None,
                   errors, TrimmedSuggestions(address))
  }

  /** The verdict `validate_address_format(address)` returns. */
  function AddressCheck(address: Value): AddressVerdict {
    if !address.Str? || address.s == "" then
      AddressVerdict(false, None, [EmptyError], [])
    else if |Strip(address.s)| < 5 then
      AddressVerdict(false, None, [TooShortError], [])
    else
      CheckTrimmed(Strip(address.s))
  }

  /** `validate_address_format`, step by step as the source runs it. */
  method ValidateAddressFormat(address: Value) returns (result: AddressVerdict)
    ensures result == AddressCheck(address)
  {
    if !address.Str? || address.s == "" {
      return AddressVerdict(false, None, [EmptyError], []);
    }
    var a := Strip(address.s);
    if |a| < 5 {
      return AddressVerdict(false, None, [TooShortError], []);
    }
    var errors: seq<string> := [];
    var suggestions: seq<string> := [];
    var commaCount := CountChar(a, ',');
    if commaCount < 2 {
      errors := errors + [CommaError];
      suggestions := suggestions + [FormatSuggestion];
    }
    var parts := Parts(a);
    if commaCount >= 2 {
      errors, suggestions := CheckSegments(a, parts);
    }
    var formatted := a;
    if commaCount >= 2 && errors == [] {
      formatted := FormatParts(parts);
      PartsStripped(a);
    }
    assert errors == TrimmedErrors(a) && suggestions == TrimmedSuggestions(a);
    var isValid := errors == [];
    result := AddressVerdict(isValid, if isValid then Some(formatted) else None, errors, suggestions);
  }

  /** The structure and placeholder checks on an address with at least two commas. */
  method CheckSegments(address: string, parts: seq<string>) returns (errors: seq<string>, suggestions: seq<string>)
    requires |parts| >= 3
    ensures errors == SegmentErrors(address, parts)
    ensures suggestions == if HasPostalCode(parts[1]) then [] else [PostalSuggestion]
  {
    errors, suggestions := [], [];
    var street, cityPostal, country := parts[0], parts[1], parts[|parts| - 1];
    if |street| < 2 {
      errors := errors + [StreetError];
    }
    if |cityPostal| < 2 {
      errors := errors + [CityError];
    }
    if !HasPostalCode(cityPostal) {
      suggestions := suggestions + [PostalSuggestion];
    }
    if |country| < 2 {
      errors := errors + [CountryError];
    }
    if Mentions(address, "unknown") {
      errors := errors + [UnknownError];
    }
    if Mentions(address, "n/a") {
      errors := errors + [NotApplicableError];
    }
  }

  /** The formatting loop: each segment stripped once more, joined with ", ". */
  method FormatParts(parts: seq<string>) returns (formatted: string)
    ensures formatted == Join(StripAll(parts), ", ")
  {
    var formattedParts: seq<string> := [];
    for i := 0 to |parts|
      invariant formattedParts == StripAll(parts[..i])
    {
      var cleanedPart := Strip(parts[i]);
      formattedParts := formattedParts + [cleanedPart];
    }
    assert parts[..|parts|] == parts;
    formatted := Join(formattedParts, ", ");
  }

  // ---------------------------------------------------------------------------
  // Properties of the verdict
  // ---------------------------------------------------------------------------

  /** The two early exits: an empty or non-string address, and an address
      shorter than five characters once trimmed, each give exactly one error
      and no suggestion, and no other check runs. */
  lemma EarlyExits(address: Value)
    ensures !address.Str? || address.s == "" ==>
      AddressCheck(address) == AddressVerdict(false, None, [EmptyError], [])
    ensures address.Str? && address.s != "" && |Strip(address.s)| < 5 ==>
      AddressCheck(address) == AddressVerdict(false, None, [TooShortError], [])
  {
  }

  /** A non-empty address of five characters or more once trimmed is judged
      on its trimmed form. */
  lemma AddressCheckTrimmed(s: string)
    requires s != "" && |Strip(s)| >= 5
    ensures AddressCheck(Str(s)) == CheckTrimmed(Strip(s))
  {
  }

  lemma TrimmedFewCommas(a: string)
    requires CountChar(a, ',') < 2
    ensures CheckTrimmed(a) == AddressVerdict(false, None, [CommaError], [FormatSuggestion])
  {
  }

  /** Every verdict is consistent: valid exactly when it has no error, and
      carrying a formatted address exactly when valid. */
  lemma VerdictShape(address: Value)
    ensures AddressCheck(address).isValid <==> AddressCheck(address).errors == []
    ensures AddressCheck(address).formattedAddress.Some? <==> AddressCheck(address).isValid
  {
  }

  /** With fewer than two commas the address is invalid with exactly the comma
      error and the format suggestion: no segment or placeholder check runs,
      however good the segments are. */
  lemma FewCommasRejected(s: string)
    requires s != "" && |Strip(s)| >= 5 && CountChar(Strip(s), ',') < 2
    ensures AddressCheck(Str(s)) == AddressVerdict(false, None, [CommaError], [FormatSuggestion])
  {
    AddressCheckTrimmed(s);
    TrimmedFewCommas(Strip(s));
  }

  lemma TrimmedSegmented(a: string)
    requires CountChar(a, ',') >= 2
    ensures var parts := Parts(a);
      CheckTrimmed(a).isValid <==>
        |parts[0]| >= 2 && |parts[1]| >= 2 && |parts[|parts| - 1]| >= 2
        && !Mentions(a, "unknown") && !Mentions(a, "n/a")
    ensures CheckTrimmed(a).isValid <==> CheckTrimmed(a).errors == []
    ensures CheckTrimmed(a).isValid ==> CheckTrimmed(a).formattedAddress == Some(Join(Parts(a), ", "))
    ensures !CheckTrimmed(a).isValid ==> CheckTrimmed(a).formattedAddress == None
    ensures CheckTrimmed(a).suggestions == if HasPostalCode(Parts(a)[1]) then [] else [PostalSuggestion]
    ensures Mentions(a, "unknown") ==> UnknownError in CheckTrimmed(a).errors
    ensures Mentions(a, "n/a") ==> NotApplicableError in CheckTrimmed(a).errors
  {
    SegmentErrorsMeaning(a, Parts(a));
  }

  /** With at least two commas the address is valid exactly when street, city
      and country each have two characters or more and neither placeholder
      occurs, case-insensitively, anywhere in it; the postal code plays no
      part in validity and only decides the suggestion. A valid address is
      formatted as its trimmed segments joined with ", ". */
  lemma SegmentedVerdict(s: string)
    requires s != "" && |Strip(s)| >= 5 && CountChar(Strip(s), ',') >= 2
    ensures var a := Strip(s); var parts := Parts(a);
      AddressCheck(Str(s)).isValid <==>
        |parts[0]| >= 2 && |parts[1]| >= 2 && |parts[|parts| - 1]| >= 2
        && !Mentions(a, "unknown") && !Mentions(a, "n/a")
    ensures AddressCheck(Str(s)).isValid <==> AddressCheck(Str(s)).errors == []
    ensures AddressCheck(Str(s)).formattedAddress ==
      if AddressCheck(Str(s)).isValid then Some(Join(Parts(Strip(s)), ", ")) else None
    ensures var parts := Parts(Strip(s));
      AddressCheck(Str(s)).suggestions == if HasPostalCode(parts[1]) then [] else [PostalSuggestion]
    ensures Mentions(Strip(s), "unknown") ==> UnknownError in AddressCheck(Str(s)).errors
    ensures Mentions(Strip(s), "n/a") ==> NotApplicableError in AddressCheck(Str(s)).errors
  {
    AddressCheckTrimmed(s);
    TrimmedSegmented(Strip(s));
  }

  // ---------------------------------------------------------------------------
  // Re-validating the formatted address
  // ---------------------------------------------------------------------------

  /** The join of at least three trimmed pieces, the outer two of two
      characters or more, is its own trimmed form and has five characters or
      more. */
  lemma JoinTrimmed(parts: seq<string>)
    requires |parts| >= 3 && |parts[0]| >= 2 && |parts[|parts| - 1]| >= 2
    requires Strip(parts[0]) == parts[0] && Strip(parts[|parts| - 1]) == parts[|parts| - 1]
    ensures var f := Join(parts, ", "); Strip(f) == f && |f| >= 5
  {
    var f := Join(parts, ", ");
    var first, last := parts[0], parts[|parts| - 1];
    assert !IsSpace(first[0]) && !IsSpace(last[|last| - 1]);
    var rest := Join(parts[1..], ", ");
    JoinLast(parts[1..], ", ");
    assert f == first + ", " + rest;
    assert |f| == |first| + 2 + |rest|;
    assert f[0] == first[0];
    assert f[|f| - 1] == rest[|rest| - 1];
    StripFixed(f);
  }

  /** The join of comma-free pieces has one comma per separator. */
  lemma JoinCommas(parts: seq<string>)
    requires |parts| >= 1
    requires forall k :: 0 <= k < |parts| ==> ',' !in parts[k]
    ensures CountChar(Join(parts, ", "), ',') == |parts| - 1
  {
    assert ", " == [','] + " ";
    CountCharConcat([','], " ", ',');
    JoinCount(parts, ", ", ',');
  }

  /** The join of trimmed, comma-free pieces splits back into them. */
  lemma JoinParts(parts: seq<string>)
    requires |parts| >= 1
    requires forall k :: 0 <= k < |parts| ==> ',' !in parts[k] && Strip(parts[k]) == parts[k]
    ensures Parts(Join(parts, ", ")) == parts
  {
    var f := Join(parts, ", ");
    assert "" + f == f;
    assert AllSpace("");
    SplitJoinStripped("", parts);
  }

  /** Neither placeholder can appear in the join of segments of an address
      that contains none. */
  lemma FormattedHasNoPlaceholder(address: string, w: string)
    requires w == "unknown" || w == "n/a"
    requires !Mentions(address, w)
    ensures !Mentions(Join(Parts(address), ", "), w)
  {
    var parts := Parts(address);
    if Mentions(Join(parts, ", "), w) {
      assert Lower(", ") == ", ";
      var k := JoinContains(parts, ", ", w);
      StripContains(Split(address, ',')[k], w);
      SplitContains(address, ',', k, w);
    }
  }

  /** The formatted form of a valid trimmed address: trimmed, long enough,
      with the same commas and the same segments. */
  lemma FormattedShape(a: string)
    requires CountChar(a, ',') >= 2
    requires |Parts(a)[0]| >= 2 && |Parts(a)[|Parts(a)| - 1]| >= 2
    ensures var f := Join(Parts(a), ", ");
      && f != "" && Strip(f) == f && |f| >= 5 && CountChar(f, ',') == CountChar(a, ',')
      && Parts(f) == Parts(a)
  {
    var parts := Parts(a);
    PartsStripped(a);
    JoinTrimmed(parts);
    JoinCommas(parts);
    JoinParts(parts);
  }

  /** Two trimmed addresses with at least two commas, the same segments and
      the same placeholders get the same verdict. */
  lemma SameSegmentsSameVerdict(a: string, b: string)
    requires CountChar(a, ',') >= 2 && CountChar(b, ',') >= 2 && Parts(a) == Parts(b)
    requires Mentions(a, "unknown") == Mentions(b, "unknown")
    requires Mentions(a, "n/a") == Mentions(b, "n/a")
    ensures CheckTrimmed(a) == CheckTrimmed(b)
  {
    assert SegmentErrors(a, Parts(a)) == SegmentErrors(b, Parts(b));
  }

  lemma TrimmedRevalidates(a: string)
    requires CountChar(a, ',') >= 2 && CheckTrimmed(a).isValid
    ensures CheckTrimmed(Join(Parts(a), ", ")) == CheckTrimmed(a)
  {
    TrimmedSegmented(a);
    FormattedShape(a);
    FormattedHasNoPlaceholder(a, "unknown");
    FormattedHasNoPlaceholder(a, "n/a");
    SameSegmentsSameVerdict(Join(Parts(a), ", "), a);
  }

  /** An address that passes is valid with at least two commas once trimmed. */
  lemma ValidIsSegmented(s: string)
    requires AddressCheck(Str(s)).isValid
    ensures s != "" && |Strip(s)| >= 5 && CountChar(Strip(s), ',') >= 2
    ensures CheckTrimmed(Strip(s)).isValid
  {
    if CountChar(Strip(s), ',') < 2 {
      TrimmedFewCommas(Strip(s));
    }
  }

  /** Re-validating the formatted address of a valid verdict gives the same
      verdict: valid, with the same formatted string and suggestions. */
  lemma FormattedRevalidates(s: string)
    requires AddressCheck(Str(s)).isValid
    ensures AddressCheck(Str(s)).formattedAddress.Some?
    ensures var f := AddressCheck(Str(s)).formattedAddress.value;
      AddressCheck(Str(f)) == AddressCheck(Str(s))
  {
    ValidIsSegmented(s);
    var a := Strip(s);
    AddressCheckTrimmed(s);
    TrimmedSegmented(a);
    FormattedShape(a);
    var f := Join(Parts(a), ", ");
    AddressCheckTrimmed(f);
    TrimmedRevalidates(a);
  }

  /** The formatted address of a valid verdict has five characters or more,
      passes the address check, and is its own formatted form. */
  lemma FormattedStable(s: string)
    requires AddressCheck(Str(s)).isValid
    ensures AddressCheck(Str(s)).formattedAddress.Some?
    ensures var f := AddressCheck(Str(s)).formattedAddress.value;
      |f| >= 5 && AddressCheck(Str(f)).isValid && AddressCheck(Str(f)).formattedAddress == Some(f)
  {
    FormattedRevalidates(s);
    var f := AddressCheck(Str(s)).formattedAddress.value;
    ValidIsSegmented(f);
  }

  // ---------------------------------------------------------------------------
  // The postal-code pattern on examples
  // ---------------------------------------------------------------------------

  /** The source's own example city segment carries a postal code. */
  lemma PostalCodeExample()
    ensures HasPostalCode("Budapest 1051")
  {
    var s := "Budapest 1051";
    assert PostalCodeAt(s, 9, 13);
    PostalCodeSearch(s);
  }

  /** A run of three digits is not a postal code. */
  lemma PostalCodeShortExample()
    ensures !HasPostalCode("Budapest 105")
  {
    PostalCodeSearch("Budapest 105");
  }

  /** A run of seven digits is not a postal code. */
  lemma PostalCodeLongExample()
    ensures !HasPostalCode("Budapest 1051234")
  {
    PostalCodeSearch("Budapest 1051234");
  }
}
