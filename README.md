# Extraction validation and adaptive retry, in Dafny

This project models the part of the invoice OCR back end that decides
whether an extraction is acceptable and what happens when it is not.

- **The address check** (`validate_address_format`). It takes a free-text
  address through these steps in order:
  - trim it and check its length;
  - require two commas;
  - check the street, city and country segments;
  - look for a postal code, which can only add a suggestion;
  - reject the words `unknown` and `n/a`;
  - store the address as the `", "`-join of its trimmed segments.
- **The record check** (`validate_extracted_data` with the
  `ServiceProviderModel` rules). It fills a verdict for one extracted
  document:
  - it converts or validates `service_provider`;
  - it migrates the legacy `merchant` key;
  - it converts `amount` with `float()`;
  - it upper-cases `currency`.
  It also has the outer exception handler. `format_validation_response`
  shapes the result for the API.
- **The retry strategy** (`ReprocessingStrategy`). It has:
  - the keyword filter `should_retry`;
  - the priority classification `classify_errors`;
  - the four prompt enhancers and their table;
  - the retry note added to the system prompt.
- **The retry coordinator.**
  - `reprocess_with_enhanced_prompt` is a chain of at most two calls of the
    vision model, each followed by a new record check.
  - `reprocess_multiple_pages` tries the pages in turn and stops at the
    first success.
  - `create_reprocessing_summary` builds the report.
  - The rule the HTTP layer uses to pick between a retried result and a
    summary is included too.
- **The file-extension check** (`validate_file_extension`). It compares the
  lower-cased suffix of the file name's last path component with the
  allowed set `{".jpg", ".jpeg", ".png", ".pdf"}`.

Files and modules:

| file | module | what it holds |
|---|---|---|
| `wrappers.dfy` | `Wrappers` | `Option` and `Result` |
| `values.dfy` | `Values` | JSON values |
| `text.dfy` | `Text` | Python's string operations, with their laws |
| `address.dfy` | `AddressValidation` | the address check |
| `validators.dfy` | `Validators` | the record check and the response format |
| `strategy.dfy` | `RetryStrategy` | the retry strategy |
| `reprocessing.dfy` | `Reprocessing` | the coordinator and the caller's choice |
| `utils.dfy` | `FileExtensions` | the file-extension check |

Some of the `Values` and `Text` details:
- A record is a `map<string, Value>`.
- `float()` and `str()` of a JSON value are parameters: a `Conversions`
  value that holds two functions.
- The `Text` operations are `strip()`, `lower()`, `upper()`, `split(',')`,
  `", ".join`, `w in s`, `rfind` and `str(int)`.

Where the source changes state step by step, the model does the same:
- `validate_address_format` and `validate_extracted_data` are methods. They
  append to lists and update the result dictionary.
- `reprocess_with_enhanced_prompt` is a recursive method.
- `reprocess_multiple_pages` is a method with a `for` loop and an early
  `break`.

Each method is proved equal to a function. The properties are proved as
lemmas about that function.

The coordinator is defined over a `Policy`: the retry filter, the
classification, the two retry prompts and the record check. Its lemmas hold
for every policy. The program's own policy is `Program(conv)`, which is the
strategy of `strategy.dfy` with `Validate`. The lemmas about that instance
(`ProgramFirstRequest`, `ProgramLostAmountAttempt`) are stated for
`StrategyPolicy(check)` with any checking function.

Behaviour of the code that the model follows, where a reader might expect
something else:
- **The merchant block runs after the service-provider block**
  (validators.py:149 and 184-192). A `merchant` key overwrites whatever the
  first block stored and adds its own errors after the first block's
  (`ProviderBlocksErrors`, `ValidateProvider`).
- **The placeholder words are only checked when there are two commas**
  (validators.py:78, 101-106). `FewCommasRejected` shows that a short
  comma-free address carries only the comma error.
- **A failing address gives one error line.** It is the joined message
  `Invalid address format: ...`, not one line per address error
  (validators.py:36; `ModelFieldErrors`, `CommaFreeProviderRefused`).
- **The keyword `"Amount must be a valid number"` is compared with a
  lower-cased error, so it never matches** (reprocessing.py:41, 47). A
  verdict whose only error is the amount error is not retried
  (`AmountErrorNotRetryable`).
- **A retry whose new verdict is not worth retrying loses its record.** The
  recursive call (reprocessing.py:287-293) then returns the "not
  applicable" dictionary for the new verdict. The one model call made is
  reported as no attempt (`retry_attempted` false, no `retry_attempt`), and
  the summary counts zero attempts (`LostAttempt`). Because of the amount
  keyword, this is what happens when the first retry fixes everything but
  the amount (`ProgramLostAmountAttempt`).
- **In a two-call chain, `original_errors` come from the verdict that
  triggered the second call**, not from the caller's verdict
  (reprocessing.py:291, 299; `FirstAttemptChain`).
- **Re-validation is stable for stored documents, with one exception.** For
  every valid document (`RevalidationStable`):
  - re-validating the corrected data gives back the same data;
  - it is valid again.

  This needs `float()` to be the identity on floats, and the stored
  provider must not come from a bare string. A bare-string provider is the
  exception. It is stored with the placeholder address "Address extraction
  needed", which has no comma. The validator then refuses that stored
  value (`StringProviderNotStable`).

## Model

| member | source | states |
|---|---|---|
| `Text.Strip` | backend/app/validators.py:59 | `strip()`: the result is no longer than the input and is empty or begins and ends with a non-whitespace character; `StripMeaning` says what is removed |
| `Text.StripMeaning` | backend/app/validators.py:59 | the input is whitespace, then the stripped text, then whitespace, so `strip()` removes leading and trailing whitespace and nothing else |
| `Text.StripIdempotent` | backend/app/validators.py:59 | trimming twice is trimming once |
| `Text.Lower` | backend/app/validators.py:102 | lower-casing keeps the length and maps each character by itself |
| `Text.Upper` | backend/app/validators.py:242 | upper-casing keeps the length and maps each character by itself |
| `Text.UpperIdempotent` | backend/app/validators.py:242 | upper-casing twice is upper-casing once |
| `Text.Split` | backend/app/validators.py:76 | `split(',')` gives one piece more than there are commas, and no piece holds a comma |
| `Text.SplitContains` | backend/app/validators.py:76 | a word found in a lower-cased piece is found in the lower-cased whole |
| `Text.SplitJoinStripped` | backend/app/validators.py:117 | splitting a `", "`-join of trimmed, comma-free pieces and trimming each piece gives the pieces back |
| `Text.RFind` | backend/app/utils.py:104 | the index found is the last occurrence of the character, or -1 when it does not occur |
| `Values.PyStr` | backend/app/validators.py:242 | `str()` of a string is the string itself |
| `AddressValidation.ValidateAddressFormat` | backend/app/validators.py:42-126 | the step-by-step method returns exactly the verdict `AddressCheck` defines |
| `AddressValidation.AddressCheck` | backend/app/validators.py:42-126 | defines the verdict of `validate_address_format`: the two early returns, then `CheckTrimmed` of the trimmed text; its meaning is stated by `EarlyExits`, `AddressCheckTrimmed`, `SegmentedVerdict`, `FewCommasRejected` and `VerdictShape` |
| `AddressValidation.CheckTrimmed` | backend/app/validators.py:66-126 | defines the verdict past the early exits: the comma test, the segment checks, the formatting and `is_valid`; its meaning is stated by `TrimmedFewCommas` and `TrimmedSegmented` |
| `AddressValidation.SegmentErrors` | backend/app/validators.py:84-106 | defines the errors appended when there are two commas, in source order; its meaning is stated by `SegmentErrorsMeaning` |
| `AddressValidation.HasPostalCode` | backend/app/validators.py:93-94 | defines `re.search(r'\b\d{4,6}\b', city_postal)` as a scan; its meaning is stated by `PostalCodeSearch` |
| `AddressValidation.CheckSegments` | backend/app/validators.py:78-106 | with two commas, the appended errors are the segment and placeholder errors, and the only suggestion is the postal one, made exactly when the city segment has no postal code |
| `AddressValidation.FormatParts` | backend/app/validators.py:110-117 | the loop's result is the `", "`-join of the trimmed segments |
| `AddressValidation.Parts` | backend/app/validators.py:76 | an address with c commas has c + 1 segments |
| `AddressValidation.PartsStripped` | backend/app/validators.py:76 | no segment holds a comma, and every segment is already trimmed |
| `AddressValidation.PostalCodeFromMeaning` | backend/app/validators.py:93-94 | the postal-code scan from position i succeeds exactly when a word-bounded run of 4 to 6 digits starts at or after i |
| `AddressValidation.PostalCodeSearch` | backend/app/validators.py:93-94 | `re.search(r'\b\d{4,6}\b', s)`, with `\d` read as an ASCII digit and `\w` as an ASCII letter, digit or `_`, succeeds exactly when such a run exists in s |
| `AddressValidation.PostalCodeExample` | backend/app/validators.py:95 | the suggestion's own example "Budapest 1051" carries a postal code |
| `AddressValidation.PostalCodeShortExample` | backend/app/validators.py:93 | a run of three digits is not a postal code |
| `AddressValidation.PostalCodeLongExample` | backend/app/validators.py:93 | a run of seven digits is not a postal code |
| `AddressValidation.SegmentErrorsMeaning` | backend/app/validators.py:84-106 | no segment error exactly when street, city and country segments have at least 2 characters and neither `unknown` nor `n/a` occurs (case-insensitively); each of the two words adds its error |
| `AddressValidation.EarlyExits` | backend/app/validators.py:53-64 | an empty or non-string address gives exactly the empty-address error; a trimmed length under 5 gives exactly the too-short error; neither gives a suggestion |
| `AddressValidation.AddressCheckTrimmed` | backend/app/validators.py:59-64 | past the early exits the verdict depends only on the trimmed text |
| `AddressValidation.TrimmedFewCommas` | backend/app/validators.py:70-78 | with fewer than two commas the verdict is invalid, with exactly the comma error and the format suggestion |
| `AddressValidation.FewCommasRejected` | backend/app/validators.py:59-78 | the same for an untrimmed input long enough to pass the early exits: no segment or placeholder check runs |
| `AddressValidation.VerdictShape` | backend/app/validators.py:119-126 | valid exactly when there is no error, and a formatted address exactly when valid |
| `AddressValidation.TrimmedSegmented` | backend/app/validators.py:78-126 | with two commas: valid exactly when the three segments are long enough and no placeholder word occurs; the formatted address is the join of the segments; the suggestion depends only on the postal code; each placeholder word gives its error |
| `AddressValidation.SegmentedVerdict` | backend/app/validators.py:59-126 | the same for the full check, on the trimmed input |
| `AddressValidation.JoinTrimmed` | backend/app/validators.py:117 | the join of three or more segments whose outer ones are trimmed and have 2 characters is trimmed and at least 5 long |
| `AddressValidation.JoinCommas` | backend/app/validators.py:117 | the join of k comma-free segments has k - 1 commas |
| `AddressValidation.JoinParts` | backend/app/validators.py:117 | the segments of the join of trimmed, comma-free segments are those segments |
| `AddressValidation.FormattedHasNoPlaceholder` | backend/app/validators.py:102-117 | joining the segments cannot create a placeholder word that the address did not hold |
| `AddressValidation.FormattedShape` | backend/app/validators.py:108-117 | the formatted address is non-empty, trimmed, at least 5 long, and has the same commas and the same segments as the input |
| `AddressValidation.SameSegmentsSameVerdict` | backend/app/validators.py:70-126 | two trimmed addresses with the same segments and the same placeholder words get the same verdict |
| `AddressValidation.TrimmedRevalidates` | backend/app/validators.py:108-126 | re-checking the formatted form of a valid trimmed address gives the same verdict |
| `AddressValidation.ValidIsSegmented` | backend/app/validators.py:53-119 | a valid address is non-empty, at least 5 long once trimmed, and has two commas |
| `AddressValidation.FormattedRevalidates` | backend/app/validators.py:108-126 | re-checking the formatted address of a valid input gives the same verdict |
| `AddressValidation.FormattedStable` | backend/app/validators.py:108-126 | the formatted address is at least 5 long, valid, and formats to itself |
| `Validators.ServiceProviderModel` | backend/app/validators.py:20-37 | a refusal lists at least one field error; an accepted record has exactly the keys name, address and tax_id |
| `Validators.CoerceStr` | backend/app/validators.py:22-24 | defines pydantic's coercion to a `str` field: strings pass, numbers and booleans become their `str()`, `None` and containers are refused; used by `ModelAccepts` |
| `Validators.CheckName` | backend/app/validators.py:22-30 | defines the `name` rule: required, at least 1 character, not blank, stored trimmed; its meaning is stated by `ModelAccepts`, `ModelStores`, `ModelFieldErrors` and `NameStable` |
| `Validators.CheckAddress` | backend/app/validators.py:23-37 | defines the `address` rule: required, at least 5 characters, accepted by the address check, stored formatted; its meaning is stated by `CheckAddressOk`, `CheckAddressAccepts` and `AddressStable` |
| `Validators.CheckTaxId` | backend/app/validators.py:24 | defines the optional `tax_id` rule; its meaning is stated by `ModelStores` and `TaxIdStable` |
| `Validators.ModelAccepts` | backend/app/validators.py:20-37 | accepted exactly when the name is a string that is not blank once trimmed; the address is a string of at least 5 that passes the address check; and a present, non-`None` tax id is a string |
| `Validators.ModelStores` | backend/app/validators.py:20-37 | the stored name is trimmed, the stored address is the formatted one, and the tax id is `None` exactly when absent or `None` |
| `Validators.ModelFieldErrors` | backend/app/validators.py:22-37 | an empty name, a blank name, a short address and a refused address each give their own field error |
| `Validators.ModelEmptyObject` | backend/app/validators.py:22-23 | an empty object gives the two missing-field errors, name first |
| `Validators.NameStable` | backend/app/validators.py:26-30 | a stored name passes the name rule again unchanged |
| `Validators.AddressStable` | backend/app/validators.py:32-37 | a stored address passes the address rule again unchanged |
| `Validators.CheckAddressOk` | backend/app/validators.py:32-37 | an accepted address came from a string of at least 5 that passes the address check, and is stored formatted |
| `Validators.CheckAddressAccepts` | backend/app/validators.py:32-37 | a string of at least 5 that passes the address check is stored as its formatted address |
| `Validators.TaxIdStable` | backend/app/validators.py:24 | a stored tax id passes the tax-id rule again unchanged |
| `Validators.ModelIdempotent` | backend/app/validators.py:20-37 | the model accepts its own output and returns it unchanged |
| `Validators.ErrorLines` | backend/app/validators.py:171-175 | one error line per field error |
| `Validators.ErrorLinesNamed` | backend/app/validators.py:171-175 | every field-error line begins with `service_provider` |
| `Validators.AppendErrorLines` | backend/app/validators.py:171-175 | the loop appends exactly the error lines of the field errors, in order |
| `Validators.ValidateExtractedData` | backend/app/validators.py:129-263 | the step-by-step method returns exactly the verdict `Validate` defines |
| `Validators.Validate` | backend/app/validators.py:129-263 | defines the verdict of `validate_extracted_data` as the provider blocks followed by the field blocks; its meaning is stated by the `Validate*` lemmas below |
| `Validators.ProviderBlocks` | backend/app/validators.py:148-222 | defines the verdict after the `service_provider` block and then the `merchant` block; its meaning is stated by the `ProviderBlocks*` lemmas |
| `Validators.FieldChecks` | backend/app/validators.py:225-261 | defines the amount block followed by the currency block, or by the outer handler when the amount block raised; its meaning is stated by the `FieldChecks*` lemmas |
| `Validators.NormalizeProvider` | backend/app/validators.py:149-181 | defines one provider block: string conversion, model validation, or the not-an-object error; its meaning is stated by the `ProviderStep*` lemmas |
| `Validators.MigrateMerchant` | backend/app/validators.py:184-222 | defines the `merchant` block: the migration warning, the key moved to `service_provider`, then the provider block on the merchant value; its meaning is stated by `ProviderBlocks*` and `MerchantScenario` |
| `Validators.CheckAmount` | backend/app/validators.py:226-238 | defines the amount block and the message that escapes when `float()` raises something else; its meaning is stated by `AmountStep` and `AmountIssues` |
| `Validators.CheckCurrency` | backend/app/validators.py:240-248 | defines the currency block; its meaning is stated by `CurrencyStep` and `ValidateCurrency` |
| `Validators.ApplyProviderBlocks` | backend/app/validators.py:148-222 | the two provider blocks, step by step, give `ProviderBlocks` |
| `Validators.ApplyFieldChecks` | backend/app/validators.py:225-261 | the amount and currency blocks with the outer handler give `FieldChecks` |
| `Validators.ApplyAmount` | backend/app/validators.py:226-238 | the amount block gives `CheckAmount`, including the exception it lets escape |
| `Validators.ApplyCurrency` | backend/app/validators.py:240-248 | the currency block gives `CheckCurrency` |
| `Validators.ApplyProvider` | backend/app/validators.py:149-181 | one provider block, step by step, gives `NormalizeProvider` |
| `Validators.ProviderIssues` | backend/app/validators.py:164-181 | a provider value adds no error exactly when it is accepted, and every error it adds begins with `service_provider` |
| `Validators.ProviderStepErrors` | backend/app/validators.py:149-181 | a provider block keeps validity exactly when the provider is accepted and appends exactly its issues |
| `Validators.ProviderStepWarnings` | backend/app/validators.py:152-156 | a provider block warns exactly when the provider is a string, with the block's own warning |
| `Validators.ProviderStepData` | backend/app/validators.py:158-168 | an accepted provider is stored converted or validated; a refused one leaves the data as it was |
| `Validators.ProviderStepCorrections` | backend/app/validators.py:162-169 | an accepted provider records its correction; a refused one records none |
| `Validators.ProviderBlocksErrors` | backend/app/validators.py:148-222 | after both blocks the verdict is valid exactly when both blocks accepted, with the service-provider block's errors before the merchant block's |
| `Validators.ProviderBlocksWarnings` | backend/app/validators.py:154-199 | the warnings: the string warning, then the migration warning, then the merchant's string warning, each when it applies |
| `Validators.ProviderBlocksData` | backend/app/validators.py:141-209 | the keys are the input's, less `merchant`, plus `service_provider` when there was a merchant; other entries are kept; the stored provider is the final provider, converted |
| `Validators.ProviderBlocksCorrections` | backend/app/validators.py:162-210 | the migration correction exactly when there was a merchant; a provider correction exactly when either provider was accepted, the merchant's winning |
| `Validators.AmountIssues` | backend/app/validators.py:226-261 | the amount adds no error exactly when it is absent, `None`, or converts |
| `Validators.ListedCodesHaveThreeLetters` | backend/app/validators.py:243-244 | every listed currency code has three letters, so the length test never decides anything |
| `Validators.FieldChecksErrors` | backend/app/validators.py:225-261 | the field blocks keep validity exactly when the amount is accepted, and add only the amount's issues |
| `Validators.AmountStep` | backend/app/validators.py:226-238 | the amount block lets an exception escape exactly when `float()` raises something else; it warns only for a non-positive amount and stores the float |
| `Validators.CurrencyStep` | backend/app/validators.py:240-248 | the currency block warns only for an unlisted code and stores the upper-cased code |
| `Validators.FieldChecksWarnings` | backend/app/validators.py:229-247 | the field blocks add the amount warning and then the currency warning |
| `Validators.FieldChecksData` | backend/app/validators.py:233-248 | the field blocks store the converted amount and the upper-cased currency, and add no correction |
| `Validators.ValidateErrors` | backend/app/validators.py:139-261 | valid exactly when there is no error, including the outer-handler path; the errors are the two provider blocks' and the amount's, in that order |
| `Validators.ValidateWarnings` | backend/app/validators.py:152-247 | the warnings are the provider, amount and currency warnings, in that order |
| `Validators.ValidateKeys` | backend/app/validators.py:141-192 | the corrected keys are the input's, less `merchant`, plus `service_provider` when there was a merchant |
| `Validators.ValidatePassesThrough` | backend/app/validators.py:141 | every key the check does not own is passed through unchanged |
| `Validators.ValidateProvider` | backend/app/validators.py:149-209 | no merchant remains; a provider is stored exactly when either key was given, and it is the final provider, converted |
| `Validators.ValidateAmount` | backend/app/validators.py:226-238 | a converted amount is stored as a float; otherwise the amount stays as given |
| `Validators.ValidateCurrency` | backend/app/validators.py:240-248 | a truthy currency is stored upper-cased unless the amount block raised; otherwise it stays as given |
| `Validators.ValidateCorrections` | backend/app/validators.py:162-210 | the corrections of the whole check are those of the provider blocks |
| `Validators.StringProviderBlocks` | backend/app/validators.py:149-162 | a bare-string provider without a merchant becomes the placeholder object, with one warning and the `converted_from_string` correction |
| `Validators.StringProviderScenario` | backend/app/validators.py:149-248 | a string provider, an unparsable amount and a listed lower-case currency give the converted provider, the amount error, the upper-cased currency and one warning |
| `Validators.MerchantScenario` | backend/app/validators.py:184-204 | a string merchant gives the converted provider, the migration warning then the string warning, and both corrections |
| `Validators.SettledEntry` | backend/app/validators.py:129-263 | every entry of a settled document comes back unchanged |
| `Validators.SettledIsFixpoint` | backend/app/validators.py:129-263 | a settled document is valid and comes back unchanged |
| `Validators.StoredProviderStable` | backend/app/validators.py:164-169 | a validated object provider is accepted again and stored unchanged |
| `Validators.ValidProviderSettled` | backend/app/validators.py:149-222 | the provider stored for a valid document without a bare-string provider is settled |
| `Validators.ValidAmountSettled` | backend/app/validators.py:226-238 | the amount stored for a valid document is settled when `float()` is the identity on floats |
| `Validators.ValidCurrencySettled` | backend/app/validators.py:240-248 | the currency stored for a valid document is settled, when `float()` is the identity on floats |
| `Validators.RevalidationStable` | backend/app/validators.py:129-263 | re-validating a valid document's corrected data is valid and gives the same data, unless the provider came from a bare string |
| `Validators.CommaFreeRejected` | backend/app/validators.py:70-73 | a trimmed comma-free address of at least 5 is refused with exactly the comma error and the format suggestion |
| `Validators.PlaceholderRejected` | backend/app/validators.py:160 | the placeholder address "Address extraction needed" fails the address check |
| `Validators.CommaFreeProviderRefused` | backend/app/validators.py:32-37 | a provider object whose address fails only the comma test is refused with the one joined address error |
| `Validators.ConvertedProviderRefused` | backend/app/validators.py:158-161 | the object a string provider is converted to is refused by the provider model |
| `Validators.LoneStringProvider` | backend/app/validators.py:149-162 | a document holding only a string provider is valid, with the converted object, one warning and one correction |
| `Validators.ConvertedDocumentRefused` | backend/app/validators.py:164-176 | checking the converted object again gives exactly one address error |
| `Validators.StringProviderNotStable` | backend/app/validators.py:153-176 | a document with a string provider is valid, but its corrected data is not |
| `Validators.FormatValidationResponse` | backend/app/validators.py:266-284 | defines the API response of `format_validation_response`; `ResponseRoundTrip` shows that it loses nothing of the verdict |
| `Validators.StrListRoundTrip` | backend/app/validators.py:280-281 | a list of strings is read back from its JSON form |
| `Validators.StrMapRoundTrip` | backend/app/validators.py:282 | a string map is read back from its JSON form |
| `Validators.ResponseRoundTrip` | backend/app/validators.py:266-284 | the verdict is read back from the API response `format_validation_response` builds |
| `RetryStrategy.ShouldRetry` | backend/app/reprocessing.py:26-49 | defines `should_retry` with its two early `False` returns and the nested `any`; its meaning is stated by `ShouldRetryMeaning` |
| `RetryStrategy.MentionsAnyMeaning` | backend/app/reprocessing.py:46-49 | the inner `any` holds exactly when some keyword occurs in the text |
| `RetryStrategy.AnyRetryableMeaning` | backend/app/reprocessing.py:46-49 | the outer `any` holds exactly when some error is retryable |
| `RetryStrategy.ShouldRetryMeaning` | backend/app/reprocessing.py:26-49 | a retry is wanted exactly when the verdict is invalid and some lower-cased error holds a keyword; never for a valid verdict or one without errors |
| `RetryStrategy.AmountKeywordNeverMatches` | backend/app/reprocessing.py:41-47 | the keyword "Amount must be a valid number" occurs in no lower-cased error |
| `RetryStrategy.AmountErrorNotMatched` | backend/app/reprocessing.py:38-47 | the amount error itself is not retryable |
| `RetryStrategy.AmountErrorNotRetryable` | backend/app/reprocessing.py:26-49 | a verdict whose only error is the amount error is not retried |
| `RetryStrategy.ProviderErrorRetryable` | backend/app/reprocessing.py:40-47 | every error beginning with `service_provider` is retryable |
| `RetryStrategy.ValidatorVerdictRetried` | backend/app/reprocessing.py:26-49 | a verdict of the record check, with no escaped exception, is retried exactly when a provider block refused |
| `RetryStrategy.ValidatorVerdictCategory` | backend/app/reprocessing.py:51-62 | such a retried verdict is classified as an address or a structure problem |
| `RetryStrategy.ClassifyErrors` | backend/app/reprocessing.py:51-62 | the category is one of the strategy table's keys |
| `RetryStrategy.ClassifyPriority` | backend/app/reprocessing.py:51-62 | each of the four categories is chosen exactly when its test holds and the earlier ones fail |
| `RetryStrategy.JoinedTextContains` | backend/app/reprocessing.py:53 | a word in one lower-cased error is in the joined, lower-cased text |
| `RetryStrategy.StrategyTableKeys` | backend/app/reprocessing.py:19-24 | the table has exactly the four keys, and each is the category of some error list |
| `RetryStrategy.ClassifyEmptyExample` | backend/app/reprocessing.py:61-62 | no errors give the general category |
| `RetryStrategy.ClassifyAddressExample` | backend/app/reprocessing.py:55-56 | "address format" gives the address category |
| `RetryStrategy.ClassifyProviderExample` | backend/app/reprocessing.py:57-58 | "service_provider" gives the structure category |
| `RetryStrategy.ClassifyAmountExample` | backend/app/reprocessing.py:59-60 | "amount" gives the amount category |
| `RetryStrategy.Suffix` | backend/app/reprocessing.py:66-118 | defines the fixed text each enhancer appends (the address text at 66-118; the others at 124-172, 178-193 and 199-209); `EnhanceKeepsPrompt` states how it is used |
| `RetryStrategy.Enhance` | backend/app/reprocessing.py:64-211 | defines the four `_enhance_*_prompt` methods as the original prompt followed by the enhancer's text; its meaning is stated by `EnhanceKeepsPrompt` |
| `RetryStrategy.EnhancedUserPrompt` | backend/app/reprocessing.py:247-254 | defines the retry's user prompt as the enhancer of the classified category applied to the original; `ProgramFirstRequest` states that it extends the original prompt |
| `RetryStrategy.EnhanceKeepsPrompt` | backend/app/reprocessing.py:64-211 | every enhancer returns the original prompt followed by its fixed text, and ignores the errors |
| `RetryStrategy.RetrySystemPrompt` | backend/app/reprocessing.py:253 | defines the retry's system prompt on attempt n; its meaning is stated by `RetrySystemPromptExtends` and `RetrySystemPromptInjective` |
| `RetryStrategy.RetrySystemPromptExtends` | backend/app/reprocessing.py:253 | the retry system prompt is the original followed by a non-empty note |
| `RetryStrategy.RetrySystemPromptInjective` | backend/app/reprocessing.py:253 | two attempts never send the same system prompt |
| `RetryStrategy.NatToStringInjective` | backend/app/reprocessing.py:253 | different attempt numbers are written differently |
| `Reprocessing.ReprocessWithEnhancedPrompt` | backend/app/reprocessing.py:214-323 | the recursive method returns exactly the outcome and the model calls of the chain `Reprocess` defines |
| `Reprocessing.Reprocess` | backend/app/reprocessing.py:214-323 | defines the outcome and the model calls of the retry chain from attempt n; its meaning is stated by the `Reprocess*` lemmas, `NotRetryableNoCall`, `FailureEndsChain`, `LastAttemptOriginalErrors`, `FirstAttemptChain` and `LostAttempt` |
| `Reprocessing.ReprocessCallCount` | backend/app/reprocessing.py:236-293 | no model call exactly when the verdict is not worth a retry; from attempt n at most `CallBudget(n)` calls |
| `Reprocessing.ReprocessAttemptNumber` | backend/app/reprocessing.py:236-323 | an attempt number is reported exactly when the outcome is not the "not applicable" one, which has no data and its fixed error; the number is n plus the calls after the first |
| `Reprocessing.ReprocessRequests` | backend/app/reprocessing.py:253-264 | call i goes to the same page, with the system prompt of attempt n + i and the retry's sampling settings |
| `Reprocessing.ReprocessStep` | backend/app/reprocessing.py:266-300 | the first call is the retry request; a second call follows exactly when the new verdict is invalid, the count is below the limit and the new verdict is worth a retry; the rest is the chain for the new verdict |
| `Reprocessing.ProgramFirstRequest` | backend/app/reprocessing.py:247-254 | the program's first call carries the original prompts, each followed by its retry text |
| `Reprocessing.NotRetryableNoCall` | backend/app/reprocessing.py:236-244 | a verdict not worth a retry makes no call, with `success` false, `retry_attempted` false and the verdict's errors as the original errors |
| `Reprocessing.FailureEndsChain` | backend/app/reprocessing.py:301-323 | a failed call, empty data or an exception ends the chain after one call, with `retry_succeeded` false and an error |
| `Reprocessing.ReprocessSucceeds` | backend/app/reprocessing.py:266-281 | `retry_succeeded` is true exactly when the last call's data passed the check, and the data is then the corrected record |
| `Reprocessing.LastAttemptOriginalErrors` | backend/app/reprocessing.py:294-300 | at the last allowed attempt there is at most one call, and the original errors are the verdict's |
| `Reprocessing.FirstAttemptChain` | backend/app/reprocessing.py:286-299 | from attempt 1 there are at most two calls and any attempt number is 1 or 2; after two calls the original errors are those of the second verdict |
| `Reprocessing.ReprocessMultiplePages` | backend/app/reprocessing.py:326-363 | the loop returns exactly the outcomes and calls of the page search `Pages` defines |
| `Reprocessing.Pages` | backend/app/reprocessing.py:344-363 | defines the chains over the pages up to and including the first successful one; its meaning is stated by the `Pages*` lemmas |
| `Reprocessing.PagesStep` | backend/app/reprocessing.py:346-361 | one page of the search: stop after a successful retry, otherwise go on with the next page |
| `Reprocessing.PagesLength` | backend/app/reprocessing.py:344-363 | at most one outcome per page, and at least one when there are pages |
| `Reprocessing.PagesRuns` | backend/app/reprocessing.py:346-354 | outcome j is the chain for page j from attempt 1, with the same input verdict |
| `Reprocessing.PagesStops` | backend/app/reprocessing.py:358-361 | no outcome before the last stops the search, and a search that ends early ends on one that does |
| `Reprocessing.PagesShape` | backend/app/reprocessing.py:344-363 | the page-search properties together |
| `Reprocessing.PagesCallCount` | backend/app/reprocessing.py:346-354 | a search makes at most two model calls per page |
| `Reprocessing.Summarize` | backend/app/reprocessing.py:366-393 | defines `create_reprocessing_summary`; its meaning is stated by `SummaryOfChain`, `LostAttempt` and `SummaryOfNothing` |
| `Reprocessing.SummaryOfChain` | backend/app/reprocessing.py:366-393 | the summary reports an attempt exactly when one was recorded, and then counts the calls; it says "success" exactly when the last call's data passed, with the improvement note; otherwise it gives the final errors and the manual-review advice |
| `Reprocessing.LostAttempt` | backend/app/reprocessing.py:286-293 | when the new verdict is invalid but not worth a retry, one call is made, yet the outcome is "not applicable" for the new verdict and the summary counts no attempt |
| `Reprocessing.ProgramLostAmountAttempt` | backend/app/reprocessing.py:286-293 | in the program, a first retry that leaves only the amount error ends that way |
| `Reprocessing.SummaryOfNothing` | backend/app/reprocessing.py:376-391 | the summary of the empty dictionary: no attempt, status "failed", no final errors and the manual-review advice |
| `Reprocessing.SucceededMeansSuccess` | backend/app/reprocessing.py:270-281 | an outcome whose retry succeeded also has `success`, so it stops the page search |
| `Reprocessing.ChooseResult` | backend/app/main.py:279-288 | defines the caller's `for`/`else`: the first outcome whose retry succeeded, or the summary of the last one, or of `{}`; its meaning is stated by `ChooseLast` and `ChoiceAfterSearch` |
| `Reprocessing.ChoiceAfterSearch` | backend/app/main.py:279-288 | after a page search the caller takes the last outcome when its retry succeeded, and otherwise the summary of the last outcome |
| `Reprocessing.ChooseLast` | backend/app/main.py:279-288 | when no earlier outcome succeeded, the caller's choice depends only on the last one |
| `FileExtensions.ValidateFileExtension` | backend/app/utils.py:93-105 | defines `validate_file_extension` as the lower-cased suffix of the final component tested for membership; its meaning is stated by `AcceptedByExtension`, `NoSuffixRefused`, `HiddenFileRefused` and `TrailingDotRefused` |
| `FileExtensions.Suffix` | backend/app/utils.py:104 | defines `PurePath.suffix` of a name; its meaning is stated by `SuffixShape`, `SuffixOf` and `NoSuffix` |
| `FileExtensions.Name` | backend/app/utils.py:104 | the final path component holds no `/` |
| `FileExtensions.NameOfName` | backend/app/utils.py:104 | a name without `/` (and not `.`) is its own final component |
| `FileExtensions.NameIgnoresDirectory` | backend/app/utils.py:104 | the directories in front of a name do not matter |
| `FileExtensions.NameIgnoresTrailing` | backend/app/utils.py:104 | a trailing `/` or `/.` does not matter |
| `FileExtensions.SuffixShape` | backend/app/utils.py:104 | the suffix is empty, or a `.` and no other `.`, ending a longer name |
| `FileExtensions.SuffixOf` | backend/app/utils.py:104 | a non-empty stem followed by an extension has that extension as its suffix, so only the text from the last `.` counts |
| `FileExtensions.NoSuffix` | backend/app/utils.py:104 | the suffix is empty exactly when no tail after the first character is an extension |
| `FileExtensions.AcceptedByExtension` | backend/app/utils.py:93-105 | a file is accepted exactly when the lower-cased extension of its name is allowed, with or without a directory |
| `FileExtensions.NoSuffixRefused` | backend/app/utils.py:104-105 | a name without a suffix is refused |
| `FileExtensions.HiddenFileRefused` | backend/app/utils.py:104-105 | a name that is only an extension, such as `.pdf`, is refused |
| `FileExtensions.TrailingDotRefused` | backend/app/utils.py:104-105 | a name ending in `.` is refused |
| `FileExtensions.AllowedExtensionsShape` | backend/app/config.py:37 | every allowed extension is a lower-case extension, and the empty suffix is not allowed |

## Left out

- **Logging, `async`/`await` and the HTTP routes** of `main.py` are left
  out: they carry no behaviour. The one exception is the rule the caller
  uses to pick a result (main.py:279-288).
  - The coordinator is modelled as sequential code.
  - The call of `reprocess_with_enhanced_prompt` for one page
    (main.py:324-334) applies that rule to a one-element list.
- **The vision model** (`vision.py`) is not part of this model. It is a
  parameter: a function from the request to a returned dictionary or a
  raised exception. This makes the model deterministic. A request that is
  sent twice would get the same answer. Within one chain that cannot
  happen, because the system prompts differ (`RetrySystemPromptInjective`).
- **Images are handles.** Their pixels and the PDF conversion are not
  modelled.
- **`token_service.py`, `database.py`, `models.py` and `auth.py`** are not
  part of this model. The same goes for `config.py`, except the allowed
  extensions.
- **Python's `float()` and `str()` of non-string values** are parameters
  (`Conversions`). So are any `nan`, `inf`, underscore or padding rules.
  Only `str()` of a string is fixed.
  - `Validators.ValidAmountSettled`, `Validators.ValidCurrencySettled` and
    `Validators.RevalidationStable` need `float()` to be the identity on
    floats. That holds for finite floats
    but not for `nan`.
- **Case mapping is ASCII only.** The source's `lower()` and `upper()` are
  Unicode-aware.
- **`\d` and `\w` in the postal-code pattern are approximated.** The
  model reads `\d` as an ASCII digit and `\w` as an ASCII letter, digit or
  `_`. Python's `re` matches any Unicode decimal digit and word character,
  so a city segment such as `Budapest ١٠٥١` (Arabic-Indic digits) has a
  postal code for the source. The model still gives it the postal
  suggestion (`AddressValidation.PostalCodeSearch`, `CheckSegments`).
- AddressValidation.PostalCodeSearch: states the search for ASCII digits
  and word characters only, for the reason in the line above.
- **Pydantic's messages follow version 1.** The four wordings are:
  - "field required";
  - "none is not an allowed value";
  - "str type expected";
  - "ensure this value has at least N characters".

  `error['loc']` is always the single field name.
- **Pydantic's coercion of numbers and booleans** to `str` goes through the
  `str()` parameter. Extra keys in a provider object are dropped, as
  pydantic does.
- **Key order of dictionaries is not modelled.** A record is a map.
  - The input mapping cannot be changed by the check, because records are
    values.
  - An absent key and a key holding `None` are the same in an `Outcome`.
- **Extracted data that is not a JSON object** is not modelled.
- **File paths are POSIX paths.** For `Path(filename).suffix` the model
  uses this rule: the suffix starts at the last `.`, and only when that
  `.` is neither first nor last in the name. This is the rule of Python
  3.13 and earlier. From Python 3.14, a name such as `a.` has the suffix
  `.`, and that rule is not modelled. The verdict is the same either way,
  because `.` is not an allowed extension.
- **Concrete filename examples** such as `invoice.pdf.exe` or `SCAN.PDF` are
  not stated. The general lemmas `AcceptedByExtension` and `SuffixOf`
  cover them. Proofs about long literal strings are too costly for the
  verifier.
- **The temperatures, token limits and sampling settings** are constants
  passed to the model. They play no other part.
