/** `validate_extracted_data` and `format_validation_response`: the check and
    repair of a document extracted from an invoice image, with
    `ServiceProviderModel`, the pydantic model its service provider must
    satisfy. */
module Validators {
  import opened Wrappers
  import opened Text
  import opened Values
  import opened AddressValidation

  const StringProviderWarning := "service_provider was a string, converted to object format"
  const MerchantWarning := "merchant field found, converting to service_provider for consistency"
  const MerchantStringWarning := "service_provider (converted from merchant) was a string, converted to object format"
  const NotAnObjectError := "service_provider must be an object with name and address"
  const AddressPlaceholder := "Address extraction needed"
  const AmountWarning := "Amount should be a positive number"
  const AmountError := "Amount must be a valid number"
  const NameEmptyMessage := "Service provider name cannot be empty"
  const ConvertedFromString := "converted_from_string"
  const ValidatedAndFormatted := "validated_and_formatted"
  const ConvertedLegacyField := "converted_legacy_field"
  const ValidCurrencies: seq<string> := ["USD", "EUR", "GBP", "HUF", "CHF", "CAD", "AUD", "JPY"]

  /** The warning for a currency code outside the list. */
  function CurrencyWarning(currency: string): string {
    "Currency '" + currency + "' might not be a standard 3-letter code"
  }

  /** The error recorded when something escapes to the outer handler. */
  function CrashError(message: string): string {
    "Validation error: " + message
  }

  // ---------------------------------------------------------------------------
  // ServiceProviderModel (pydantic v1)
  // ---------------------------------------------------------------------------

  /** Why pydantic refused one field of the model. */
  datatype FieldIssue =
    | Missing                   // a required key is absent
    | NoneNotAllowed            // a required string is `None`
    | NotAString                // a list or an object where a string is expected
    | TooShort(limit: nat)      // shorter than the field's `min_length`
    | Rejected(message: string) // a `@validator` raised `ValueError(message)`
  {
    /** The `msg` pydantic reports for the issue. */
    function Message(): string {
      match this
      case Missing => "field required"
      case NoneNotAllowed => "none is not an allowed value"
      case NotAString => "str type expected"
      case TooShort(limit) => "ensure this value has at least " + NatToString(limit) + " characters"
      case Rejected(message) => message
    }
  }

  /** One entry of `ValidationError.errors()`: the field (its `loc`) and the issue. */
  datatype FieldError = FieldError(field: string, issue: FieldIssue)

  /** The line the document check records for one field error. */
  function ErrorLine(e: FieldError): string {
    "service_provider" + ("." + e.field + ": " + e.issue.Message())
  }

  /** The lines for all field errors, in order. */
  function ErrorLines(es: seq<FieldError>): (lines: seq<string>)
    ensures |lines| == |es|
  {
    if es == [] then [] else ErrorLines(es[..|es| - 1]) + [ErrorLine(es[|es| - 1])]
  }

  /** pydantic's coercion of a value to a `str` field: strings pass, numbers
      and booleans become their `str()`, `None` and containers are refused. */
  function CoerceStr(conv: Conversions, v: Value): Result<string, FieldIssue> {
    match v
    case Str(s) => Ok(s)
    case Bool(_) => Ok(conv.toStr(v))
    case Int(_) => Ok(conv.toStr(v))
    case Float(_) => Ok(conv.toStr(v))
    case Null => Err(NoneNotAllowed)
    case List(_) => Err(NotAString)
    case Obj(_) => Err(NotAString)
  }

  /** A required string field with a minimum length. */
  function RequiredStr(conv: Conversions, fields: Record, key: string, minLength: nat): Result<string, FieldIssue> {
    if key !in fields then Err(Missing)
    else match CoerceStr(conv, fields[key])
      case Err(issue) => Err(issue)
      case Ok(s) => if |s| < minLength then Err(TooShort(minLength)) else Ok(s)
  }

  /** `name`: at least one character, then `validate_name`, which refuses a
      blank name and stores it trimmed. */
  function CheckName(conv: Conversions, fields: Record): Result<Value, FieldIssue> {
    match RequiredStr(conv, fields, "name", 1)
    case Err(issue) => Err(issue)
    case Ok(s) => if s == "" || Strip(s) == "" then Err(Rejected(NameEmptyMessage)) else Ok(Str(Strip(s)))
  }

  /** The message `validate_address` raises for an invalid address. */
  function AddressRejection(errors: seq<string>): string {
    "Invalid address format: " + Join(errors, ", ")
  }

  /** `address`: at least five characters, then `validate_address`, which
      refuses an address the address check rejects and stores its formatted
      form otherwise. */
  function CheckAddress(conv: Conversions, fields: Record): Result<Value, FieldIssue> {
    match RequiredStr(conv, fields, "address", 5)
    case Err(issue) => Err(issue)
    case Ok(s) =>
      var verdict := AddressCheck(Str(s));
      VerdictShape(Str(s));
      if !verdict.isValid then Err(Rejected(AddressRejection(verdict.errors)))
      else Ok(Str(verdict.formattedAddress.value))
  }

  /** `tax_id`: optional; absent and `None` both give `None`. */
  function CheckTaxId(conv: Conversions, fields: Record): Result<Value, FieldIssue> {
    if "tax_id" !in fields || fields["tax_id"].Null? then Ok(Null)
    else match CoerceStr(conv, fields["tax_id"])
      case Err(issue) => Err(issue)
      case Ok(s) => Ok(Str(s))
  }

  /** The error of one field check, if it failed. */
  function Failures(field: string, check: Result<Value, FieldIssue>): seq<FieldError> {
    if check.Err? then [FieldError(field, check.error)] else []
  }

  /** `ServiceProviderModel(**fields).dict()`, or the errors of every failing
      field in declaration order; other keys are ignored. */
  function ServiceProviderModel(conv: Conversions, fields: Record): (r: Result<Record, seq<FieldError>>)
    ensures r.Err? ==> r.error != []
    ensures r.Ok? ==> r.value.Keys == {"name", "address", "tax_id"}
  {
    var name, address, taxId := CheckName(conv, fields), CheckAddress(conv, fields), CheckTaxId(conv, fields);
    var failures := Failures("name", name) + Failures("address", address) + Failures("tax_id", taxId);
    if failures == [] then Ok(map["name" := name.value, "address" := address.value, "tax_id" := taxId.value])
    else Err(failures)
  }

  // ---------------------------------------------------------------------------
  // The document check, one block at a time
  // ---------------------------------------------------------------------------

  /** The dictionary `validate_extracted_data` returns. */
  datatype Verdict = Verdict(
    isValid: bool,
    correctedData: Record,
    errors: seq<string>,
    warnings: seq<string>,
    corrections: map<string, string>)

  /** The service-provider block, run on `provider`; `stringWarning` is the
      warning recorded when it is a bare string. */
  function NormalizeProvider(conv: Conversions, v: Verdict, provider: Value, stringWarning: string): Verdict {
    if provider.Str? then
      v.(warnings := v.warnings + [stringWarning],
         correctedData := v.correctedData["service_provider" := Obj(map["name" := provider, "address" := Str(AddressPlaceholder)])],
         corrections := v.corrections["service_provider" := ConvertedFromString])
    else if provider.Obj? then
      match ServiceProviderModel(conv, provider.fields)
      case Ok(record) =>
        v.(correctedData := v.correctedData["service_provider" := Obj(record)],
           corrections := v.corrections["service_provider" := ValidatedAndFormatted])
      case Err(failures) =>
        v.(errors := v.errors + ErrorLines(failures), isValid := false)
    else
      v.(errors := v.errors + [NotAnObjectError], isValid := false)
  }

  /** The verdict the merchant's own block starts from. */
  function Migrated(v: Verdict, merchant: Value): Verdict {
    v.(warnings := v.warnings + [MerchantWarning],
       correctedData := (v.correctedData - {"merchant"})["service_provider" := merchant],
       corrections := v.corrections["merchant_to_service_provider" := ConvertedLegacyField])
  }

  /** The legacy `merchant` block: the key is dropped, its value replaces the
      service provider and is then checked like one. */
  function MigrateMerchant(conv: Conversions, v: Verdict, merchant: Value): Verdict {
    NormalizeProvider(conv, Migrated(v, merchant), merchant, MerchantStringWarning)
  }

  /** The amount block: the new verdict and, when `float()` raised something
      other than `ValueError` or `TypeError`, the message that escapes to the
      outer handler. */
  function CheckAmount(conv: Conversions, v: Verdict, data: Record): (Verdict, Option<string>) {
    if "amount" !in data || data["amount"].Null? then (v, None)
    else match conv.toFloat(data["amount"])
      case Converted(x) =>
        (v.(warnings := AppendIf(v.warnings, x <= 0.0, AmountWarning),
            correctedData := v.correctedData["amount" := Float(x)]), None)
      case Unconvertible => (v.(errors := v.errors + [AmountError], isValid := false), None)
      case Raises(message) => (v, Some(message))
  }

  /** The currency code stored for a currency value. */
  function CurrencyCode(conv: Conversions, currency: Value): string {
    Upper(PyStr(conv, currency))
  }

  /** The currency block. */
  function CheckCurrency(conv: Conversions, v: Verdict, data: Record): Verdict {
    if "currency" !in data || !Truthy(data["currency"]) then v
    else
      var currency := CurrencyCode(conv, data["currency"]);
      v.(warnings := AppendIf(v.warnings, |currency| != 3 || currency !in ValidCurrencies, CurrencyWarning(currency)),
         correctedData := v.correctedData["currency" := Str(currency)])
  }

  /** The outer handler: the escaped exception's message is recorded. */
  function Crash(v: Verdict, message: string): Verdict {
    v.(errors := v.errors + [CrashError(message)], isValid := false)
  }

  /** The service-provider block on a fresh verdict (the
      first of the two blocks). */
  function AfterServiceProvider(conv: Conversions, data: Record): Verdict {
    var v0 := Verdict(true, data, [], [], map[]);
    if "service_provider" in data then NormalizeProvider(conv, v0, data["service_provider"], StringProviderWarning) else v0
  }

  /** The verdict after the two service-provider blocks. */
  function ProviderBlocks(conv: Conversions, data: Record): Verdict {
    var v := AfterServiceProvider(conv, data);
    if "merchant" in data then MigrateMerchant(conv, v, data["merchant"]) else v
  }

  /** The amount and currency blocks and, when the amount block raised, the
      outer handler in place of the currency block. */
  function FieldChecks(conv: Conversions, v: Verdict, data: Record): Verdict {
    var (v, raised) := CheckAmount(conv, v, data);
    if raised.Some? then Crash(v, raised.value) else CheckCurrency(conv, v, data)
  }

  /** `validate_extracted_data(data)`. */
  function Validate(conv: Conversions, data: Record): Verdict {
    FieldChecks(conv, ProviderBlocks(conv, data), data)
  }

  // ---------------------------------------------------------------------------
  // The document check as the source runs it
  // ---------------------------------------------------------------------------

  /** `validate_extracted_data`, updating the result dictionary step by step. */
  method ValidateExtractedData(conv: Conversions, data: Record) returns (result: Verdict)
    ensures result == Validate(conv, data)
  {
    result := ApplyProviderBlocks(conv, data);
    result := ApplyFieldChecks(conv, data, result);
  }

  /** The service-provider and legacy merchant blocks. */
  method ApplyProviderBlocks(conv: Conversions, data: Record) returns (result: Verdict)
    ensures result == ProviderBlocks(conv, data)
  {
    result := Verdict(true, data, [], [], map[]);
    if "service_provider" in data {
      result := ApplyProvider(conv, result, data["service_provider"], StringProviderWarning);
    }
    if "merchant" in data {
      var merchant := data["merchant"];
      result := result.(warnings := result.warnings + [MerchantWarning]);
      result := result.(correctedData := result.correctedData - {"merchant"});
      result := result.(correctedData := result.correctedData["service_provider" := merchant]);
      result := result.(corrections := result.corrections["merchant_to_service_provider" := ConvertedLegacyField]);
      result := ApplyProvider(conv, result, merchant, MerchantStringWarning);
    }
  }

  /** The amount and currency blocks, with the outer exception handler. */
  method ApplyFieldChecks(conv: Conversions, data: Record, v: Verdict) returns (result: Verdict)
    ensures result == FieldChecks(conv, v, data)
  {
    var raised;
    result, raised := ApplyAmount(conv, data, v);
    if raised.Some? {
      result := result.(errors := result.errors + [CrashError(raised.value)]);
      result := result.(isValid := false);
      return;
    }
    result := ApplyCurrency(conv, data, result);
  }

  /** The amount block; `raised` carries the message of an exception that
      escapes it. */
  method ApplyAmount(conv: Conversions, data: Record, v: Verdict) returns (result: Verdict, raised: Option<string>)
    ensures (result, raised) == CheckAmount(conv, v, data)
  {
    result, raised := v, None;
    if "amount" in data && !data["amount"].Null? {
      match conv.toFloat(data["amount"]) {
        case Converted(amount) =>
          if amount <= 0.0 {
            result := result.(warnings := result.warnings + [AmountWarning]);
          }
          result := result.(correctedData := result.correctedData["amount" := Float(amount)]);
        case Unconvertible =>
          result := result.(errors := result.errors + [AmountError]);
          result := result.(isValid := false);
        case Raises(message) =>
          raised := Some(message);
      }
    }
  }

  /** The currency block. */
  method ApplyCurrency(conv: Conversions, data: Record, v: Verdict) returns (result: Verdict)
    ensures result == CheckCurrency(conv, v, data)
  {
    result := v;
    if "currency" in data && Truthy(data["currency"]) {
      var currency := Upper(PyStr(conv, data["currency"]));
      if |currency| != 3 || currency !in ValidCurrencies {
        result := result.(warnings := result.warnings + [CurrencyWarning(currency)]);
      }
      result := result.(correctedData := result.correctedData["currency" := Str(currency)]);
    }
  }

  /** One service-provider block, appending the model's errors one by one. */
  method ApplyProvider(conv: Conversions, v: Verdict, provider: Value, stringWarning: string) returns (r: Verdict)
    ensures r == NormalizeProvider(conv, v, provider, stringWarning)
  {
    r := v;
    if provider.Str? {
      r := r.(warnings := r.warnings + [stringWarning]);
      r := r.(correctedData := r.correctedData["service_provider" := Obj(map["name" := provider, "address" := Str(AddressPlaceholder)])]);
      r := r.(corrections := r.corrections["service_provider" := ConvertedFromString]);
    } else if provider.Obj? {
      var model := ServiceProviderModel(conv, provider.fields);
      match model {
        case Ok(record) =>
          r := r.(correctedData := r.correctedData["service_provider" := Obj(record)]);
          r := r.(corrections := r.corrections["service_provider" := ValidatedAndFormatted]);
        case Err(failures) =>
          var errors := AppendErrorLines(r.errors, failures);
          r := r.(errors := errors, isValid := false);
      }
    } else {
      r := r.(errors := r.errors + [NotAnObjectError]);
      r := r.(isValid := false);
    }
  }

  /** The loop over the model's errors: one line per failure, in order. */
  method AppendErrorLines(start: seq<string>, failures: seq<FieldError>) returns (errors: seq<string>)
    ensures errors == start + ErrorLines(failures)
  {
    errors := start;
    for i := 0 to |failures|
      invariant errors == start + ErrorLines(failures[..i])
    {
      ghost var done := failures[..i + 1];
      assert done[..i] == failures[..i] && done[i] == failures[i];
      assert ErrorLines(done) == ErrorLines(failures[..i]) + [ErrorLine(failures[i])];
      errors := errors + [ErrorLine(failures[i])];
    }
    assert failures[..|failures|] == failures;
  }

  // ---------------------------------------------------------------------------
  // What one service-provider block does
  // ---------------------------------------------------------------------------

  /** The model accepts a provider exactly when it is a bare string (which is
      converted without a check) or an object the model validates. */
  predicate ProviderAccepted(conv: Conversions, provider: Value) {
    provider.Str? || (provider.Obj? && ServiceProviderModel(conv, provider.fields).Ok?)
  }

  /** The errors a provider value contributes: none when accepted, and
      otherwise lines that all name the service provider. */
  function ProviderIssues(conv: Conversions, provider: Value): (issues: seq<string>)
    ensures issues == [] <==> ProviderAccepted(conv, provider)
    ensures forall k :: 0 <= k < |issues| ==> StartsWith(issues[k], "service_provider")
  {
    if provider.Str? then []
    else if provider.Obj? then
      match ServiceProviderModel(conv, provider.fields)
      case Ok(_) => []
      case Err(failures) => ErrorLinesNamed(failures); ErrorLines(failures)
    else
      assert NotAnObjectError == "service_provider" + NotAnObjectError[16..];
      [NotAnObjectError]
  }

  /** Every field-error line starts with the provider's name. */
  lemma {:induction false} ErrorLinesNamed(es: seq<FieldError>)
    ensures forall k :: 0 <= k < |ErrorLines(es)| ==> StartsWith(ErrorLines(es)[k], "service_provider")
  {
    if es != [] {
      ErrorLinesNamed(es[..|es| - 1]);
      var e := es[|es| - 1];
      assert (ErrorLine(e))[..16] == "service_provider";
    }
  }

  /** The value stored for an accepted provider; a refused one is left as it is. */
  function ProviderValue(conv: Conversions, provider: Value): Value {
    if provider.Str? then Obj(map["name" := provider, "address" := Str(AddressPlaceholder)])
    else if provider.Obj? && ServiceProviderModel(conv, provider.fields).Ok? then
      Obj(ServiceProviderModel(conv, provider.fields).value)
    else provider
  }

  /** The correction recorded for an accepted provider. */
  function ProviderCorrection(provider: Value): string {
    if provider.Str? then ConvertedFromString else ValidatedAndFormatted
  }

  /** One service-provider block: validity drops exactly when the provider is
      refused, and the provider's issues are appended. */
  lemma ProviderStepErrors(conv: Conversions, v: Verdict, provider: Value, w: string)
    ensures NormalizeProvider(conv, v, provider, w).isValid == (v.isValid && ProviderAccepted(conv, provider))
    ensures NormalizeProvider(conv, v, provider, w).errors == v.errors + ProviderIssues(conv, provider)
  {
  }

  /** One service-provider block adds a warning exactly when the provider is a
      bare string. */
  lemma ProviderStepWarnings(conv: Conversions, v: Verdict, provider: Value, w: string)
    ensures NormalizeProvider(conv, v, provider, w).warnings == v.warnings + (if provider.Str? then [w] else [])
  {
  }

  /** One service-provider block stores an accepted provider and leaves the
      data alone for a refused one. */
  lemma ProviderStepData(conv: Conversions, v: Verdict, provider: Value, w: string)
    ensures NormalizeProvider(conv, v, provider, w).correctedData ==
      if ProviderAccepted(conv, provider) then v.correctedData["service_provider" := ProviderValue(conv, provider)]
      else v.correctedData
  {
    if provider.Obj? {
      var model := ServiceProviderModel(conv, provider.fields);
      if model.Ok? {
        assert ProviderValue(conv, provider) == Obj(model.value);
      }
    }
  }

  /** One service-provider block records the correction of an accepted
      provider and none for a refused one. */
  lemma ProviderStepCorrections(conv: Conversions, v: Verdict, provider: Value, w: string)
    ensures NormalizeProvider(conv, v, provider, w).corrections ==
      if ProviderAccepted(conv, provider) then v.corrections["service_provider" := ProviderCorrection(provider)]
      else v.corrections
  {
  }

  // ---------------------------------------------------------------------------
  // The two service-provider blocks together
  // ---------------------------------------------------------------------------

  /** The issues of the provider under `key`, if present. */
  function BlockIssues(conv: Conversions, data: Record, key: string): seq<string> {
    if key in data then ProviderIssues(conv, data[key]) else []
  }

  /** The provider under `key` is absent or accepted. */
  predicate BlockAccepted(conv: Conversions, data: Record, key: string) {
    key in data ==> ProviderAccepted(conv, data[key])
  }

  /** The warnings of the two blocks: the string conversion of the service
      provider, then the legacy migration and the string conversion of the
      merchant. */
  function ProviderWarnings(data: Record): seq<string> {
    (if "service_provider" in data && data["service_provider"].Str? then [StringProviderWarning] else [])
    + (if "merchant" in data then [MerchantWarning] + (if data["merchant"].Str? then [MerchantStringWarning] else [])
       else [])
  }

  /** The provider whose value is stored last: the merchant when present. */
  function FinalProvider(data: Record): Value
    requires "service_provider" in data || "merchant" in data
  {
    if "merchant" in data then data["merchant"] else data["service_provider"]
  }

  /** After the two blocks: valid exactly when both providers are absent or
      accepted, with the service provider's issues before the merchant's. */
  lemma ProviderBlocksErrors(conv: Conversions, data: Record)
    ensures ProviderBlocks(conv, data).isValid ==
      (BlockAccepted(conv, data, "service_provider") && BlockAccepted(conv, data, "merchant"))
    ensures ProviderBlocks(conv, data).errors ==
      BlockIssues(conv, data, "service_provider") + BlockIssues(conv, data, "merchant")
  {
    var v1 := AfterServiceProvider(conv, data);
    if "service_provider" in data {
      ProviderStepErrors(conv, Verdict(true, data, [], [], map[]), data["service_provider"], StringProviderWarning);
    }
    assert v1.isValid == BlockAccepted(conv, data, "service_provider");
    assert v1.errors == BlockIssues(conv, data, "service_provider");
    if "merchant" in data {
      ProviderStepErrors(conv, Migrated(v1, data["merchant"]), data["merchant"], MerchantStringWarning);
    }
  }

  /** The two blocks record the string-conversion warning of the service
      provider, then the migration warning and the merchant's own
      string-conversion warning. */
  lemma ProviderBlocksWarnings(conv: Conversions, data: Record)
    ensures ProviderBlocks(conv, data).warnings == ProviderWarnings(data)
  {
    var v1 := AfterServiceProvider(conv, data);
    if "service_provider" in data {
      ProviderStepWarnings(conv, Verdict(true, data, [], [], map[]), data["service_provider"], StringProviderWarning);
    }
    if "merchant" in data {
      ProviderStepWarnings(conv, Migrated(v1, data["merchant"]), data["merchant"], MerchantStringWarning);
    }
  }

  /** After the two blocks the merchant key is gone, a provider is stored
      exactly when one of the two keys was present, it is the merchant's when
      there was one, and every other entry is the input's. */
  lemma ProviderBlocksData(conv: Conversions, data: Record)
    ensures var c := ProviderBlocks(conv, data).correctedData;
      && c.Keys == data.Keys - {"merchant"} + (if "merchant" in data then {"service_provider"} else {})
      && (forall k :: k in data && k != "service_provider" && k != "merchant" ==> c[k] == data[k])
      && ("service_provider" in c ==> c["service_provider"] == ProviderValue(conv, FinalProvider(data)))
  {
    var v1 := AfterServiceProvider(conv, data);
    if "service_provider" in data {
      ProviderStepData(conv, Verdict(true, data, [], [], map[]), data["service_provider"], StringProviderWarning);
    }
    var c1 := v1.correctedData;
    assert c1.Keys == data.Keys;
    assert forall k :: k in data && k != "service_provider" ==> c1[k] == data[k];
    assert "service_provider" in data ==> c1["service_provider"] == ProviderValue(conv, data["service_provider"]);
    if "merchant" in data {
      ProviderStepData(conv, Migrated(v1, data["merchant"]), data["merchant"], MerchantStringWarning);
    }
  }

  /** After the two blocks the corrections name the legacy migration exactly
      when there was a merchant, and the service provider exactly when one of
      the two was accepted, with the merchant's correction winning. */
  lemma ProviderBlocksCorrections(conv: Conversions, data: Record)
    ensures var t := ProviderBlocks(conv, data).corrections;
      && t.Keys <= {"service_provider", "merchant_to_service_provider"}
      && ("merchant_to_service_provider" in t <==> "merchant" in data)
      && ("merchant_to_service_provider" in t ==> t["merchant_to_service_provider"] == ConvertedLegacyField)
      && ("service_provider" in t <==>
            ("service_provider" in data && ProviderAccepted(conv, data["service_provider"]))
            || ("merchant" in data && ProviderAccepted(conv, data["merchant"])))
      && ("merchant" in data && ProviderAccepted(conv, data["merchant"]) ==>
            t["service_provider"] == ProviderCorrection(data["merchant"]))
  {
    var v1 := AfterServiceProvider(conv, data);
    if "service_provider" in data {
      ProviderStepCorrections(conv, Verdict(true, data, [], [], map[]), data["service_provider"], StringProviderWarning);
    }
    if "merchant" in data {
      ProviderStepCorrections(conv, Migrated(v1, data["merchant"]), data["merchant"], MerchantStringWarning);
    }
  }

  // ---------------------------------------------------------------------------
  // What the amount and currency blocks do
  // ---------------------------------------------------------------------------

  /** The amount block runs: the key is present and not `None`. */
  predicate AmountChecked(data: Record) {
    "amount" in data && !data["amount"].Null?
  }

  /** The amount is absent, `None`, or converts. */
  predicate AmountAccepted(conv: Conversions, data: Record) {
    AmountChecked(data) ==> conv.toFloat(data["amount"]).Converted?
  }

  /** `float()` raised past the amount block's own handler. */
  predicate AmountCrashed(conv: Conversions, data: Record) {
    AmountChecked(data) && conv.toFloat(data["amount"]).Raises?
  }

  /** The errors of the amount block and of the outer handler. */
  function AmountIssues(conv: Conversions, data: Record): (issues: seq<string>)
    ensures issues == [] <==> AmountAccepted(conv, data)
  {
    if !AmountChecked(data) then []
    else match conv.toFloat(data["amount"])
      case Converted(_) => []
      case Unconvertible => [AmountError]
      case Raises(message) => [CrashError(message)]
  }

  /** The warning of a converted amount that is not positive. */
  function AmountWarnings(conv: Conversions, data: Record): seq<string> {
    if AmountChecked(data) && conv.toFloat(data["amount"]).Converted? && conv.toFloat(data["amount"]).x <= 0.0
    then [AmountWarning] else []
  }

  /** The currency block runs: the amount block did not raise and the
      currency is present and truthy. */
  predicate CurrencyChecked(conv: Conversions, data: Record) {
    !AmountCrashed(conv, data) && "currency" in data && Truthy(data["currency"])
  }

  /** The warning of a currency code outside the list (its length plays no
      part: every listed code has three letters). */
  function CurrencyWarnings(conv: Conversions, data: Record): seq<string> {
    if CurrencyChecked(conv, data) && CurrencyCode(conv, data["currency"]) !in ValidCurrencies
    then [CurrencyWarning(CurrencyCode(conv, data["currency"]))] else []
  }

  /** The converted amount the amount block stores, if any. */
  function AmountEntry(conv: Conversions, data: Record): Option<Value> {
    if AmountChecked(data) && conv.toFloat(data["amount"]).Converted?
    then Some(Float(conv.toFloat(data["amount"]).x)) else None
  }

  /** The code the currency block stores, if any. */
  function CurrencyEntry(conv: Conversions, data: Record): Option<Value> {
    if CurrencyChecked(conv, data) then Some(Str(CurrencyCode(conv, data["currency"]))) else None
  }

  /** `m` with `key` set to the entry, if there is one. */
  function Put(m: Record, key: string, entry: Option<Value>): Record {
    if entry.Some? then m[key := entry.value] else m
  }

  /** Every listed currency code has three letters, so the length test in
      front of the membership test never decides anything. */
  lemma ListedCodesHaveThreeLetters()
    ensures forall c :: c in ValidCurrencies ==> |c| == 3
  {
  }

  /** The amount and currency blocks add the amount's issues and drop
      validity exactly when there are some; the currency never adds one. */
  lemma FieldChecksErrors(conv: Conversions, v: Verdict, data: Record)
    ensures FieldChecks(conv, v, data).isValid == (v.isValid && AmountAccepted(conv, data))
    ensures FieldChecks(conv, v, data).errors == v.errors + AmountIssues(conv, data)
  {
  }

  /** The amount block raises past its handler exactly when `float()` raises
      something other than `ValueError` or `TypeError`, adds the warning of
      a non-positive amount, and stores a converted amount. */
  lemma AmountStep(conv: Conversions, v: Verdict, data: Record)
    ensures CheckAmount(conv, v, data).1.Some? <==> AmountCrashed(conv, data)
    ensures CheckAmount(conv, v, data).0.warnings == v.warnings + AmountWarnings(conv, data)
    ensures CheckAmount(conv, v, data).0.correctedData == Put(v.correctedData, "amount", AmountEntry(conv, data))
    ensures CheckAmount(conv, v, data).0.corrections == v.corrections
  {
  }

  /** The currency block adds the warning of an unlisted code and stores the
      code, touching nothing else. */
  lemma CurrencyStep(conv: Conversions, v: Verdict, data: Record)
    requires !AmountCrashed(conv, data)
    ensures CheckCurrency(conv, v, data).warnings == v.warnings + CurrencyWarnings(conv, data)
    ensures CheckCurrency(conv, v, data).correctedData == Put(v.correctedData, "currency", CurrencyEntry(conv, data))
    ensures CheckCurrency(conv, v, data).corrections == v.corrections
  {
    if "currency" in data && Truthy(data["currency"]) {
      var code := CurrencyCode(conv, data["currency"]);
      assert (|code| != 3 || code !in ValidCurrencies) == (code !in ValidCurrencies) by {
        ListedCodesHaveThreeLetters();
      }
    }
  }

  /** The amount and currency blocks add the amount's warning and then the
      currency's. */
  lemma FieldChecksWarnings(conv: Conversions, v: Verdict, data: Record)
    ensures FieldChecks(conv, v, data).warnings == v.warnings + AmountWarnings(conv, data) + CurrencyWarnings(conv, data)
  {
    var (a, raised) := CheckAmount(conv, v, data);
    AmountStep(conv, v, data);
    if raised.None? {
      CurrencyStep(conv, a, data);
    }
  }

  /** The amount and currency blocks store the converted amount and the
      currency code, and touch nothing else. */
  lemma FieldChecksData(conv: Conversions, v: Verdict, data: Record)
    ensures FieldChecks(conv, v, data).correctedData ==
      Put(Put(v.correctedData, "amount", AmountEntry(conv, data)), "currency", CurrencyEntry(conv, data))
    ensures FieldChecks(conv, v, data).corrections == v.corrections
  {
    var (a, raised) := CheckAmount(conv, v, data);
    AmountStep(conv, v, data);
    if raised.None? {
      CurrencyStep(conv, a, data);
    }
  }

  // ---------------------------------------------------------------------------
  // The whole document check
  // ---------------------------------------------------------------------------

  /** The document is valid exactly when no error was recorded, which is
      exactly when each provider present is accepted and the amount, if
      checked, converts. The errors come in block order: the service
      provider's, the merchant's, then the amount's (or the escaped
      exception's); the currency never records one. */
  lemma ValidateErrors(conv: Conversions, data: Record)
    ensures Validate(conv, data).isValid <==> Validate(conv, data).errors == []
    ensures Validate(conv, data).isValid <==>
      BlockAccepted(conv, data, "service_provider") && BlockAccepted(conv, data, "merchant")
      && AmountAccepted(conv, data)
    ensures Validate(conv, data).errors ==
      BlockIssues(conv, data, "service_provider") + BlockIssues(conv, data, "merchant") + AmountIssues(conv, data)
  {
    ProviderBlocksErrors(conv, data);
    FieldChecksErrors(conv, ProviderBlocks(conv, data), data);
  }

  /** The warnings come in block order: the providers', the amount's, then
      the currency's. */
  lemma ValidateWarnings(conv: Conversions, data: Record)
    ensures Validate(conv, data).warnings ==
      ProviderWarnings(data) + AmountWarnings(conv, data) + CurrencyWarnings(conv, data)
  {
    ProviderBlocksWarnings(conv, data);
    FieldChecksWarnings(conv, ProviderBlocks(conv, data), data);
  }

  /** The corrected document has the input's keys, less the merchant, plus
      the service provider when there was a merchant. */
  lemma ValidateKeys(conv: Conversions, data: Record)
    ensures Validate(conv, data).correctedData.Keys ==
      data.Keys - {"merchant"} + (if "merchant" in data then {"service_provider"} else {})
  {
    var p := ProviderBlocks(conv, data).correctedData;
    ProviderBlocksData(conv, data);
    FieldChecksData(conv, ProviderBlocks(conv, data), data);
    var amount := AmountEntry(conv, data);
    var currency := CurrencyEntry(conv, data);
    assert amount.Some? ==> "amount" in p;
    assert currency.Some? ==> "currency" in p;
    PutKeeps(p, "amount", amount);
    PutKeeps(Put(p, "amount", amount), "currency", currency);
  }

  /** Setting a key the record already has keeps its keys. */
  lemma PutKeeps(m: Record, key: string, entry: Option<Value>)
    requires entry.Some? ==> key in m
    ensures Put(m, key, entry).Keys == m.Keys
  {
  }

  /** Setting one key leaves every other entry as it was. */
  lemma PutOther(m: Record, key: string, entry: Option<Value>, k: string)
    requires k in m && k != key
    ensures k in Put(m, key, entry) && Put(m, key, entry)[k] == m[k]
  {
  }

  /** Every entry the document check does not own is passed through as given. */
  lemma ValidatePassesThrough(conv: Conversions, data: Record, k: string)
    requires k in data && k != "service_provider" && k != "merchant" && k != "amount" && k != "currency"
    ensures k in Validate(conv, data).correctedData && Validate(conv, data).correctedData[k] == data[k]
  {
    var p := ProviderBlocks(conv, data).correctedData;
    ProviderBlocksData(conv, data);
    FieldChecksData(conv, ProviderBlocks(conv, data), data);
    var q := Put(p, "amount", AmountEntry(conv, data));
    PutOther(p, "amount", AmountEntry(conv, data), k);
    PutOther(q, "currency", CurrencyEntry(conv, data), k);
  }

  /** The stored provider is the merchant's value when there is one, the
      service provider's otherwise, each converted or validated when
      accepted and left as given when refused; no merchant key remains. */
  lemma ValidateProvider(conv: Conversions, data: Record)
    ensures "merchant" !in Validate(conv, data).correctedData
    ensures "service_provider" in Validate(conv, data).correctedData <==>
      "service_provider" in data || "merchant" in data
    ensures "service_provider" in data || "merchant" in data ==>
      Validate(conv, data).correctedData["service_provider"] == ProviderValue(conv, FinalProvider(data))
  {
    ProviderBlocksData(conv, data);
    FieldChecksData(conv, ProviderBlocks(conv, data), data);
  }

  /** A converted amount is stored as a float; an amount that is `None` or
      does not convert stays exactly as given. */
  lemma ValidateAmount(conv: Conversions, data: Record)
    requires "amount" in data
    ensures "amount" in Validate(conv, data).correctedData
    ensures Validate(conv, data).correctedData["amount"] == AmountEntry(conv, data).GetOr(data["amount"])
  {
    var p := ProviderBlocks(conv, data).correctedData;
    ProviderBlocksData(conv, data);
    FieldChecksData(conv, ProviderBlocks(conv, data), data);
    var q := Put(p, "amount", AmountEntry(conv, data));
    assert "amount" in q && q["amount"] == AmountEntry(conv, data).GetOr(data["amount"]);
    PutOther(q, "currency", CurrencyEntry(conv, data), "amount");
  }

  /** A truthy currency is stored upper-cased unless the amount block raised;
      otherwise it stays exactly as given. */
  lemma ValidateCurrency(conv: Conversions, data: Record)
    requires "currency" in data
    ensures "currency" in Validate(conv, data).correctedData
    ensures Validate(conv, data).correctedData["currency"] == CurrencyEntry(conv, data).GetOr(data["currency"])
  {
    ProviderBlocksData(conv, data);
    FieldChecksData(conv, ProviderBlocks(conv, data), data);
  }

  /** The corrections: the legacy migration exactly when there was a
      merchant, and the service provider exactly when either provider was
      accepted, the merchant's correction winning. */
  lemma ValidateCorrections(conv: Conversions, data: Record)
    ensures var t := Validate(conv, data).corrections;
      && t.Keys <= {"service_provider", "merchant_to_service_provider"}
      && ("merchant_to_service_provider" in t <==> "merchant" in data)
      && ("merchant_to_service_provider" in t ==> t["merchant_to_service_provider"] == ConvertedLegacyField)
      && ("service_provider" in t <==>
            ("service_provider" in data && ProviderAccepted(conv, data["service_provider"]))
            || ("merchant" in data && ProviderAccepted(conv, data["merchant"])))
      && ("merchant" in data && ProviderAccepted(conv, data["merchant"]) ==>
            t["service_provider"] == ProviderCorrection(data["merchant"]))
  {
    ProviderBlocksCorrections(conv, data);
    FieldChecksData(conv, ProviderBlocks(conv, data), data);
  }

  // ---------------------------------------------------------------------------
  // ServiceProviderModel: what it accepts and what it stores
  // ---------------------------------------------------------------------------

  /** The model accepts exactly a coercible name that is not blank, a
      coercible address of five characters or more that the address check
      accepts, and a tax id that is absent, `None` or coercible. (A non-blank
      name always meets the one-character minimum.) */
  lemma ModelAccepts(conv: Conversions, fields: Record)
    ensures ServiceProviderModel(conv, fields).Ok? <==>
      && "name" in fields && CoerceStr(conv, fields["name"]).Ok?
      && Strip(CoerceStr(conv, fields["name"]).value) != ""
      && "address" in fields && CoerceStr(conv, fields["address"]).Ok?
      && |CoerceStr(conv, fields["address"]).value| >= 5
      && AddressCheck(Str(CoerceStr(conv, fields["address"]).value)).isValid
      && ("tax_id" in fields && !fields["tax_id"].Null? ==> CoerceStr(conv, fields["tax_id"]).Ok?)
  {
    if "name" in fields && CoerceStr(conv, fields["name"]).Ok? {
      var n := CoerceStr(conv, fields["name"]).value;
      assert Strip(n) != "" ==> |n| >= 1;
    }
  }

  /** An accepted provider is stored with its name trimmed, its address in
      the address check's formatted form, and its tax id as a string or
      `None`. */
  lemma ModelStores(conv: Conversions, fields: Record)
    requires ServiceProviderModel(conv, fields).Ok?
    ensures ServiceProviderModel(conv, fields).value["name"] == Str(Strip(CoerceStr(conv, fields["name"]).value))
    ensures var a := CoerceStr(conv, fields["address"]).value;
      AddressCheck(Str(a)).formattedAddress.Some?
      && ServiceProviderModel(conv, fields).value["address"] == Str(AddressCheck(Str(a)).formattedAddress.value)
    ensures var t := ServiceProviderModel(conv, fields).value["tax_id"];
      (t.Null? <==> "tax_id" !in fields || fields["tax_id"].Null?)
      && (!t.Null? ==> t == Str(CoerceStr(conv, fields["tax_id"]).value))
  {
    ModelAccepts(conv, fields);
  }

  /** The edge cases of the name and address fields: an empty name fails the
      length minimum before the blank-name check runs, a blank one fails that
      check, an address under five characters fails its minimum before the
      address check runs, and one the address check rejects is refused with
      that check's errors joined. */
  lemma ModelFieldErrors(conv: Conversions, fields: Record)
    ensures "name" in fields && fields["name"] == Str("") ==>
      ServiceProviderModel(conv, fields).Err?
      && FieldError("name", TooShort(1)) in ServiceProviderModel(conv, fields).error
    ensures "name" in fields && fields["name"].Str? && fields["name"].s != "" && Strip(fields["name"].s) == "" ==>
      ServiceProviderModel(conv, fields).Err?
      && FieldError("name", Rejected(NameEmptyMessage)) in ServiceProviderModel(conv, fields).error
    ensures "address" in fields && fields["address"].Str? && |fields["address"].s| < 5 ==>
      ServiceProviderModel(conv, fields).Err?
      && FieldError("address", TooShort(5)) in ServiceProviderModel(conv, fields).error
    ensures ("address" in fields && fields["address"].Str? && |fields["address"].s| >= 5
             && !AddressCheck(fields["address"]).isValid) ==>
      ServiceProviderModel(conv, fields).Err?
      && FieldError("address", Rejected(AddressRejection(AddressCheck(fields["address"]).errors)))
         in ServiceProviderModel(conv, fields).error
  {
  }

  /** An empty object misses both required fields, reported in declaration
      order (as "service_provider.name: field required" and then the same for
      the address); the tax id is optional. */
  lemma ModelEmptyObject(conv: Conversions)
    ensures ServiceProviderModel(conv, map[]) == Err([FieldError("name", Missing), FieldError("address", Missing)])
  {
    var empty: Record := map[];
    assert Failures("name", CheckName(conv, empty)) == [FieldError("name", Missing)];
    assert Failures("address", CheckAddress(conv, empty)) == [FieldError("address", Missing)];
    assert Failures("tax_id", CheckTaxId(conv, empty)) == [];
    assert [FieldError("name", Missing)] + [FieldError("address", Missing)] + []
      == [FieldError("name", Missing), FieldError("address", Missing)];
  }

  /** The trimmed name passes the name check again unchanged. */
  lemma NameStable(conv: Conversions, fields: Record, again: Record)
    requires CheckName(conv, fields).Ok?
    requires "name" in again && again["name"] == CheckName(conv, fields).value
    ensures CheckName(conv, again) == CheckName(conv, fields)
  {
    StripIdempotent(RequiredStr(conv, fields, "name", 1).value);
  }

  /** The formatted address passes the address check again unchanged. */
  lemma AddressStable(conv: Conversions, fields: Record, again: Record)
    requires CheckAddress(conv, fields).Ok?
    requires "address" in again && again["address"] == CheckAddress(conv, fields).value
    ensures CheckAddress(conv, again) == CheckAddress(conv, fields)
  {
    var a := CheckAddressOk(conv, fields);
    FormattedStable(a);
    var f := AddressCheck(Str(a)).formattedAddress.value;
    assert RequiredStr(conv, again, "address", 5) == Ok(f);
    CheckAddressAccepts(conv, again, f);
  }

  /** An address the address check accepts came from a valid required string. */
  lemma CheckAddressOk(conv: Conversions, fields: Record) returns (a: string)
    requires CheckAddress(conv, fields).Ok?
    ensures RequiredStr(conv, fields, "address", 5) == Ok(a) && AddressCheck(Str(a)).isValid
    ensures AddressCheck(Str(a)).formattedAddress.Some?
    ensures CheckAddress(conv, fields) == Ok(Str(AddressCheck(Str(a)).formattedAddress.value))
  {
    a := RequiredStr(conv, fields, "address", 5).value;
    CheckAddressAccepts(conv, fields, a);
  }

  /** An address the address check accepts is stored as its formatted form. */
  lemma CheckAddressAccepts(conv: Conversions, fields: Record, a: string)
    requires RequiredStr(conv, fields, "address", 5) == Ok(a) && AddressCheck(Str(a)).isValid
    ensures AddressCheck(Str(a)).formattedAddress.Some?
    ensures CheckAddress(conv, fields) == Ok(Str(AddressCheck(Str(a)).formattedAddress.value))
  {
    VerdictShape(Str(a));
  }

  /** A stored tax id passes the tax-id check again unchanged. */
  lemma TaxIdStable(conv: Conversions, fields: Record, again: Record)
    requires CheckTaxId(conv, fields).Ok?
    requires "tax_id" in again && again["tax_id"] == CheckTaxId(conv, fields).value
    ensures CheckTaxId(conv, again) == CheckTaxId(conv, fields)
  {
  }

  /** What the model stores passes the model again unchanged. */
  lemma ModelIdempotent(conv: Conversions, fields: Record)
    requires ServiceProviderModel(conv, fields).Ok?
    ensures ServiceProviderModel(conv, ServiceProviderModel(conv, fields).value) == ServiceProviderModel(conv, fields)
  {
    var r := ServiceProviderModel(conv, fields).value;
    NameStable(conv, fields, r);
    AddressStable(conv, fields, r);
    TaxIdStable(conv, fields, r);
  }

  // ---------------------------------------------------------------------------
  // String providers and legacy merchants, end to end
  // ---------------------------------------------------------------------------

  /** With no merchant, a bare-string service provider is converted with its
      warning and correction and no error. */
  lemma StringProviderBlocks(conv: Conversions, data: Record)
    requires "service_provider" in data && data["service_provider"].Str? && "merchant" !in data
    ensures ProviderBlocks(conv, data) ==
      Verdict(true, data["service_provider" := ProviderValue(conv, data["service_provider"])], [],
              [StringProviderWarning], map["service_provider" := ConvertedFromString])
  {
  }

  /** A bare-string provider, an amount `float()` cannot parse and a currency
      whose upper-case form is listed (such as "1,500.50" and "eur"): the
      provider is converted with a warning, the amount is kept as given with
      an error, and the currency is upper-cased with no warning. */
  lemma StringProviderScenario(conv: Conversions, amount: string, currency: string, name: string)
    requires conv.toFloat(Str(amount)) == Unconvertible
    requires Upper(currency) in ValidCurrencies
    ensures Validate(conv, map["amount" := Str(amount), "currency" := Str(currency), "service_provider" := Str(name)])
      == Verdict(false,
                 map["amount" := Str(amount), "currency" := Str(Upper(currency)),
                     "service_provider" := Obj(map["name" := Str(name), "address" := Str(AddressPlaceholder)])],
                 [AmountError], [StringProviderWarning], map["service_provider" := ConvertedFromString])
  {
    var data := map["amount" := Str(amount), "currency" := Str(currency), "service_provider" := Str(name)];
    var provider := Obj(map["name" := Str(name), "address" := Str(AddressPlaceholder)]);
    var p := Verdict(true, data["service_provider" := provider], [], [StringProviderWarning],
                     map["service_provider" := ConvertedFromString]);
    StringProviderBlocks(conv, data);
    var a := p.(errors := [AmountError], isValid := false);
    assert p.errors + [AmountError] == [AmountError];
    assert CheckAmount(conv, p, data) == (a, None);
    assert |Upper(currency)| == 3 by {
      ListedCodesHaveThreeLetters();
    }
    assert CurrencyCode(conv, data["currency"]) == Upper(currency);
    assert CheckCurrency(conv, a, data) == a.(correctedData := a.correctedData["currency" := Str(Upper(currency))]);
  }

  /** A legacy merchant given as a bare string: the merchant key becomes a
      converted service provider, with the migration warning before the
      string-conversion warning and both corrections recorded. */
  lemma MerchantScenario(conv: Conversions)
    ensures Validate(conv, map["merchant" := Str("Acme Inc")])
      == Verdict(true,
                 map["service_provider" := Obj(map["name" := Str("Acme Inc"), "address" := Str(AddressPlaceholder)])],
                 [], [MerchantWarning, MerchantStringWarning],
                 map["merchant_to_service_provider" := ConvertedLegacyField, "service_provider" := ConvertedFromString])
  {
    var data: Record := map["merchant" := Str("Acme Inc")];
    assert (data - {"merchant"}) == map[];
  }

  // ---------------------------------------------------------------------------
  // Checking a corrected document again
  // ---------------------------------------------------------------------------

  /** A provider entry the model accepts and stores unchanged, if any. */
  predicate ProviderSettled(conv: Conversions, c: Record) {
    "service_provider" in c ==>
      ProviderAccepted(conv, c["service_provider"])
      && ProviderValue(conv, c["service_provider"]) == c["service_provider"]
  }

  /** An amount that is absent, `None` or converts to itself. */
  predicate AmountSettled(conv: Conversions, c: Record) {
    AmountAccepted(conv, c) && ("amount" in c ==> AmountEntry(conv, c).GetOr(c["amount"]) == c["amount"])
  }

  /** A currency, if any, that the currency block stores unchanged. */
  predicate CurrencySettled(conv: Conversions, c: Record) {
    "currency" in c ==> CurrencyEntry(conv, c).GetOr(c["currency"]) == c["currency"]
  }

  /** A document the check passes and leaves exactly as it is: no merchant,
      and provider, amount and currency each settled. */
  predicate Settled(conv: Conversions, c: Record) {
    "merchant" !in c && ProviderSettled(conv, c) && AmountSettled(conv, c) && CurrencySettled(conv, c)
  }

  /** The check keeps every entry of a settled document. */
  lemma SettledEntry(conv: Conversions, c: Record, k: string)
    requires Settled(conv, c) && k in c
    ensures k in Validate(conv, c).correctedData && Validate(conv, c).correctedData[k] == c[k]
  {
    if k == "amount" {
      ValidateAmount(conv, c);
    } else if k == "currency" {
      ValidateCurrency(conv, c);
    } else if k == "service_provider" {
      ValidateProvider(conv, c);
    } else {
      ValidatePassesThrough(conv, c, k);
    }
  }

  /** A settled document is a fixed point of the check. */
  lemma SettledIsFixpoint(conv: Conversions, c: Record)
    requires Settled(conv, c)
    ensures Validate(conv, c).isValid
    ensures Validate(conv, c).correctedData == c
  {
    ValidateErrors(conv, c);
    ValidateKeys(conv, c);
    var r := Validate(conv, c).correctedData;
    assert r.Keys == c.Keys;
    forall k | k in c
      ensures r[k] == c[k]
    {
      SettledEntry(conv, c, k);
    }
    assert r == c;
  }

  /** An object provider the model accepted is stored in a form the model
      accepts and stores unchanged. */
  lemma StoredProviderStable(conv: Conversions, p: Value)
    requires ProviderAccepted(conv, p) && !p.Str?
    ensures ProviderAccepted(conv, ProviderValue(conv, p))
    ensures ProviderValue(conv, ProviderValue(conv, p)) == ProviderValue(conv, p)
  {
    ModelIdempotent(conv, p.fields);
  }

  /** The provider stored for a valid document whose stored provider did not
      come from a bare string is settled, and no merchant remains. */
  lemma ValidProviderSettled(conv: Conversions, data: Record)
    requires Validate(conv, data).isValid
    requires "service_provider" in data || "merchant" in data ==> !FinalProvider(data).Str?
    ensures "merchant" !in Validate(conv, data).correctedData
    ensures ProviderSettled(conv, Validate(conv, data).correctedData)
  {
    ValidateErrors(conv, data);
    ValidateProvider(conv, data);
    if "service_provider" in data || "merchant" in data {
      StoredProviderStable(conv, FinalProvider(data));
    }
  }

  /** The amount stored for a valid document converts to itself when
      `float()` of a float is the identity. */
  lemma ValidAmountSettled(conv: Conversions, data: Record)
    requires FloatOfFloatIsIdentity(conv)
    requires Validate(conv, data).isValid
    ensures AmountSettled(conv, Validate(conv, data).correctedData)
  {
    var c := Validate(conv, data).correctedData;
    ValidateErrors(conv, data);
    ValidateKeys(conv, data);
    if "amount" in data {
      ValidateAmount(conv, data);
      if AmountChecked(data) {
        assert conv.toFloat(Float(conv.toFloat(data["amount"]).x)) == conv.toFloat(data["amount"]);
      }
    }
  }

  /** The currency stored for a valid document is its own upper-case form; a
      currency the block skipped is skipped again. */
  lemma ValidCurrencySettled(conv: Conversions, data: Record)
    requires FloatOfFloatIsIdentity(conv)
    requires Validate(conv, data).isValid
    ensures CurrencySettled(conv, Validate(conv, data).correctedData)
  {
    var c := Validate(conv, data).correctedData;
    ValidateErrors(conv, data);
    ValidateKeys(conv, data);
    ValidAmountSettled(conv, data);
    if "currency" in data {
      ValidateCurrency(conv, data);
      if CurrencyChecked(conv, data) {
        UpperIdempotent(PyStr(conv, data["currency"]));
      }
    }
  }

  /** Checking the corrected form of a valid document again passes and
      changes nothing, provided its stored provider was not a bare string
      and `float()` of a float is the identity. */
  lemma RevalidationStable(conv: Conversions, data: Record)
    requires FloatOfFloatIsIdentity(conv)
    requires Validate(conv, data).isValid
    requires "service_provider" in data || "merchant" in data ==> !FinalProvider(data).Str?
    ensures Validate(conv, Validate(conv, data).correctedData).isValid
    ensures Validate(conv, Validate(conv, data).correctedData).correctedData == Validate(conv, data).correctedData
  {
    ValidProviderSettled(conv, data);
    ValidAmountSettled(conv, data);
    ValidCurrencySettled(conv, data);
    SettledIsFixpoint(conv, Validate(conv, data).correctedData);
  }

  /** An address with no comma, no surrounding whitespace and five
      characters or more is refused with the comma error alone. */
  lemma CommaFreeRejected(s: string)
    requires ',' !in s && |s| >= 5 && !IsSpace(s[0]) && !IsSpace(s[|s| - 1])
    ensures AddressCheck(Str(s)) == AddressVerdict(false, None, [CommaError], [FormatSuggestion])
  {
    StripFixed(s);
    CountCharAbsent(s, ',');
    FewCommasRejected(s);
  }

  /** The placeholder address has no comma, so the address check refuses it
      with the comma error. */
  lemma PlaceholderRejected()
    ensures AddressCheck(Str(AddressPlaceholder)) == AddressVerdict(false, None, [CommaError], [FormatSuggestion])
  {
    assert ',' !in AddressPlaceholder;
    CommaFreeRejected(AddressPlaceholder);
  }

  /** A provider with a well-formed name and an address of five characters
      or more that the address check refuses with the comma error alone
      fails the model on its address only. */
  lemma CommaFreeProviderRefused(conv: Conversions, name: string, address: string)
    requires Strip(name) == name && name != ""
    requires |address| >= 5
    requires AddressCheck(Str(address)) == AddressVerdict(false, None, [CommaError], [FormatSuggestion])
    ensures ServiceProviderModel(conv, map["name" := Str(name), "address" := Str(address)])
      == Err([FieldError("address", Rejected(AddressRejection([CommaError])))])
  {
    var fields := map["name" := Str(name), "address" := Str(address)];
    assert CheckName(conv, fields) == Ok(Str(name));
    assert CheckAddress(conv, fields) == Err(Rejected(AddressRejection([CommaError])));
    assert CheckTaxId(conv, fields) == Ok(Null);
    var e := FieldError("address", Rejected(AddressRejection([CommaError])));
    assert Failures("name", Ok(Str(name))) + [e] + Failures("tax_id", Ok(Null)) == [e];
  }

  /** The provider stored for a bare-string name fails the model on its
      placeholder address. */
  lemma ConvertedProviderRefused(conv: Conversions, name: string)
    requires Strip(name) == name && name != ""
    ensures ServiceProviderModel(conv, map["name" := Str(name), "address" := Str(AddressPlaceholder)])
      == Err([FieldError("address", Rejected(AddressRejection([CommaError])))])
  {
    PlaceholderRejected();
    CommaFreeProviderRefused(conv, name, AddressPlaceholder);
  }

  /** A document holding only a bare-string provider passes, with the
      provider converted. */
  lemma LoneStringProvider(conv: Conversions, name: string)
    ensures Validate(conv, map["service_provider" := Str(name)]) ==
      Verdict(true, map["service_provider" := Obj(map["name" := Str(name), "address" := Str(AddressPlaceholder)])],
              [], [StringProviderWarning], map["service_provider" := ConvertedFromString])
  {
    var data := map["service_provider" := Str(name)];
    StringProviderBlocks(conv, data);
    var p := ProviderBlocks(conv, data);
    assert CheckAmount(conv, p, data) == (p, None);
    assert CheckCurrency(conv, p, data) == p;
  }

  /** The converted provider fails the check on its placeholder address. */
  lemma ConvertedDocumentRefused(conv: Conversions, name: string)
    requires Strip(name) == name && name != ""
    ensures var again := Validate(conv, map["service_provider" := Obj(map["name" := Str(name), "address" := Str(AddressPlaceholder)])]);
      !again.isValid
      && again.errors == [ErrorLine(FieldError("address", Rejected(AddressRejection([CommaError]))))]
  {
    var c := map["service_provider" := Obj(map["name" := Str(name), "address" := Str(AddressPlaceholder)])];
    ConvertedProviderRefused(conv, name);
    ValidateErrors(conv, c);
    var es := [FieldError("address", Rejected(AddressRejection([CommaError])))];
    assert es[..0] == [];
  }

  /** The exception: a bare-string provider (here a trimmed, non-empty
      name) is stored with a placeholder address that has no commas, so
      checking the corrected document again refuses it. */
  lemma StringProviderNotStable(conv: Conversions, name: string)
    requires Strip(name) == name && name != ""
    ensures Validate(conv, map["service_provider" := Str(name)]).isValid
    ensures var again := Validate(conv, Validate(conv, map["service_provider" := Str(name)]).correctedData);
      !again.isValid
      && again.errors == [ErrorLine(FieldError("address", Rejected(AddressRejection([CommaError]))))]
  {
    LoneStringProvider(conv, name);
    ConvertedDocumentRefused(conv, name);
  }

  // ---------------------------------------------------------------------------
  // format_validation_response
  // ---------------------------------------------------------------------------

  /** A list of strings as a JSON array. */
  function StrList(xs: seq<string>): Value {
    List(seq(|xs|, k requires 0 <= k < |xs| => Str(xs[k])))
  }

  /** A string-to-string mapping as a JSON object. */
  function StrMap(m: map<string, string>): Value {
    Obj(map k | k in m :: Str(m[k]))
  }

  /** The API form of a verdict: the corrected data under `data` and the
      verdict's metadata under `validation`. */
  function FormatValidationResponse(v: Verdict): Value {
    Obj(map[
      "data" := Obj(v.correctedData),
      "validation" := Obj(map[
        "is_valid" := Bool(v.isValid),
        "errors" := StrList(v.errors),
        "warnings" := StrList(v.warnings),
        "corrections_applied" := StrMap(v.corrections)])])
  }

  /** Reads back a JSON array of strings. */
  function ReadStrList(v: Value): Option<seq<string>> {
    if v.List? && forall k :: 0 <= k < |v.items| ==> v.items[k].Str? then
      Some(seq(|v.items|, k requires 0 <= k < |v.items| && v.items[k].Str? => v.items[k].s))
    else None
  }

  /** Reads back a JSON object of strings. */
  function ReadStrMap(v: Value): Option<map<string, string>> {
    if v.Obj? && forall k :: k in v.fields ==> v.fields[k].Str? then
      Some(map k | k in v.fields :: v.fields[k].s)
    else None
  }

  /** Reads a verdict back from its API form, if it has that form. */
  function ReadValidationResponse(r: Value): Option<Verdict> {
    if r.Obj? && "data" in r.fields && r.fields["data"].Obj? && "validation" in r.fields
       && r.fields["validation"].Obj?
    then
      var m := r.fields["validation"].fields;
      if "is_valid" in m && m["is_valid"].Bool? && "errors" in m && "warnings" in m && "corrections_applied" in m then
        var errors, warnings, corrections := ReadStrList(m["errors"]), ReadStrList(m["warnings"]), ReadStrMap(m["corrections_applied"]);
        if errors.Some? && warnings.Some? && corrections.Some? then
          Some(Verdict(m["is_valid"].b, r.fields["data"].fields, errors.value, warnings.value, corrections.value))
        else None
      else None
    else None
  }

  /** Reading back a written list of strings gives the list. */
  lemma StrListRoundTrip(xs: seq<string>)
    ensures ReadStrList(StrList(xs)) == Some(xs)
  {
    var items := StrList(xs).items;
    assert forall k :: 0 <= k < |items| ==> items[k] == Str(xs[k]);
    var back := seq(|items|, k requires 0 <= k < |items| && items[k].Str? => items[k].s);
    assert back == xs;
  }

  /** Reading back a written mapping of strings gives the mapping. */
  lemma StrMapRoundTrip(m: map<string, string>)
    ensures ReadStrMap(StrMap(m)) == Some(m)
  {
    var fields := StrMap(m).fields;
    assert forall k :: k in fields ==> fields[k] == Str(m[k]);
    var back := map k | k in fields :: fields[k].s;
    assert back == m;
  }

  /** The API form loses nothing: reading it back gives the verdict. */
  lemma ResponseRoundTrip(v: Verdict)
    ensures ReadValidationResponse(FormatValidationResponse(v)) == Some(v)
  {
    StrListRoundTrip(v.errors);
    StrListRoundTrip(v.warnings);
    StrMapRoundTrip(v.corrections);
  }
}
