/**
 * The admin panel's form checks (js/admin.js): the per-field rule table, the
 * field validator, the event-date window, the whole-form check, and the
 * city-centre helper that fills in coordinates.
 */
module AdminRules {
  import opened JsValues
  import opened Text
  import opened EventModel
  import opened CommunityApp

  // ---------------------------------------------------------------------------
  // setupValidationRules

  datatype ValueType = PlainText | Numeric | Url

  /** One rule entry. A length of 0 stands for an absent bound (the code tests
    * `rules.minLength && …`, so 0 would be ignored anyway); `checksDate` is the
    * `custom` date check. */
  datatype Rule = Rule(
    required: bool,
    minLength: nat,
    maxLength: nat,
    pattern: bool,
    valueType: ValueType,
    min: Option<real>,
    max: Option<real>,
    checksDate: bool)

  const TitleId := "event-title"
  const DateId := "event-date"
  const LocationId := "event-location"
  const LatId := "event-lat"
  const LngId := "event-lng"
  const DescriptionId := "event-description"
  const FullDescriptionId := "event-full-description"
  const ProgramLinkId := "event-program-link"

  /** The fields that have rules, in the order the rule object lists them. */
  const FieldIds: seq<string> :=
    [TitleId, DateId, LocationId, LatId, LngId, DescriptionId, FullDescriptionId, ProgramLinkId]

  const Plain := Rule(false, 0, 0, false, PlainText, None, None, false)

  /** `setupValidationRules()[id]`. */
  function RuleFor(id: string): (r: Option<Rule>)
    ensures r.Some? <==> id in FieldIds
    ensures id == LatId ==> r == Some(Rule(true, 0, 0, false, Numeric, Some(44.0), Some(52.0), false))
    ensures id == LngId ==> r == Some(Rule(true, 0, 0, false, Numeric, Some(22.0), Some(40.0), false))
  {
    if id == TitleId then Some(Plain.(required := true, minLength := 3, maxLength := 100, pattern := true))
    else if id == DateId then Some(Plain.(required := true, checksDate := true))
    else if id == LocationId then Some(Plain.(required := true, minLength := 3, maxLength := 200))
    else if id == LatId then Some(Plain.(required := true, valueType := Numeric, min := Some(44.0), max := Some(52.0)))
    else if id == LngId then Some(Plain.(required := true, valueType := Numeric, min := Some(22.0), max := Some(40.0)))
    else if id == DescriptionId then Some(Plain.(required := true, minLength := 10, maxLength := 500))
    else if id == FullDescriptionId then Some(Plain.(maxLength := 2000))
    else if id == ProgramLinkId then Some(Plain.(valueType := Url))
    else None
  }

  // ---------------------------------------------------------------------------
  // validateEventDate

  datatype DateError = InvalidDate | MoreThanAYearAgo | TooFarAhead

  /** `validateEventDate`: no message for an empty text; otherwise the date must parse
    * and lie between the same calendar day a year ago and a year ahead (local midnight). */
  function ValidateEventDate(p: Platform, now: int, text: string): (r: Option<DateError>)
    ensures text == "" ==> r == None
    ensures text != "" && p.parseDate(Str(text)).None? ==> r == Some(InvalidDate)
    ensures r == None <==> (text == "" ||
      (p.parseDate(Str(text)).Some?
       && p.localDayYearsAway(now, -1) <= p.parseDate(Str(text)).value <= p.localDayYearsAway(now, 1)))
    ensures r == Some(MoreThanAYearAgo) ==> p.parseDate(Str(text)).value < p.localDayYearsAway(now, -1)
  {
    if text == "" then None
    else match p.parseDate(Str(text))
      case None => Some(InvalidDate)
      case Some(t) =>
        if t < p.localDayYearsAway(now, -1) then Some(MoreThanAYearAgo)
        else if t > p.localDayYearsAway(now, 1) then Some(TooFarAhead)
        else None
  }

  // ---------------------------------------------------------------------------
  // validateField

  datatype FieldError =
    | Required
    | TooShort(minLength: nat)
    | TooLong(maxLength: nat)
    | BadCharacters
    | NotANumber
    | BelowMin(min: real)
    | AboveMax(max: real)
    | BadUrl
    | DateProblem(problem: DateError)

  /** The numeric checks of a rule on a non-empty value. */
  function NumberErrors(p: Platform, rule: Rule, value: string): seq<FieldError>
  {
    if rule.valueType != Numeric then []
    else match p.parseFloat(Str(value))
      case None => [NotANumber]
      case Some(num) =>
        (if rule.min.Some? && num < rule.min.value then [BelowMin(rule.min.value)] else [])
        + (if rule.max.Some? && num > rule.max.value then [AboveMax(rule.max.value)] else [])
  }

  /** The errors `validateField` collects for a trimmed value, in order. */
  function FieldErrors(p: Platform, now: int, rule: Rule, value: string): seq<FieldError>
  {
    (if rule.required && value == "" then [Required] else [])
    + (if value == "" then [] else
        (if rule.minLength != 0 && |value| < rule.minLength then [TooShort(rule.minLength)] else [])
        + (if rule.maxLength != 0 && |value| > rule.maxLength then [TooLong(rule.maxLength)] else [])
        + (if rule.pattern && !p.titlePattern(value) then [BadCharacters] else [])
        + NumberErrors(p, rule, value)
        + (if rule.valueType == Url && !p.isValidUrl(value) then [BadUrl] else [])
        + (if rule.checksDate && ValidateEventDate(p, now, value).Some?
           then [DateProblem(ValidateEventDate(p, now, value).value)] else []))
  }

  /** What a rule accepts, stated check by check: an empty value exactly when the field
    * is optional; otherwise the length bounds, the pattern, a parsable number within
    * the bounds, a valid URL and the date window, each where the rule asks for it. */
  predicate FieldAcceptable(p: Platform, now: int, rule: Rule, value: string)
  {
    if value == "" then !rule.required
    else
      (rule.minLength == 0 || |value| >= rule.minLength)
      && (rule.maxLength == 0 || |value| <= rule.maxLength)
      && (!rule.pattern || p.titlePattern(value))
      && (rule.valueType == Numeric ==>
            p.parseFloat(Str(value)).Some?
            && (rule.min.None? || p.parseFloat(Str(value)).value >= rule.min.value)
            && (rule.max.None? || p.parseFloat(Str(value)).value <= rule.max.value))
      && (rule.valueType == Url ==> p.isValidUrl(value))
      && (rule.checksDate ==> ValidateEventDate(p, now, value).None?)
  }

  /** `validateField` answers false exactly when some check failed. */
  lemma FieldErrorsEmptyIff(p: Platform, now: int, rule: Rule, value: string)
    ensures FieldErrors(p, now, rule, value) == [] <==> FieldAcceptable(p, now, rule, value)
    ensures value == "" && rule.required ==> FieldErrors(p, now, rule, value) == [Required]
    ensures value == "" && !rule.required ==> FieldErrors(p, now, rule, value) == []
  {
    if value != "" {
      var num := NumberErrors(p, rule, value);
      assert num == [] <==> (rule.valueType == Numeric ==>
            p.parseFloat(Str(value)).Some?
            && (rule.min.None? || p.parseFloat(Str(value)).value >= rule.min.value)
            && (rule.max.None? || p.parseFloat(Str(value)).value <= rule.max.value));
    }
  }

  /** A field is valid when it has no rule or its trimmed value breaks none. */
  predicate FieldValid(p: Platform, now: int, id: string, value: string)
  {
    RuleFor(id).None? || FieldErrors(p, now, RuleFor(id).value, value) == []
  }

  /** `validateField(field)`: `raw` is the field's text, checked once trimmed; an
    * element without an id is represented by the empty id, which has no rule. The
    * message shown is the first error collected. */
  method ValidateField(p: Platform, now: int, id: string, raw: string) returns (valid: bool, shown: Option<FieldError>)
    ensures valid == FieldValid(p, now, id, Trim(raw))
    ensures valid <==> shown.None?
    ensures !valid ==> shown == Some(FieldErrors(p, now, RuleFor(id).value, Trim(raw))[0])
  {
    var rules := RuleFor(id);
    if rules.None? {
      return true, None;
    }
    var errors := CollectErrors(p, now, rules.value, Trim(raw));
    if |errors| > 0 {
      return false, Some(errors[0]);
    }
    return true, None;
  }

  /** The type check of `validateField` for a numeric rule. */
  method CheckNumber(p: Platform, rule: Rule, value: string) returns (errors: seq<FieldError>)
    ensures errors == NumberErrors(p, rule, value)
  {
    errors := [];
    if rule.valueType == Numeric {
      var num := p.parseFloat(Str(value));
      if num.None? {
        errors := [NotANumber];
      } else {
        if rule.min.Some? && num.value < rule.min.value {
          errors := errors + [BelowMin(rule.min.value)];
        }
        if rule.max.Some? && num.value > rule.max.value {
          errors := errors + [AboveMax(rule.max.value)];
        }
      }
    }
  }

  /** The checks of `validateField` on the trimmed value, in the order it runs them;
    * each check contributes its message or nothing. */
  method CollectErrors(p: Platform, now: int, rule: Rule, value: string) returns (errors: seq<FieldError>)
    ensures errors == FieldErrors(p, now, rule, value)
  {
    var required := if rule.required && value == "" then [Required] else [];
    if value == "" {
      return required;
    }
    var tooShort := if rule.minLength != 0 && |value| < rule.minLength then [TooShort(rule.minLength)] else [];
    var tooLong := if rule.maxLength != 0 && |value| > rule.maxLength then [TooLong(rule.maxLength)] else [];
    var badCharacters := if rule.pattern && !p.titlePattern(value) then [BadCharacters] else [];
    var numberErrors := CheckNumber(p, rule, value);
    var badUrl := if rule.valueType == Url && !p.isValidUrl(value) then [BadUrl] else [];
    var dateErrors: seq<FieldError> := [];
    if rule.checksDate {
      var customError := ValidateEventDate(p, now, value);
      if customError.Some? {
        dateErrors := [DateProblem(customError.value)];
      }
    }
    errors := required + (tooShort + tooLong + badCharacters + numberErrors + badUrl + dateErrors);
  }

  /** The admin panel's coordinate rules accept a non-empty value exactly when the
    * application's own form check accepts it. */
  lemma CoordinateRulesAgreeWithAppForm(p: Platform, now: int, lat: string, lng: string)
    requires lat != "" && lng != ""
    ensures FieldValid(p, now, LatId, lat) <==> WithinRange(p.parseFloat(Str(lat)), 44.0, 52.0)
    ensures FieldValid(p, now, LngId, lng) <==> WithinRange(p.parseFloat(Str(lng)), 22.0, 40.0)
  {
    FieldErrorsEmptyIff(p, now, RuleFor(LatId).value, lat);
    FieldErrorsEmptyIff(p, now, RuleFor(LngId).value, lng);
  }

  // ---------------------------------------------------------------------------
  // validateForm

  /** `validateForm`: every rule field present in the form (`form` maps the ids of the
    * elements on the page to their texts) is validated, even after a failure. */
  method ValidateForm(p: Platform, now: int, form: map<string, string>) returns (isValid: bool, checked: seq<string>)
    ensures isValid <==> forall id :: id in FieldIds && id in form ==> FieldValid(p, now, id, Trim(form[id]))
    ensures checked == Filter((id: string) => id in form, FieldIds)
  {
    isValid := true;
    checked := [];
    var i := 0;
    while i < |FieldIds|
      invariant 0 <= i <= |FieldIds|
      invariant isValid <==> forall j :: 0 <= j < i && FieldIds[j] in form ==> FieldValid(p, now, FieldIds[j], Trim(form[FieldIds[j]]))
      invariant checked == Filter((id: string) => id in form, FieldIds[..i])
    {
      var fieldId := FieldIds[i];
      FilterAppend((id: string) => id in form, FieldIds[..i], fieldId);
      assert FieldIds[..i + 1] == FieldIds[..i] + [fieldId];
      if fieldId in form {
        var fieldValid, _ := ValidateField(p, now, fieldId, form[fieldId]);
        if !fieldValid {
          isValid := false;
        }
        checked := checked + [fieldId];
      }
      i := i + 1;
    }
    assert FieldIds[..i] == FieldIds;
  }

  // ---------------------------------------------------------------------------
  // setCityCenter

  datatype City = City(name: string, lat: real, lng: real)

  /** The city centres offered, in the order the prompt numbers them 1 to 6. */
  const Cities: seq<City> := [
    City("Івано-Франківськ", 48.9226, 24.7111),
    City("Львів", 49.8397, 24.0297),
    City("Тернопіль", 49.5535, 25.5948),
    City("Чернівці", 48.2920, 25.9358),
    City("Калуш", 49.0213, 24.3734),
    City("Коломия", 48.5219, 25.0406)]

  /** Every centre offered lies inside the admin panel's coordinate ranges. */
  lemma CityCentresWithinRanges()
    ensures forall k :: 0 <= k < |Cities| ==>
      44.0 <= Cities[k].lat <= 52.0 && 22.0 <= Cities[k].lng <= 40.0
  {
  }

  /** The lower-cased name contains the lower-cased input. */
  predicate NameMatches(c: City, input: string)
  {
    Includes(ToLower(c.name), ToLower(input))
  }

  /** `cityNames.find(...)`: the first city whose name matches. */
  function FindCity(cities: seq<City>, input: string): (r: Option<City>)
    ensures r.Some? ==> r.value in cities && NameMatches(r.value, input)
    ensures r.None? <==> forall k :: 0 <= k < |cities| ==> !NameMatches(cities[k], input)
    ensures r.Some? ==> exists k :: (0 <= k < |cities| && cities[k] == r.value
      && forall j :: 0 <= j < k ==> !NameMatches(cities[j], input))
  {
    if cities == [] then None
    else if NameMatches(cities[0], input) then
      Some(cities[0])
    else
      var rest := FindCity(cities[1..], input);
      if rest.Some? then
        var k :| 0 <= k < |cities[1..]| && cities[1..][k] == rest.value
          && forall j :: 0 <= j < k ==> !NameMatches(cities[1..][j], input);
        assert cities[k + 1] == rest.value;
        assert forall j :: 0 <= j < k + 1 ==> !NameMatches(cities[j], input) by {
          forall j | 0 <= j < k + 1 ensures !NameMatches(cities[j], input) {
            if j > 0 { assert cities[j] == cities[1..][j - 1]; }
          }
        }
        rest
      else
        assert forall k :: 0 <= k < |cities| ==> !NameMatches(cities[k], input) by {
          forall k | 0 <= k < |cities| ensures !NameMatches(cities[k], input) {
            if k > 0 { assert cities[k] == cities[1..][k - 1]; }
          }
        }
        rest
  }

  /** The city chosen from the prompt's answer: None for a cancelled or empty answer; a
    * number 1..6 picks by position; anything else picks the first name that contains it. */
  function SelectCity(p: Platform, answer: Option<string>): (r: Option<City>)
    ensures answer.None? || answer == Some("") ==> r.None?
    ensures r.Some? ==> r.value in Cities
    ensures answer.Some? && answer.value != "" && p.parseInt(Str(answer.value)).Some?
      && 1 <= p.parseInt(Str(answer.value)).value <= |Cities|
      ==> r == Some(Cities[p.parseInt(Str(answer.value)).value - 1])
    ensures answer.Some? && answer.value != "" && !(p.parseInt(Str(answer.value)).Some?
      && 1 <= p.parseInt(Str(answer.value)).value <= |Cities|)
      ==> r == FindCity(Cities, answer.value)
  {
    if answer.None? || answer.value == "" then None
    else
      var index := p.parseInt(Str(answer.value));
      if index.Some? && 0 <= index.value - 1 < |Cities| then Some(Cities[index.value - 1])
      else FindCity(Cities, answer.value)
  }

  /** The coordinate inputs of the form. */
  datatype CoordinateFields = CoordinateFields(lat: string, lng: string)

  datatype CityOutcome =
    | Cancelled
    | CityNotFound
    | CoordinatesSet(city: City)
    /** `setCoordinates` assigns to a property of the number `lng` instead of the input
      * element; class code is strict, so that throws after the latitude was written. */
    | FailedAfterLatitude(city: City)

  /** `setCityCenter` as written, on the form's coordinate inputs. */
  function SetCityCenterAsWritten(p: Platform, answer: Option<string>, fields: CoordinateFields): (r: (CoordinateFields, CityOutcome))
    ensures SelectCity(p, answer).None? ==> r.0 == fields
    ensures SelectCity(p, answer).Some? ==>
      r == (fields.(lat := p.toFixed6(SelectCity(p, answer).value.lat)), FailedAfterLatitude(SelectCity(p, answer).value))
  {
    if answer.None? || answer.value == "" then (fields, Cancelled)
    else match SelectCity(p, answer)
      case None => (fields, CityNotFound)
      case Some(city) => (fields.(lat := p.toFixed6(city.lat)), FailedAfterLatitude(city))
  }

  /** `setCityCenter` with both inputs written, as the code evidently intends. */
  function SetCityCenter(p: Platform, answer: Option<string>, fields: CoordinateFields): (r: (CoordinateFields, CityOutcome))
    ensures SelectCity(p, answer).None? ==> r.0 == fields && !r.1.CoordinatesSet?
    ensures SelectCity(p, answer).Some? ==>
      r == (CoordinateFields(p.toFixed6(SelectCity(p, answer).value.lat), p.toFixed6(SelectCity(p, answer).value.lng)),
            CoordinatesSet(SelectCity(p, answer).value))
  {
    if answer.None? || answer.value == "" then (fields, Cancelled)
    else match SelectCity(p, answer)
      case None => (fields, CityNotFound)
      case Some(city) => (CoordinateFields(p.toFixed6(city.lat), p.toFixed6(city.lng)), CoordinatesSet(city))
  }

  /** Choosing Lviv by its number leaves the longitude input as it was, while the
    * intended helper writes Lviv's longitude there. */
  lemma CityCentreLeavesLongitude(p: Platform, fields: CoordinateFields)
    requires p.parseInt(Str("2")) == Some(2)
    requires fields.lng != p.toFixed6(24.0297)
    ensures SetCityCenterAsWritten(p, Some("2"), fields).0.lng == fields.lng
    ensures SetCityCenterAsWritten(p, Some("2"), fields).0.lng != p.toFixed6(Cities[1].lng)
    ensures SetCityCenter(p, Some("2"), fields).0.lng == p.toFixed6(Cities[1].lng)
  {
    assert SelectCity(p, Some("2")) == Some(Cities[1]);
  }
}
