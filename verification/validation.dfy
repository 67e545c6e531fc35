/** The field validator: a labelled value checked against optional
    constraints by a fixed chain of rules, each returning early on the first
    failure. */
module Validation {
  import opened Builtins

  /** A `string | number` field value. Numbers are integer-valued here. */
  datatype Value = Str(text: string) | Num(number: int)

  /** The constraints of one field; an absent bound is `None` (the source
      tests `!= null`), an absent `required` is `false`. */
  datatype Validatable = Validatable(
    name: string,
    value: Value,
    required: bool,
    minLength: Option<int>,
    maxLength: Option<int>,
    minValue: Option<int>,
    maxValue: Option<int>)

  datatype ValidationOutput = ValidationOutput(isValid: bool, message: Option<string>)

  /** `value.toString()` */
  function ToText(v: Value): string
  {
    match v
    case Str(s) => s
    case Num(n) => IntToString(n)
  }

  /** The rules, in the order in which they are checked. */
  datatype Rule = Required | MinLength | MaxLength | MinValue | MaxValue

  const Rules: seq<Rule> := [Required, MinLength, MaxLength, MinValue, MaxValue]

  /** When one rule, taken on its own, rejects the input. A length rule looks
      only at strings and a value rule only at numbers; every bound is
      inclusive. */
  predicate Violates(input: Validatable, rule: Rule)
  {
    match rule
    case Required => input.required && Trim(ToText(input.value)) == []
    case MinLength =>
      input.minLength.Some? && input.value.Str? && |input.value.text| < input.minLength.value
    case MaxLength =>
      input.maxLength.Some? && input.value.Str? && |input.value.text| > input.maxLength.value
    case MinValue =>
      input.minValue.Some? && input.value.Num? && input.value.number < input.minValue.value
    case MaxValue =>
      input.maxValue.Some? && input.value.Num? && input.value.number > input.maxValue.value
  }

  /** The message that reports a violation of `rule`. */
  function Message(input: Validatable, rule: Rule): string
  {
    match rule
    case Required => input.name + " is required but does not have a value."
    case MinLength =>
      input.name + "'s length is less than its minimum length of "
      + IntToString(input.minLength.GetOr(0)) + "."
    case MaxLength =>
      input.name + "'s length is more than its maximum length of "
      + IntToString(input.maxLength.GetOr(0)) + "."
    case MinValue =>
      input.name + "'s value is less than its minimum value of "
      + IntToString(input.minValue.GetOr(0)) + "."
    case MaxValue =>
      input.name + "'s value is more than its maximum value of "
      + IntToString(input.maxValue.GetOr(0)) + "."
  }

  function Invalid(message: string): ValidationOutput
  {
    ValidationOutput(false, Some(message))
  }

  /** `validate`: the input is valid exactly when no rule rejects it; a valid
      result carries no message and an invalid one always does. */
  function Validate(input: Validatable): (r: ValidationOutput)
    ensures r.isValid <==> forall rule :: !Violates(input, rule)
    ensures r.isValid <==> r.message == None
  {
    if input.required && Trim(ToText(input.value)) == [] then
      assert Violates(input, Required);
      Invalid(Message(input, Required))
    else if input.minLength.Some? && input.value.Str? && |input.value.text| < input.minLength.value then
      assert Violates(input, MinLength);
      Invalid(Message(input, MinLength))
    else if input.maxLength.Some? && input.value.Str? && |input.value.text| > input.maxLength.value then
      assert Violates(input, MaxLength);
      Invalid(Message(input, MaxLength))
    else if input.minValue.Some? && input.value.Num? && input.value.number < input.minValue.value then
      assert Violates(input, MinValue);
      Invalid(Message(input, MinValue))
    else if input.maxValue.Some? && input.value.Num? && input.value.number > input.maxValue.value then
      assert Violates(input, MaxValue);
      Invalid(Message(input, MaxValue))
    else
      ValidationOutput(true, None)
  }

  /** The first rule of `rules` that rejects the input, if any. */
  function FirstViolation(input: Validatable, rules: seq<Rule>): (r: Option<Rule>)
    ensures r.Some? ==> r.value in rules && Violates(input, r.value)
    ensures r.Some? ==> exists k | 0 <= k < |rules| ::
      rules[k] == r.value && forall j | 0 <= j < k :: !Violates(input, rules[j])
    ensures r.None? <==> forall k | 0 <= k < |rules| :: !Violates(input, rules[k])
  {
    if rules == [] then None
    else if Violates(input, rules[0]) then Some(rules[0])
    else FirstViolation(input, rules[1..])
  }

  /** The reference reading of the rule chain: walk the rules in their fixed
      order and report the first one that fails. */
  function Report(input: Validatable, failed: Option<Rule>): ValidationOutput
  {
    match failed
    case None => ValidationOutput(true, None)
    case Some(rule) => Invalid(Message(input, rule))
  }

  /** The early-return chain is the ordered rule list: the first failing
      rule alone decides the result and its message. */
  lemma ValidateReportsFirstViolation(input: Validatable)
    ensures Validate(input) == Report(input, FirstViolation(input, Rules))
  {
    var r1 := [MinLength, MaxLength, MinValue, MaxValue];
    var r2 := [MaxLength, MinValue, MaxValue];
    var r3 := [MinValue, MaxValue];
    var r4 := [MaxValue];
    assert Rules[1..] == r1 && r1[1..] == r2 && r2[1..] == r3 && r3[1..] == r4 && r4[1..] == [];
    var f4 := if Violates(input, MaxValue) then Some(MaxValue) else None;
    var f3 := if Violates(input, MinValue) then Some(MinValue) else f4;
    var f2 := if Violates(input, MaxLength) then Some(MaxLength) else f3;
    var f1 := if Violates(input, MinLength) then Some(MinLength) else f2;
    assert FirstViolation(input, r4) == f4;
    assert FirstViolation(input, r3) == f3;
    assert FirstViolation(input, r2) == f2;
    assert FirstViolation(input, r1) == f1;
    assert FirstViolation(input, Rules) == if Violates(input, Required) then Some(Required) else f1;
  }

  /** For a string value only the required and length rules apply, with
      inclusive bounds; required means "not only white space". */
  lemma ValidateString(input: Validatable)
    requires input.value.Str?
    ensures var s := input.value.text;
      Validate(input).isValid <==>
        (input.required ==> !AllWhitespace(s))
        && (input.minLength.Some? ==> input.minLength.value <= |s|)
        && (input.maxLength.Some? ==> |s| <= input.maxLength.value)
  {
    assert !Violates(input, MinValue) && !Violates(input, MaxValue);
    if input.required && AllWhitespace(input.value.text) {
      assert Violates(input, Required);
    }
    if input.minLength.Some? && |input.value.text| < input.minLength.value {
      assert Violates(input, MinLength);
    }
    if input.maxLength.Some? && |input.value.text| > input.maxLength.value {
      assert Violates(input, MaxLength);
    }
  }

  /** For a number only the value rules apply, with inclusive bounds: its
      text is never blank, so `required` never rejects a number. */
  lemma ValidateNumber(input: Validatable)
    requires input.value.Num?
    ensures var n := input.value.number;
      Validate(input).isValid <==>
        (input.minValue.Some? ==> input.minValue.value <= n)
        && (input.maxValue.Some? ==> n <= input.maxValue.value)
  {
    IntToStringTrimmed(input.value.number);
    assert !Violates(input, MinLength) && !Violates(input, MaxLength);
    if input.minValue.Some? && input.value.number < input.minValue.value {
      assert Violates(input, MinValue);
    }
    if input.maxValue.Some? && input.value.number > input.maxValue.value {
      assert Violates(input, MaxValue);
    }
  }
}
