/** The global validation pipe and the data-transfer objects whose validators
    carry real bounds, lengths or patterns. A request body is a map from
    property names to JSON-like values; each DTO is a schema of declared
    properties, each with the conversion its declared type implies and the
    validators its decorators name. */
module Validation {
  import opened Common

  /** A property value as the pipe sees it. `NaN` is the number a failed
      numeric conversion yields; `Obj` is a JSON object and `Arr` an array. */
  datatype Value =
    | Absent | Null | Str(s: string) | Num(n: real) | NaN | Bool(b: bool)
    | Obj(fields: map<string, Value>) | Arr(items: seq<Value>)

  /** The declared type of a property, which decides its implicit conversion. */
  datatype Kind = StringKind | NumberKind | BooleanKind | ObjectKind

  /** What the validator library and the runtime decide for the model: format
      checks it does not open up, `Number(s)` (`None` for NaN), the decimal
      rendering of a number, and the values of the `TimeUnit`, `OrderStatus`
      and `PaymentStatus` enumerations. */
  datatype Env = Env(
    isUuid: string -> bool,
    isEmail: string -> bool,
    isPhoneUz: string -> bool,
    isDateString: string -> bool,
    toNumber: string -> Option<real>,
    showNumber: real -> string,
    timeUnits: set<string>,
    orderStatuses: set<string>,
    paymentStatuses: set<string>)

  /** `String(v)`, `Number(v)` and `Boolean(v)` as the transform applies them;
      missing and null values are left alone. An array stays an array whose
      items are converted one by one; an object becomes `"[object Object]"`,
      `NaN` or `true`. */
  function Coerce(v: Value, kind: Kind, env: Env): (r: Value)
    ensures v.Absent? || v.Null? ==> r == v
    ensures v.Arr? <==> r.Arr?
    ensures v.Arr? ==> |r.items| == |v.items|
    ensures kind == StringKind && !v.Arr? ==> r.Str? || r.Absent? || r.Null?
    ensures kind == NumberKind && !v.Arr? && !v.Absent? && !v.Null? ==> r.Num? || r.NaN?
    ensures kind == BooleanKind && !v.Arr? && !v.Absent? && !v.Null? ==> r.Bool?
    ensures kind == ObjectKind ==> r == v
    decreases v, 1
  {
    if v.Absent? || v.Null? then v
    else if v.Arr? then
      if kind == ObjectKind then v
      else Arr(CoerceItems(v, |v.items|, kind, env))
    else match kind
      case StringKind =>
        (match v
         case Num(n) => Str(env.showNumber(n))
         case NaN => Str("NaN")
         case Bool(b) => Str(if b then "true" else "false")
         case Obj(_) => Str("[object Object]")
         case _ => v)
      case NumberKind =>
        (match v
         case Str(s) => (if env.toNumber(s).Some? then Num(env.toNumber(s).value) else NaN)
         case Bool(b) => Num(if b then 1.0 else 0.0)
         case Obj(_) => NaN
         case _ => v)
      case BooleanKind =>
        (match v
         case Str(s) => Bool(s != "")
         case Num(n) => Bool(n != 0.0)
         case NaN => Bool(false)
         case Obj(_) => Bool(true)
         case _ => v)
      case ObjectKind => v
  }

  /** The first `n` items of array `arr`, each converted as `Coerce` says. */
  function CoerceItems(arr: Value, n: nat, kind: Kind, env: Env): (r: seq<Value>)
    requires arr.Arr? && n <= |arr.items|
    ensures |r| == n
    ensures forall i :: 0 <= i < n ==> r[i] == Coerce(arr.items[i], kind, env)
    decreases arr, 0, n
  {
    if n == 0 then [] else CoerceItems(arr, n - 1, kind, env) + [Coerce(arr.items[n - 1], kind, env)]
  }

  /** An object sent for a text property is turned into the text
      `"[object Object]"`, which passes `@IsString`; an array sent for a
      boolean property stays an array and fails `@IsBoolean`. */
  lemma ObjectsAndArrays(env: Env, fields: map<string, Value>, items: seq<Value>)
    ensures Coerce(Obj(fields), StringKind, env) == Str("[object Object]")
    ensures Holds(IsString, Coerce(Obj(fields), StringKind, env), env)
    ensures !Holds(IsBoolean, Coerce(Arr(items), BooleanKind, env), env)
    ensures !Holds(IsString, Coerce(Arr(items), StringKind, env), env)
  {
  }

  /** Conversion to boolean tests only for emptiness: the text `false` is true. */
  lemma FalseTextIsTrue(env: Env)
    ensures Coerce(Str("false"), BooleanKind, env) == Bool(true)
    ensures Coerce(Str(""), BooleanKind, env) == Bool(false)
  {
  }

  predicate IsWhole(x: real) {
    x.Floor as real == x
  }

  function Pow10(p: nat): (r: real)
    ensures r >= 1.0
  {
    if p == 0 then 1.0 else 10.0 * Pow10(p - 1)
  }

  predicate IsDigit(c: char) {
    '0' <= c <= '9'
  }

  /** `^\d{16}$`. */
  predicate CardNumberOk(s: string) {
    |s| == 16 && forall i :: 0 <= i < |s| ==> IsDigit(s[i])
  }

  /** `^(0[1-9]|1[0-2])\/\d{2}$`. */
  predicate DueDateOk(s: string) {
    && |s| == 5
    && ((s[0] == '0' && '1' <= s[1] <= '9') || (s[0] == '1' && '0' <= s[1] <= '2'))
    && s[2] == '/' && IsDigit(s[3]) && IsDigit(s[4])
  }

  function DigitValue(c: char): nat
    requires IsDigit(c)
  {
    (c as int - '0' as int) as nat
  }

  /** The month and the two-digit year of an accepted due date. */
  function ParseDueDate(s: string): (r: Option<(nat, nat)>)
    ensures r.Some? <==> DueDateOk(s)
    ensures r.Some? ==> 1 <= r.value.0 <= 12 && r.value.1 < 100
  {
    if DueDateOk(s) then Some((DigitValue(s[0]) * 10 + DigitValue(s[1]), DigitValue(s[3]) * 10 + DigitValue(s[4])))
    else None
  }

  /** `MM/YY`. */
  function FormatDueDate(month: nat, year: nat): string
    requires 1 <= month <= 12 && year < 100
  {
    [Digit(month / 10), Digit(month % 10), '/', Digit(year / 10), Digit(year % 10)]
  }

  lemma DigitRoundTrip(d: nat)
    requires d < 10
    ensures IsDigit(Digit(d)) && DigitValue(Digit(d)) == d
  {
  }

  /** Every month and year formats to an accepted due date that parses back. */
  lemma DueDateFormatParse(month: nat, year: nat)
    requires 1 <= month <= 12 && year < 100
    ensures DueDateOk(FormatDueDate(month, year))
    ensures ParseDueDate(FormatDueDate(month, year)) == Some((month, year))
  {
    DigitRoundTrip(month / 10);
    DigitRoundTrip(month % 10);
    DigitRoundTrip(year / 10);
    DigitRoundTrip(year % 10);
  }

  /** Every accepted due date is the format of what it parses to. */
  lemma DueDateParseFormat(s: string)
    requires DueDateOk(s)
    ensures FormatDueDate(ParseDueDate(s).value.0, ParseDueDate(s).value.1) == s
  {
    var (m, y) := ParseDueDate(s).value;
    assert m / 10 == DigitValue(s[0]) && m % 10 == DigitValue(s[1]);
    assert y / 10 == DigitValue(s[3]) && y % 10 == DigitValue(s[4]);
    var f := FormatDueDate(m, y);
    assert f[0] == s[0] && f[1] == s[1] && f[2] == s[2] && f[3] == s[3] && f[4] == s[4];
  }

  /** Occurrences of the variation selectors U+FE0E and U+FE0F. */
  function VariationSelectors(s: string): (r: nat)
    ensures r <= |s|
  {
    if |s| == 0 then 0
    else VariationSelectors(s[..|s| - 1]) + (if s[|s| - 1] == '\U{FE0E}' || s[|s| - 1] == '\U{FE0F}' then 1 else 0)
  }

  /** The length the library's length checks use: code points, not counting
      variation selectors. */
  function Length(s: string): (r: nat)
    ensures r <= |s|
  {
    |s| - VariationSelectors(s)
  }

  /** Characters outside the basic plane, which JavaScript counts twice. */
  function Astral(s: string): (r: nat)
    ensures r <= |s|
  {
    if |s| == 0 then 0 else Astral(s[..|s| - 1]) + (if s[|s| - 1] as int > 0xFFFF then 1 else 0)
  }

  /** `s.length` in UTF-16 code units. */
  function Utf16Length(s: string): (r: nat)
    ensures |s| <= r
  {
    |s| + Astral(s)
  }

  /** The symbols the strong-password check counts. */
  const Symbols: string := "-#!$@\U{A3}%^&*()_+|~=`{}[]:\";'<>?,./\\ "

  predicate IsLower(c: char) { 'a' <= c <= 'z' }
  predicate IsUpper(c: char) { 'A' <= c <= 'Z' }
  predicate IsSymbol(c: char) { c in Symbols }

  /** At least eight UTF-16 units, with a lower-case letter, an upper-case
      letter, a digit and a symbol. */
  predicate StrongPassword(s: string)
    ensures StrongPassword(s) ==> |s| >= 4 && Utf16Length(s) >= 8
  {
    && Utf16Length(s) >= 8
    && (exists i :: 0 <= i < |s| && IsLower(s[i]))
    && (exists i :: 0 <= i < |s| && IsUpper(s[i]))
    && (exists i :: 0 <= i < |s| && IsDigit(s[i]))
    && (exists i :: 0 <= i < |s| && IsSymbol(s[i]))
  }

  /** `Admin@123` is a strong password. */
  lemma StrongPasswordExample()
    ensures StrongPassword("Admin@123")
  {
    var s := "Admin@123";
    assert Symbols[4] == '@';
    assert IsLower(s[1]) && IsUpper(s[0]) && IsDigit(s[6]) && IsSymbol(s[5]);
  }

  /** Letters and digits are no symbols. */
  lemma AlphanumericNoSymbol(c: char)
    requires IsLower(c) || IsUpper(c) || IsDigit(c)
    ensures !IsSymbol(c)
  {
    assert forall i :: 0 <= i < |Symbols| ==> !(IsLower(Symbols[i]) || IsUpper(Symbols[i]) || IsDigit(Symbols[i]));
  }

  /** A password of letters and digits only is never strong, whatever its length. */
  lemma NoSymbolNotStrong(s: string)
    requires forall i :: 0 <= i < |s| ==> IsLower(s[i]) || IsUpper(s[i]) || IsDigit(s[i])
    ensures !StrongPassword(s)
  {
    forall i | 0 <= i < |s|
      ensures !IsSymbol(s[i])
    {
      AlphanumericNoSymbol(s[i]);
    }
  }

  /** The validators the DTOs use. */
  datatype Rule =
    | IsString
    | IsNumber
    | IsNumberMaxDecimals(places: nat)
    | IsInt
    | IsBoolean
    | Min(low: real)
    | Max(high: real)
    | IsPositive
    | IsNotEmpty
    | MinLength(least: nat)
    | MaxLength(most: nat)
    | MatchesCardNumber(message: string)
    | MatchesDueDate(message: string)
    | IsTimeUnit
    | IsOrderStatus
    | IsPaymentStatus
    | IsArray
    | EachNested(lines: Schema)
    | IsUuid
    | IsEmail
    | IsPhoneNumberUz
    | IsDateString
    | IsStrongPassword

  /** Whether value `v` passes validator `r`. For `@ValidateNested` this is
      only the constraint on the property itself, that it holds an array or an
      object; its lines are checked by `NestedOk`. */
  predicate Holds(r: Rule, v: Value, env: Env)
    ensures v.Absent? || v.Null? ==> !Holds(r, v, env)
    ensures v.NaN? && Holds(r, v, env) ==> r.IsNotEmpty?
  {
    match r
    case IsString => v.Str?
    case IsNumber => v.Num?
    case IsNumberMaxDecimals(p) => v.Num? && IsWhole(v.n * Pow10(p))
    case IsInt => v.Num? && IsWhole(v.n)
    case IsBoolean => v.Bool?
    case Min(low) => v.Num? && v.n >= low
    case Max(high) => v.Num? && v.n <= high
    case IsPositive => v.Num? && v.n > 0.0
    case IsNotEmpty => !(v.Absent? || v.Null? || v == Str(""))
    case MinLength(least) => v.Str? && Length(v.s) >= least
    case MaxLength(most) => v.Str? && Length(v.s) <= most
    case MatchesCardNumber(_) => v.Str? && CardNumberOk(v.s)
    case MatchesDueDate(_) => v.Str? && DueDateOk(v.s)
    case IsTimeUnit => v.Str? && v.s in env.timeUnits
    case IsOrderStatus => v.Str? && v.s in env.orderStatuses
    case IsPaymentStatus => v.Str? && v.s in env.paymentStatuses
    case IsArray => v.Arr?
    case EachNested(_) => v.Arr? || v.Obj?
    case IsUuid => v.Str? && env.isUuid(v.s)
    case IsEmail => v.Str? && env.isEmail(v.s)
    case IsPhoneNumberUz => v.Str? && env.isPhoneUz(v.s)
    case IsDateString => v.Str? && env.isDateString(v.s)
    case IsStrongPassword => v.Str? && StrongPassword(v.s)
  }

  /** A declared property: its name, type, whether `@IsOptional` marks it, and
      its validators. */
  datatype Field = Field(name: string, kind: Kind, optional: bool, rules: seq<Rule>)

  type Schema = seq<Field>

  /** An optional property that is missing or null skips its validators. */
  predicate Skipped(f: Field, v: Value) {
    f.optional && (v.Absent? || v.Null?)
  }

  /** The property's own validators pass. */
  predicate RulesOk(f: Field, v: Value, env: Env) {
    Skipped(f, v) || forall i :: 0 <= i < |f.rules| ==> Holds(f.rules[i], v, env)
  }

  /** One nested line passes schema `lines`: it is an object, it carries no
      property `lines` does not declare, and each declared property, converted
      for its declared type, passes its own validators. */
  predicate LineOk(lines: Schema, item: Value, env: Env) {
    && item.Obj?
    && item.fields.Keys <= Names(lines)
    && forall i :: 0 <= i < |lines| ==> RulesOk(lines[i], Converted(lines[i], item.fields, env), env)
  }

  /** Every line of an array, or the object itself, passes schema `lines`. */
  predicate NestedOk(lines: Schema, v: Value, env: Env) {
    && (v.Arr? ==> forall k :: 0 <= k < |v.items| ==> LineOk(lines, v.items[k], env))
    && (v.Obj? ==> LineOk(lines, v, env))
  }

  /** The lines each `@ValidateNested` of the property names pass. */
  predicate LinesOk(f: Field, v: Value, env: Env) {
    Skipped(f, v) || forall j :: 0 <= j < |f.rules| && f.rules[j].EachNested? ==> NestedOk(f.rules[j].lines, v, env)
  }

  /** A property passes when its own validators and its nested lines pass; an
      optional property that is missing or null always passes. */
  predicate FieldOk(f: Field, v: Value, env: Env)
    ensures Skipped(f, v) ==> FieldOk(f, v, env)
  {
    RulesOk(f, v, env) && LinesOk(f, v, env)
  }

  /** The property fails only through its lines: the error the library
      reports for it carries the lines' errors and no constraint of its own. */
  predicate OnlyLinesFail(f: Field, v: Value, env: Env) {
    RulesOk(f, v, env) && !LinesOk(f, v, env)
  }

  function Names(schema: Schema): (r: set<string>)
    ensures forall i :: 0 <= i < |schema| ==> schema[i].name in r
    ensures forall n :: n in r ==> exists i :: 0 <= i < |schema| && schema[i].name == n
  {
    if |schema| == 0 then {} else Names(schema[..|schema| - 1]) + {schema[|schema| - 1].name}
  }

  function Get(body: map<string, Value>, name: string): Value {
    if name in body then body[name] else Absent
  }

  /** The value of property `f` after conversion. */
  function Converted(f: Field, body: map<string, Value>, env: Env): Value {
    Coerce(Get(body, f.name), f.kind, env)
  }

  /** The declared properties that fail, in declaration order. */
  function Failing(schema: Schema, body: map<string, Value>, env: Env): (r: seq<string>)
    ensures |r| == 0 <==> forall i :: 0 <= i < |schema| ==> FieldOk(schema[i], Converted(schema[i], body, env), env)
  {
    if |schema| == 0 then []
    else
      var f := schema[|schema| - 1];
      Failing(schema[..|schema| - 1], body, env) + (if FieldOk(f, Converted(f, body, env), env) then [] else [f.name])
  }

  /** The refusal text a decorator sets itself, if it sets one. */
  function OwnMessage(r: Rule): (m: Option<string>)
    ensures m.Some? <==> r.MatchesCardNumber? || r.MatchesDueDate?
    ensures m.Some? ==> m.value == r.message
  {
    match r
    case MatchesCardNumber(message) => Some(message)
    case MatchesDueDate(message) => Some(message)
    case _ => None
  }

  /** The own texts of the validators of `f` that value `v` fails; an
      optional property that is missing or null fails none. */
  function FieldMessages(f: Field, v: Value, env: Env): (r: set<string>)
    ensures RulesOk(f, v, env) ==> r == {}
    ensures !Skipped(f, v) ==>
              forall j :: 0 <= j < |f.rules| && !Holds(f.rules[j], v, env) && OwnMessage(f.rules[j]).Some? ==>
                OwnMessage(f.rules[j]).value in r
    ensures forall m :: m in r ==>
              exists j :: 0 <= j < |f.rules| && !Holds(f.rules[j], v, env) && OwnMessage(f.rules[j]) == Some(m)
  {
    if f.optional && (v.Absent? || v.Null?) then {}
    else set j | 0 <= j < |f.rules| && !Holds(f.rules[j], v, env) && OwnMessage(f.rules[j]).Some? :: OwnMessage(f.rules[j]).value
  }

  /** The own texts of every declared property that fails. */
  function Messages(schema: Schema, body: map<string, Value>, env: Env): (r: set<string>)
    ensures forall m :: m in r <==>
              exists i :: 0 <= i < |schema| && m in FieldMessages(schema[i], Converted(schema[i], body, env), env)
  {
    if |schema| == 0 then {}
    else
      var f := schema[|schema| - 1];
      var front := schema[..|schema| - 1];
      assert forall i :: 0 <= i < |front| ==> front[i] == schema[i];
      Messages(front, body, env) + FieldMessages(f, Converted(f, body, env), env)
  }

  /** What the pipe does with a body: it passes it on, with each declared
      property converted as `Converted` says, or refuses with the failing
      properties, those no decorator declares, and the decorators' own texts
      among the failures. The exception factory joins the own constraints of
      each reported error; an error that carries only its lines' errors has
      none, so the factory itself throws and the refusal is answered with a
      500 instead of a 400. */
  datatype Outcome = Pass | Refuse(status: Status, failing: seq<string>, undeclared: set<string>, messages: set<string>)

  function Check(schema: Schema, body: map<string, Value>, env: Env): (r: Outcome)
    ensures r.Pass? <==> (body.Keys <= Names(schema)
                          && forall i :: 0 <= i < |schema| ==> FieldOk(schema[i], Converted(schema[i], body, env), env))
    ensures r.Refuse? ==> r.messages == Messages(schema, body, env)
    ensures r.Refuse? ==> r.status == BadRequest || r.status == InternalServerError
    ensures r.Refuse? ==>
      (r.status == InternalServerError <==>
         exists i :: 0 <= i < |schema| && OnlyLinesFail(schema[i], Converted(schema[i], body, env), env))
  {
    var failing := Failing(schema, body, env);
    var undeclared := body.Keys - Names(schema);
    var crashes := exists i :: 0 <= i < |schema| && OnlyLinesFail(schema[i], Converted(schema[i], body, env), env);
    if |failing| == 0 && undeclared == {} then Pass
    else Refuse(if crashes then InternalServerError else BadRequest, failing, undeclared, Messages(schema, body, env))
  }

  /** A property no decorator declares is refused. */
  lemma UndeclaredRefused(schema: Schema, body: map<string, Value>, env: Env, name: string)
    requires name in body && name !in Names(schema)
    ensures Check(schema, body, env).Refuse?
  {
  }

  /** An optional property may be left out or sent as null. */
  lemma OptionalMaySkip(f: Field, env: Env)
    requires f.optional
    ensures FieldOk(f, Absent, env) && FieldOk(f, Null, env)
  {
  }

  /** When the pipe passes a body, property `schema[k]` satisfies each of its validators. */
  lemma PassedField(schema: Schema, body: map<string, Value>, env: Env, k: nat)
    requires k < |schema| && !schema[k].optional && Check(schema, body, env).Pass?
    ensures forall j :: 0 <= j < |schema[k].rules| ==> Holds(schema[k].rules[j], Converted(schema[k], body, env), env)
  {
    assert FieldOk(schema[k], Converted(schema[k], body, env), env);
  }

  /** One validator `rule` of one required property, as `PassedField` gives it. */
  lemma PassedRule(schema: Schema, body: map<string, Value>, env: Env, k: nat, j: nat, rule: Rule)
    requires k < |schema| && !schema[k].optional && Check(schema, body, env).Pass?
    requires j < |schema[k].rules| && schema[k].rules[j] == rule
    ensures Holds(rule, Converted(schema[k], body, env), env)
  {
    PassedField(schema, body, env, k);
  }

  function Required(name: string, kind: Kind, rules: seq<Rule>): Field {
    Field(name, kind, false, rules)
  }

  function Optional(name: string, kind: Kind, rules: seq<Rule>): Field {
    Field(name, kind, true, rules)
  }

  const CreateOrderToolDto: Schema := [
    Required("orderId", StringKind, [IsUuid]),
    Required("toolId", StringKind, [IsUuid]),
    Required("count", NumberKind, [IsInt, Min(1.0)]),
    Required("price", NumberKind, [IsNumberMaxDecimals(2)])]

  /** A tool line of an order request: the order-tool body without its order
      id, which the new order supplies. */
  const OrderToolLine: Schema := CreateOrderToolDto[1..]

  const CreateOrderWorkerDto: Schema := [
    Required("orderId", StringKind, [IsUuid]),
    Required("workerProficiencyId", StringKind, [IsUuid]),
    Required("workerLevelId", StringKind, [IsUuid]),
    Required("count", NumberKind, [IsInt]),
    Required("withTools", BooleanKind, [IsBoolean]),
    Required("timeUnit", StringKind, [IsNotEmpty]),
    Required("time", NumberKind, [IsInt]),
    Required("price", NumberKind, [IsNumber])]

  /** A worker line of an order request, likewise without its order id. */
  const OrderWorkerLine: Schema := CreateOrderWorkerDto[1..]

  /** The order request; its two line arrays are validated line by line. */
  const CreateOrderDto: Schema := [
    Required("userId", StringKind, [IsString]),
    Required("status", StringKind, [IsOrderStatus]),
    Required("date", StringKind, [IsDateString]),
    Optional("address", StringKind, [IsString]),
    Required("overallPrice", NumberKind, [IsNumber]),
    Required("paymentMethodId", StringKind, [IsString]),
    Required("withDelivery", BooleanKind, [IsBoolean]),
    Optional("deliveryComment", StringKind, [IsString]),
    Optional("longitude", NumberKind, [IsNumber]),
    Optional("latitude", NumberKind, [IsNumber]),
    Optional("paymentStatus", StringKind, [IsPaymentStatus]),
    Optional("orderTools", ObjectKind, [IsArray, EachNested(OrderToolLine)]),
    Optional("orderWorkers", ObjectKind, [IsArray, EachNested(OrderWorkerLine)])]

  /** Where `orderTools` sits in `CreateOrderDto`. */
  const OrderToolsAt: nat := 11

  const CreateToolDto: Schema := [
    Required("name", StringKind, [IsString]),
    Optional("brandId", StringKind, [IsUuid]),
    Required("price", NumberKind, [IsNumber, IsPositive]),
    Required("inStockCount", NumberKind, [IsNumber, Min(0.0)]),
    Optional("descriptionUz", StringKind, [IsString]),
    Optional("descriptionRu", StringKind, [IsString]),
    Optional("description", StringKind, [IsString]),
    Optional("bookable", BooleanKind, [IsBoolean]),
    Optional("imagePath", StringKind, [IsString])]

  const CreateCommentWorkerDto: Schema := [
    Required("commentId", StringKind, [IsUuid]),
    Required("workerId", StringKind, [IsUuid]),
    Required("stars", NumberKind, [IsInt, Min(1.0), Max(5.0)])]

  const CreateCardDto: Schema := [
    Required("userId", StringKind, [IsString]),
    Required("card_number", StringKind, [IsString, MatchesCardNumber(CardNumberMessage)]),
    Required("due_date", StringKind, [IsString, MatchesDueDate(DueDateMessage)])]

  const CardNumberMessage: string := "Card number must be exactly 16 digits"
  const DueDateMessage: string := "Due date must be in MM/YY format"

  const CreateAdminDto: Schema := [
    Required("name", StringKind, [IsString]),
    Required("email", StringKind, [IsString, IsEmail]),
    Required("password", StringKind, [IsStrongPassword, IsString]),
    Optional("isSuperAdmin", BooleanKind, [IsBoolean])]

  const UserActivationDto: Schema := [
    Required("phone", StringKind, [IsPhoneNumberUz]),
    Required("otp", StringKind, [IsString, IsNotEmpty, MinLength(6), MaxLength(6)])]

  /** `isVerified` carries only `@IsOptional`: any value passes. */
  const CreateWorkerDto: Schema := [
    Required("fullname", StringKind, [IsString, IsNotEmpty]),
    Required("phone", StringKind, [IsString, IsNotEmpty]),
    Required("birthdate", StringKind, [IsDateString]),
    Required("address", StringKind, [IsString, IsNotEmpty]),
    Required("timeUnit", StringKind, [IsTimeUnit]),
    Optional("minWorkingTime", NumberKind, [IsInt]),
    Optional("maxWorkingTime", NumberKind, [IsInt]),
    Optional("pricePerHour", NumberKind, [IsNumber]),
    Optional("pricePerDay", NumberKind, [IsNumber]),
    Required("levelId", StringKind, [IsUuid]),
    Required("experience", NumberKind, [IsInt, Min(0.0)]),
    Optional("aboutUz", StringKind, [IsString]),
    Optional("aboutRu", StringKind, [IsString]),
    Required("about", StringKind, [IsString, IsNotEmpty]),
    Optional("profileImage", StringKind, [IsString]),
    Required("idcardImage", StringKind, [IsString, IsNotEmpty]),
    Optional("isVerified", BooleanKind, [])]

  /** Shared by the REST body and the GraphQL input of a product. */
  const CreateProductDto: Schema := [
    Required("name", StringKind, [IsString]),
    Optional("description", StringKind, [IsString]),
    Required("price", NumberKind, [IsNumber, Min(0.0)]),
    Required("inStockCount", NumberKind, [IsInt, Min(0.0)]),
    Required("categoryId", StringKind, [IsString])]

  const CreateUserDto: Schema := [
    Required("fullname", StringKind, [IsString]),
    Required("email", StringKind, [IsEmail]),
    Required("password", StringKind, [IsString, MinLength(8)]),
    Required("phone", StringKind, [IsString]),
    Required("username", StringKind, [IsString]),
    Optional("address", StringKind, [IsString]),
    Optional("regionId", StringKind, [IsString]),
    Optional("hasCompany", BooleanKind, [IsBoolean]),
    Optional("isActive", BooleanKind, [IsBoolean])]

  const SignupUserDto: Schema := [
    Required("fullname", StringKind, [IsString, IsNotEmpty]),
    Required("email", StringKind, [IsEmail]),
    Required("password", StringKind, [IsString, MinLength(6)]),
    Required("phone", StringKind, [IsPhoneNumberUz]),
    Optional("address", StringKind, [IsString]),
    Required("username", StringKind, [IsString]),
    Optional("regionId", StringKind, [IsString])]

  /** The order update body declares its properties for the API documentation
      only; no validator decorator names them. */
  const UpdateOrderDto: Schema := []

  /** With the whitelist on, an order update carrying any property is refused. */
  lemma OrderUpdateRefused(body: map<string, Value>, env: Env, name: string)
    requires name in body
    ensures Check(UpdateOrderDto, body, env).Refuse?
    ensures name in Check(UpdateOrderDto, body, env).undeclared
  {
  }

  /** An order line that passes has a whole count of at least one. */
  lemma OrderLineCount(body: map<string, Value>, env: Env)
    requires Check(CreateOrderToolDto, body, env).Pass?
    ensures var v := Converted(CreateOrderToolDto[2], body, env); v.Num? && IsWhole(v.n) && v.n >= 1.0
  {
    PassedRule(CreateOrderToolDto, body, env, 2, 0, IsInt);
    PassedRule(CreateOrderToolDto, body, env, 2, 1, Min(1.0));
  }

  /** A tool line that passes, read back: a text tool id, a whole count of at
      least one and a price. */
  predicate ToolLineShape(lines: Schema, item: Value, env: Env)
    requires |lines| == 3
  {
    && item.Obj?
    && item.fields.Keys <= Names(lines)
    && Converted(lines[0], item.fields, env).Str?
    && (var c := Converted(lines[1], item.fields, env); c.Num? && IsWhole(c.n) && c.n >= 1.0)
    && Converted(lines[2], item.fields, env).Num?
  }

  /** An order request that passes has no tool lines, or an array of them in
      which every line is an object with no property beyond the tool id, the
      count and the price, a text tool id, a whole count of at least one and a
      numeric price. */
  lemma OrderRequestLines(body: map<string, Value>, env: Env)
    requires Check(CreateOrderDto, body, env).Pass?
    ensures |OrderToolLine| == 3
    ensures var v := Converted(CreateOrderDto[OrderToolsAt], body, env);
      && (v.Absent? || v.Null? || v.Arr?)
      && (v.Arr? ==> forall k :: 0 <= k < |v.items| ==> ToolLineShape(OrderToolLine, v.items[k], env))
  {
    PassedProperty(CreateOrderDto, body, env, OrderToolsAt);
    assert CreateOrderDto[OrderToolsAt] == Optional("orderTools", ObjectKind, [IsArray, EachNested(OrderToolLine)]);
    assert OrderToolLine == [Required("toolId", StringKind, [IsUuid]), Required("count", NumberKind, [IsInt, Min(1.0)]),
                             Required("price", NumberKind, [IsNumberMaxDecimals(2)])];
    PassedToolLines(CreateOrderDto[OrderToolsAt], OrderToolLine, Converted(CreateOrderDto[OrderToolsAt], body, env), env);
  }

  /** A passing array property of tool lines holds only lines of that shape. */
  lemma PassedToolLines(f: Field, lines: Schema, v: Value, env: Env)
    requires FieldOk(f, v, env) && f.optional && f.rules == [IsArray, EachNested(lines)]
    requires lines == [Required("toolId", StringKind, [IsUuid]), Required("count", NumberKind, [IsInt, Min(1.0)]),
                       Required("price", NumberKind, [IsNumberMaxDecimals(2)])]
    ensures v.Absent? || v.Null? || v.Arr?
    ensures v.Arr? ==> forall k :: 0 <= k < |v.items| ==> ToolLineShape(lines, v.items[k], env)
  {
    if !Skipped(f, v) {
      NestedOfRule(f, v, env, 1);
      assert RulesOk(f, v, env);
      assert Holds(f.rules[0], v, env);
      if v.Arr? {
        forall k | 0 <= k < |v.items|
          ensures ToolLineShape(lines, v.items[k], env)
        {
          PassedToolLine(lines, v.items[k], env);
        }
      }
    }
  }

  /** A passing tool line has the shape `ToolLineShape` reads back. */
  lemma PassedToolLine(lines: Schema, item: Value, env: Env)
    requires LineOk(lines, item, env)
    requires lines == [Required("toolId", StringKind, [IsUuid]), Required("count", NumberKind, [IsInt, Min(1.0)]),
                       Required("price", NumberKind, [IsNumberMaxDecimals(2)])]
    ensures ToolLineShape(lines, item, env)
  {
    var t := Converted(lines[0], item.fields, env);
    var c := Converted(lines[1], item.fields, env);
    var p := Converted(lines[2], item.fields, env);
    assert RulesOk(lines[0], t, env) && RulesOk(lines[1], c, env) && RulesOk(lines[2], p, env);
    assert Holds(lines[0].rules[0], t, env);
    assert Holds(lines[1].rules[0], c, env) && Holds(lines[1].rules[1], c, env);
    assert Holds(lines[2].rules[0], p, env);
  }

  /** A property of a passing body passes, its lines included. */
  lemma PassedProperty(schema: Schema, body: map<string, Value>, env: Env, i: nat)
    requires i < |schema| && Check(schema, body, env).Pass?
    ensures FieldOk(schema[i], Converted(schema[i], body, env), env)
  {
  }

  /** A passing property that is present passes each of its nested schemas. */
  lemma NestedOfRule(f: Field, v: Value, env: Env, j: nat)
    requires FieldOk(f, v, env) && !Skipped(f, v) && j < |f.rules| && f.rules[j].EachNested?
    ensures Holds(f.rules[j], v, env) && NestedOk(f.rules[j].lines, v, env)
  {
  }

  /** A required property of a passing line passes each of its validators. */
  lemma LineRule(lines: Schema, item: Value, env: Env, i: nat)
    requires LineOk(lines, item, env) && i < |lines| && !lines[i].optional
    ensures forall j :: 0 <= j < |lines[i].rules| ==> Holds(lines[i].rules[j], Converted(lines[i], item.fields, env), env)
  {
    assert RulesOk(lines[i], Converted(lines[i], item.fields, env), env);
  }

  /** An array of tool lines with one line that fails, while the array itself
      is fine, is refused with a 500: the error for `orderTools` carries only
      its lines' errors. */
  lemma BadLineAnswersInternal(body: map<string, Value>, env: Env, k: nat)
    requires var v := Converted(CreateOrderDto[OrderToolsAt], body, env);
      v.Arr? && k < |v.items| && !LineOk(OrderToolLine, v.items[k], env)
    ensures Check(CreateOrderDto, body, env).Refuse?
    ensures Check(CreateOrderDto, body, env).status == InternalServerError
  {
    var f := CreateOrderDto[OrderToolsAt];
    var v := Converted(f, body, env);
    assert f.rules == [IsArray, EachNested(OrderToolLine)];
    assert RulesOk(f, v, env);
    assert !NestedOk(OrderToolLine, v, env);
    assert !LinesOk(f, v, env) by {
      assert f.rules[1].EachNested? && f.rules[1].lines == OrderToolLine;
    }
    assert OnlyLinesFail(f, v, env);
    assert !FieldOk(f, v, env);
  }

  /** A rating that passes has a whole number of stars from one to five. */
  lemma RatingStars(body: map<string, Value>, env: Env)
    requires Check(CreateCommentWorkerDto, body, env).Pass?
    ensures var v := Converted(CreateCommentWorkerDto[2], body, env);
      v.Num? && IsWhole(v.n) && 1.0 <= v.n <= 5.0
  {
    PassedRule(CreateCommentWorkerDto, body, env, 2, 0, IsInt);
    PassedRule(CreateCommentWorkerDto, body, env, 2, 1, Min(1.0));
    PassedRule(CreateCommentWorkerDto, body, env, 2, 2, Max(5.0));
  }

  /** A tool that passes has a positive price and a stock of at least zero,
      which need not be whole. */
  lemma ToolBounds(body: map<string, Value>, env: Env)
    requires Check(CreateToolDto, body, env).Pass?
    ensures var p := Converted(CreateToolDto[2], body, env); p.Num? && p.n > 0.0
    ensures var s := Converted(CreateToolDto[3], body, env); s.Num? && s.n >= 0.0
  {
    PassedRule(CreateToolDto, body, env, 2, 1, IsPositive);
    PassedRule(CreateToolDto, body, env, 3, 1, Min(0.0));
  }

  /** A product that passes has a price and a whole stock of at least zero. */
  lemma ProductBounds(body: map<string, Value>, env: Env)
    requires Check(CreateProductDto, body, env).Pass?
    ensures var p := Converted(CreateProductDto[2], body, env); p.Num? && p.n >= 0.0
    ensures var s := Converted(CreateProductDto[3], body, env); s.Num? && IsWhole(s.n) && s.n >= 0.0
  {
    PassedRule(CreateProductDto, body, env, 2, 1, Min(0.0));
    PassedRule(CreateProductDto, body, env, 3, 0, IsInt);
    PassedRule(CreateProductDto, body, env, 3, 1, Min(0.0));
  }

  /** A worker that passes has a whole number of years of experience, at least zero. */
  lemma WorkerExperience(body: map<string, Value>, env: Env)
    requires Check(CreateWorkerDto, body, env).Pass?
    ensures var e := Converted(CreateWorkerDto[10], body, env); e.Num? && IsWhole(e.n) && e.n >= 0.0
  {
    PassedRule(CreateWorkerDto, body, env, 10, 0, IsInt);
    PassedRule(CreateWorkerDto, body, env, 10, 1, Min(0.0));
  }

  /** The working times are checked one by one, so a minimum above the maximum
      passes; `isVerified` passes whatever it holds. */
  lemma WorkerLooseFields(env: Env, low: int, high: int, v: Value)
    requires low > high
    ensures FieldOk(CreateWorkerDto[5], Num(low as real), env) && FieldOk(CreateWorkerDto[6], Num(high as real), env)
    ensures FieldOk(CreateWorkerDto[16], v, env)
  {
  }

  /** A numeric string is converted before it is checked, so a product's
      stock may arrive as text. */
  lemma StockFromText(env: Env, s: string, n: real)
    requires env.toNumber(s) == Some(n)
    ensures Converted(CreateProductDto[3], map["inStockCount" := Str(s)], env) == Num(n)
  {
  }

  /** A card that passes has a sixteen-digit number and a due date that parses. */
  lemma CardFormats(body: map<string, Value>, env: Env)
    requires Check(CreateCardDto, body, env).Pass?
    ensures var c := Converted(CreateCardDto[1], body, env); c.Str? && CardNumberOk(c.s)
    ensures var d := Converted(CreateCardDto[2], body, env); d.Str? && ParseDueDate(d.s).Some?
  {
    PassedRule(CreateCardDto, body, env, 1, 1, MatchesCardNumber(CardNumberMessage));
    PassedRule(CreateCardDto, body, env, 2, 1, MatchesDueDate(DueDateMessage));
  }

  /** A text is among the refusal's texts exactly when some declared property
      fails with it: a failing property always refuses the body. */
  lemma RefusedWith(schema: Schema, body: map<string, Value>, env: Env, m: string)
    ensures var o := Check(schema, body, env);
      (o.Refuse? && m in o.messages) <==> m in Messages(schema, body, env)
  {
    if m in Messages(schema, body, env) {
      var i :| 0 <= i < |schema| && m in FieldMessages(schema[i], Converted(schema[i], body, env), env);
      assert !FieldOk(schema[i], Converted(schema[i], body, env), env);
    }
  }

  /** A required text property checked by `@IsString` and one decorator
      with its own text `m` fails with `m` alone, exactly when that decorator fails. */
  lemma PatternMessage(f: Field, v: Value, env: Env, m: string)
    requires !f.optional && |f.rules| == 2 && f.rules[0] == IsString && OwnMessage(f.rules[1]) == Some(m)
    ensures FieldMessages(f, v, env) == if Holds(f.rules[1], v, env) then {} else {m}
  {
    var r := FieldMessages(f, v, env);
    forall x | x in r
      ensures x == m
    {
      var j :| 0 <= j < |f.rules| && !Holds(f.rules[j], v, env) && OwnMessage(f.rules[j]) == Some(x);
      assert j == 1;
    }
  }

  /** The texts a card body fails with: the card-number text exactly when
      the number is not sixteen digits, the due-date text exactly when the due
      date is not `MM/YY`. */
  lemma CardMessageSet(body: map<string, Value>, env: Env)
    ensures var c := Converted(CreateCardDto[1], body, env);
      CardNumberMessage in Messages(CreateCardDto, body, env) <==> !(c.Str? && CardNumberOk(c.s))
    ensures var d := Converted(CreateCardDto[2], body, env);
      DueDateMessage in Messages(CreateCardDto, body, env) <==> !(d.Str? && DueDateOk(d.s))
  {
    var f0, f1, f2 := CreateCardDto[0], CreateCardDto[1], CreateCardDto[2];
    var v0, v1, v2 := Converted(f0, body, env), Converted(f1, body, env), Converted(f2, body, env);
    assert OwnMessage(f0.rules[0]).None?;
    PatternMessage(f1, v1, env, CardNumberMessage);
    PatternMessage(f2, v2, env, DueDateMessage);
    assert CardNumberMessage != DueDateMessage by {
      assert CardNumberMessage[0] != DueDateMessage[0];
    }
  }

  /** A card is refused with the card-number text exactly when its number,
      after conversion, is not sixteen digits, and with the due-date text
      exactly when its due date is not `MM/YY`. */
  lemma CardMessages(body: map<string, Value>, env: Env)
    ensures var o := Check(CreateCardDto, body, env);
      var c := Converted(CreateCardDto[1], body, env);
      (o.Refuse? && CardNumberMessage in o.messages) <==> !(c.Str? && CardNumberOk(c.s))
    ensures var o := Check(CreateCardDto, body, env);
      var d := Converted(CreateCardDto[2], body, env);
      (o.Refuse? && DueDateMessage in o.messages) <==> !(d.Str? && DueDateOk(d.s))
  {
    CardMessageSet(body, env);
    RefusedWith(CreateCardDto, body, env, CardNumberMessage);
    RefusedWith(CreateCardDto, body, env, DueDateMessage);
  }

  /** An activation that passes carries a one-time password of exactly six characters. */
  lemma OtpLength(body: map<string, Value>, env: Env)
    requires Check(UserActivationDto, body, env).Pass?
    ensures var o := Converted(UserActivationDto[1], body, env); o.Str? && Length(o.s) == 6
  {
    PassedRule(UserActivationDto, body, env, 1, 2, MinLength(6));
    PassedRule(UserActivationDto, body, env, 1, 3, MaxLength(6));
  }

  /** An admin that passes has a strong password. */
  lemma AdminPassword(body: map<string, Value>, env: Env)
    requires Check(CreateAdminDto, body, env).Pass?
    ensures var p := Converted(CreateAdminDto[2], body, env); p.Str? && StrongPassword(p.s)
  {
    PassedRule(CreateAdminDto, body, env, 2, 0, IsStrongPassword);
  }

  lemma {:induction false} NoSelectors(s: string)
    requires forall i :: 0 <= i < |s| ==> s[i] != '\U{FE0E}' && s[i] != '\U{FE0F}'
    ensures Length(s) == |s|
  {
    if |s| > 0 {
      NoSelectors(s[..|s| - 1]);
    }
  }

  /** Sign-up takes a password of six or seven characters that user creation refuses. */
  lemma PasswordMinimums(p: string, env: Env)
    requires 6 <= |p| < 8 && forall i :: 0 <= i < |p| ==> p[i] != '\U{FE0E}' && p[i] != '\U{FE0F}'
    ensures FieldOk(SignupUserDto[2], Str(p), env)
    ensures !FieldOk(CreateUserDto[2], Str(p), env)
  {
    NoSelectors(p);
    assert !Holds(CreateUserDto[2].rules[1], Str(p), env);
  }
}
