/**
 * The `Calculation` record of calc/handler.py: its three declared fields, the
 * validation that turns a deserialised mapping into a record or a list of
 * field errors, and `execute`, which dispatches on the operation.
 *
 * Operands are modelled as `real`: the model computes exactly where the
 * source computes with 64-bit floats.
 */
module Calculations {
  import opened Wrappers
  import opened Operations

  /** A validated request: an operation and its two operands. */
  datatype Calculation = Calculation(op: OperationType, var1: real, var2: real)

  /** Exceptions raised while validating or executing a request. */
  datatype Exception =
    | ZeroDivisionError     // a float divided by zero, or zero raised to a negative power
    | UnknownOperationError // the `ValueError("unknown operation")` after the dispatch
    | OverflowError         // float() of an integer beyond the float range

  /** What `execute` yields: a value, a raised exception, or a result outside the model. */
  datatype Evaluation =
    | Value(x: real)
    | Raises(error: Exception)
    | Unmodelled            // a non-zero base to a fractional exponent: irrational or complex in general

  /** `b` raised to the natural power `n`. */
  function NatPower(b: real, n: nat): (r: real)
    ensures b != 0.0 ==> r != 0.0
    ensures b > 0.0 ==> r > 0.0
  {
    if n == 0 then 1.0 else b * NatPower(b, n - 1)
  }

  /** Does `x` have no fractional part? */
  predicate IsIntegral(x: real)
  {
    x.Floor as real == x
  }

  /**
   * Float power `b ** e`. Zero to a negative power raises, zero to a positive
   * power is zero, and otherwise an integral exponent is a repeated product
   * (or the reciprocal of one).
   */
  function Pow(b: real, e: real): (r: Evaluation)
    ensures r == Raises(ZeroDivisionError) <==> b == 0.0 && e < 0.0
    ensures b == 0.0 && e > 0.0 ==> r == Value(0.0)
    ensures r.Unmodelled? <==> b != 0.0 && !IsIntegral(e)
    ensures IsIntegral(e) && e >= 0.0 ==> r == Value(NatPower(b, e.Floor))
    ensures r.Value? && e < 0.0 ==> r.x * NatPower(b, -e.Floor) == 1.0
  {
    if b == 0.0 && e < 0.0 then Raises(ZeroDivisionError)
    else if b == 0.0 && e > 0.0 then Value(0.0)
    else if !IsIntegral(e) then Unmodelled
    else if e >= 0.0 then Value(NatPower(b, e.Floor))
    else Value(1.0 / NatPower(b, -e.Floor))
  }

  /** Powers add when their exponents do. */
  lemma {:induction false} NatPowerAdd(b: real, m: nat, n: nat)
    ensures NatPower(b, m + n) == NatPower(b, m) * NatPower(b, n)
  {
    if m > 0 {
      calc {
        NatPower(b, m + n);
        b * NatPower(b, m - 1 + n);
        { NatPowerAdd(b, m - 1, n); }
        b * (NatPower(b, m - 1) * NatPower(b, n));
        (b * NatPower(b, m - 1)) * NatPower(b, n);
        NatPower(b, m) * NatPower(b, n);
      }
    }
  }

  /** A negative integral exponent gives the reciprocal of the positive one. */
  lemma PowNegatedExponent(b: real, e: real)
    requires b != 0.0 && IsIntegral(e)
    ensures Pow(b, e).Value? && Pow(b, -e).Value?
    ensures Pow(b, e).x * Pow(b, -e).x == 1.0
  {
    assert (-e).Floor == -e.Floor;
    assert IsIntegral(-e);
  }

  /** Multiplying a quotient by its divisor gives back the dividend. */
  lemma QuotientTimesDivisor(a: real, b: real)
    requires b != 0.0
    ensures (a / b) * b == a
  {
  }

  /**
   * `execute`: each member selects its own arithmetic operator. The final
   * `UnknownOperationError` mirrors the source's fall-through raise; the
   * contract shows that no request reaches it.
   */
  function Execute(c: Calculation): (r: Evaluation)
    ensures r != Raises(UnknownOperationError)
    ensures c.op == Add ==> r.Value? && r.x - c.var2 == c.var1
    ensures c.op == Subtract ==> r.Value? && r.x + c.var2 == c.var1
    ensures c.op == Multiply ==> r.Value? && r.x == c.var1 * c.var2
    ensures c.op == Divide ==> (r == Raises(ZeroDivisionError) <==> c.var2 == 0.0)
    ensures c.op == Divide && c.var2 != 0.0 ==> r.Value? && r.x * c.var2 == c.var1
    ensures c.op == Power ==> r == Pow(c.var1, c.var2)
  {
    if c.op.Add? then Value(c.var1 + c.var2)
    else if c.op.Subtract? then Value(c.var1 - c.var2)
    else if c.op.Multiply? then Value(c.var1 * c.var2)
    else if c.op.Divide? then
      (if c.var2 == 0.0 then Raises(ZeroDivisionError)
       else QuotientTimesDivisor(c.var1, c.var2); Value(c.var1 / c.var2))
    else if c.op.Power? then Pow(c.var1, c.var2)
    else Raises(UnknownOperationError)
  }

  /** Only division by zero and zero to a negative power, integral or not, raise anything. */
  lemma ExecuteRaisesOnlyOnZero(c: Calculation)
    ensures Execute(c).Raises? <==>
      (c.op == Divide && c.var2 == 0.0)
      || (c.op == Power && c.var1 == 0.0 && c.var2 < 0.0)
  {
  }

  // ---------------------------------------------------------------------
  // Validation of the declared fields

  /** A deserialised value as a field validator sees it. */
  datatype RawValue =
    | Text(s: string)   // a JSON string
    | Integer(n: int)   // a JSON integer (a boolean behaves as 1 or 0)
    | Number(x: real)   // a JSON number with a fraction or an exponent
    | Structured        // a JSON array or object

  /** The declared fields of `Calculation`. */
  datatype Field = OpField | Var1 | Var2

  /** The fields in declaration order. */
  const Schema: seq<Field> := [OpField, Var1, Var2]

  /** The key under which a field is looked up, and its error location. */
  function Name(f: Field): string
  {
    match f
    case OpField => "op"
    case Var1 => "var1"
    case Var2 => "var2"
  }

  /** The field's place in the declaration order. */
  function Position(f: Field): (i: nat)
    ensures i < |Schema| && Schema[i] == f
  {
    match f
    case OpField => 0
    case Var1 => 1
    case Var2 => 2
  }

  /** The three kinds of field error. */
  datatype ErrorKind = Missing | NotAMember | NotAFloat

  /** The message reported for each kind of error. */
  function Message(k: ErrorKind): string
  {
    match k
    case Missing => "field required"
    case NotAMember => NotAMemberMessage()
    case NotAFloat => "value is not a valid float"
  }

  /** One reported error: its location is the field's name, its message the kind's. */
  datatype FieldError = FieldError(field: Field, kind: ErrorKind)
  {
    function Loc(): seq<string> { [Name(field)] }
    function Msg(): string { Message(kind) }
  }

  /** Coercion of a value to an operation: only a string naming a member succeeds. */
  function ToOperation(v: RawValue): (r: Option<OperationType>)
    ensures r.Some? <==> v.Text? && v.s in {"+", "-", "*", "/", "^"}
    ensures r.Some? ==> Token(r.value) == v.s
  {
    if v.Text? then ParseTokenAcceptsExactly(v.s); ParseToken(v.s) else None
  }

  /**
   * float() turns an integer into a float unless it rounds beyond the largest
   * float: from 2^1024 - 2^970 on, in either sign, it raises OverflowError.
   */
  const FloatOverflowBound: int := 179769313486231580793728971405303415079934132710037826936173778980444968292764750946649017977587207096330286416692887910946555547851940402630657488671505820681908902000708383676273854845817711531764475730270069855571366959622842914819860834936475292719074168444365510704342711559699508093042880177904174497792

  predicate FitsFloat(n: int)
  {
    -FloatOverflowBound < n < FloatOverflowBound
  }

  /**
   * Coercion of a value to a float. A number is taken as it is, an integer
   * keeps its value when it fits, a string goes through `floatOfText`, which
   * stands for Python's float() on a string and is left abstract, and an
   * array or object is refused. An integer that does not fit gives None here;
   * `Validate` raises OverflowError for it before any error is reported.
   */
  function ToFloat(v: RawValue, floatOfText: string -> Option<real>): (r: Option<real>)
    ensures v.Integer? ==> (r.Some? <==> FitsFloat(v.n))
    ensures v.Integer? && r.Some? ==> r.value.Floor == v.n && IsIntegral(r.value)
    ensures v.Number? ==> r == Some(v.x)
    ensures v.Text? ==> r == floatOfText(v.s)
    ensures v.Structured? ==> r.None?
  {
    match v
    case Integer(n) => if FitsFloat(n) then Some(n as real) else None
    case Number(x) => Some(x)
    case Text(s) => floatOfText(s)
    case Structured => None
  }

  /** Does float() raise OverflowError on the value of an operand? */
  predicate OperandTooLarge(m: map<string, RawValue>)
  {
    exists f :: f != OpField && Name(f) in m && m[Name(f)].Integer? && !FitsFloat(m[Name(f)].n)
  }

  /** The coerced value of a field, or None when it is missing or does not coerce. */
  function OperationOf(m: map<string, RawValue>): Option<OperationType>
  {
    if "op" in m then ToOperation(m["op"]) else None
  }

  function OperandOf(m: map<string, RawValue>, f: Field, floatOfText: string -> Option<real>): Option<real>
  {
    if Name(f) in m then ToFloat(m[Name(f)], floatOfText) else None
  }

  /**
   * The error, if any, for one field. The required check comes first, so a
   * missing field never also reports a type error.
   */
  function Check(f: Field, m: map<string, RawValue>, floatOfText: string -> Option<real>): (r: Option<ErrorKind>)
    ensures r == Some(Missing) <==> Name(f) !in m
    ensures r.None? <==>
      (if f == OpField then OperationOf(m).Some? else OperandOf(m, f, floatOfText).Some?)
    ensures r == Some(NotAMember) ==> f == OpField
    ensures r == Some(NotAFloat) ==> f != OpField
  {
    if Name(f) !in m then Some(Missing)
    else if f == OpField then
      (if ToOperation(m[Name(f)]).Some? then None else Some(NotAMember))
    else if ToFloat(m[Name(f)], floatOfText).Some? then None
    else Some(NotAFloat)
  }

  /** Fields listed in strictly increasing declaration order. */
  predicate Ascending(fields: seq<Field>)
  {
    forall i, j :: 0 <= i < j < |fields| ==> Position(fields[i]) < Position(fields[j])
  }

  /**
   * Every field is checked, whatever the others gave, and each failing field
   * contributes exactly one error, in the order the fields are listed.
   */
  function Collect(fields: seq<Field>, m: map<string, RawValue>, floatOfText: string -> Option<real>)
    : (errs: seq<FieldError>)
    requires Ascending(fields)
    ensures |errs| <= |fields|
    ensures forall i :: 0 <= i < |errs| ==>
      errs[i].field in fields && Check(errs[i].field, m, floatOfText) == Some(errs[i].kind)
    ensures forall i :: 0 <= i < |errs| ==> Position(fields[0]) <= Position(errs[i].field)
    ensures forall i, j :: 0 <= i < j < |errs| ==> Position(errs[i].field) < Position(errs[j].field)
  {
    if fields == [] then []
    else
      var rest := Collect(fields[1..], m, floatOfText);
      match Check(fields[0], m, floatOfText)
      case None => rest
      case Some(k) => [FieldError(fields[0], k)] + rest
  }

  /** No failing field is dropped: each one listed has its error in the result. */
  lemma {:induction false} CollectComplete(fields: seq<Field>, m: map<string, RawValue>,
                                           floatOfText: string -> Option<real>, f: Field)
    requires Ascending(fields)
    requires f in fields && Check(f, m, floatOfText).Some?
    ensures FieldError(f, Check(f, m, floatOfText).value) in Collect(fields, m, floatOfText)
  {
    if f != fields[0] {
      assert f in fields[1..];
      CollectComplete(fields[1..], m, floatOfText, f);
    }
  }

  /** The errors of a mapping, in declaration order. */
  function Errors(m: map<string, RawValue>, floatOfText: string -> Option<real>): seq<FieldError>
  {
    Collect(Schema, m, floatOfText)
  }

  /** No error is reported exactly when every declared field validates. */
  lemma NoErrorsIffAllValid(m: map<string, RawValue>, floatOfText: string -> Option<real>)
    ensures Errors(m, floatOfText) == [] <==> forall f :: Check(f, m, floatOfText).None?
  {
    forall f | Check(f, m, floatOfText).Some? ensures Errors(m, floatOfText) != [] {
      assert f == Schema[Position(f)];
      CollectComplete(Schema, m, floatOfText, f);
    }
    var errs := Errors(m, floatOfText);
    if errs != [] {
      assert Check(errs[0].field, m, floatOfText).Some?;
    }
  }

  /** At most one error per field, so never more than three. */
  lemma AtMostOneErrorPerField(m: map<string, RawValue>, floatOfText: string -> Option<real>)
    ensures |Errors(m, floatOfText)| <= 3
    ensures forall i, j :: 0 <= i < j < |Errors(m, floatOfText)| ==>
      Errors(m, floatOfText)[i].field != Errors(m, floatOfText)[j].field
  {
  }

  /** The result of validating a mapping against the declared fields. */
  datatype Validation =
    | Valid(record: Calculation)
    | Invalid(errors: seq<FieldError>)
    | Raised(error: Exception)   // a validator raised something other than a validation error

  /**
   * `Calculation.parse_obj`: the record when every field validates, otherwise
   * every field's error; there is no partial record. An operand too large for
   * a float makes float() raise OverflowError, which no validator catches, so
   * it escapes whatever the other fields hold.
   */
  function Validate(m: map<string, RawValue>, floatOfText: string -> Option<real>): (r: Validation)
    ensures r.Raised? <==> OperandTooLarge(m)
    ensures r.Raised? ==> r.error == OverflowError
    ensures r.Valid? <==> !OperandTooLarge(m) && Errors(m, floatOfText) == []
    ensures r.Invalid? ==> r.errors == Errors(m, floatOfText) && r.errors != []
    ensures r.Valid? ==>
      && "op" in m && ToOperation(m["op"]) == Some(r.record.op)
      && "var1" in m && ToFloat(m["var1"], floatOfText) == Some(r.record.var1)
      && "var2" in m && ToFloat(m["var2"], floatOfText) == Some(r.record.var2)
  {
    var op, a, b := OperationOf(m), OperandOf(m, Var1, floatOfText), OperandOf(m, Var2, floatOfText);
    NoErrorsIffAllValid(m, floatOfText);
    assert Check(OpField, m, floatOfText).None? <==> op.Some?;
    assert Check(Var1, m, floatOfText).None? <==> a.Some?;
    assert Check(Var2, m, floatOfText).None? <==> b.Some?;
    if OperandTooLarge(m) then Raised(OverflowError)
    else if op.Some? && a.Some? && b.Some? then Valid(Calculation(op.value, a.value, b.value))
    else Invalid(Errors(m, floatOfText))
  }

  /** An operand too large for a float is never reported as a field error: it raises. */
  lemma TooLargeOperandRaises(m: map<string, RawValue>, floatOfText: string -> Option<real>, f: Field)
    requires f != OpField && Name(f) in m && m[Name(f)].Integer? && !FitsFloat(m[Name(f)].n)
    ensures Validate(m, floatOfText) == Raised(OverflowError)
    ensures Check(f, m, floatOfText) == Some(NotAFloat)
  {
  }

  /** In a mapping that reaches field validation, keys other than the declared fields are ignored. */
  lemma ExtraKeysIgnored(m: map<string, RawValue>, floatOfText: string -> Option<real>)
    ensures var declared := m - (m.Keys - {"op", "var1", "var2"});
      Validate(m, floatOfText) == Validate(declared, floatOfText)
  {
    var declared := m - (m.Keys - {"op", "var1", "var2"});
    forall f ensures Name(f) in declared <==> Name(f) in m
      ensures Name(f) in m ==> declared[Name(f)] == m[Name(f)]
      ensures Check(f, m, floatOfText) == Check(f, declared, floatOfText)
    {
      assert Name(f) in {"op", "var1", "var2"};
    }
    assert OperandTooLarge(m) <==> OperandTooLarge(declared);
    CollectAgrees(Schema, m, declared, floatOfText);
  }

  /** Mappings on which every field checks alike give the same errors. */
  lemma {:induction false} CollectAgrees(fields: seq<Field>, m: map<string, RawValue>, m': map<string, RawValue>,
                                         floatOfText: string -> Option<real>)
    requires Ascending(fields)
    requires forall f :: Check(f, m, floatOfText) == Check(f, m', floatOfText)
    ensures Collect(fields, m, floatOfText) == Collect(fields, m', floatOfText)
  {
    if fields != [] {
      CollectAgrees(fields[1..], m, m', floatOfText);
    }
  }
}
