/**
 * `handle` of calc/handler.py: one request body in, one (payload, status)
 * pair out. When `parse_raw` raises anything other than a validation error
 * the answer is 500; a validation error (a body rejected as a whole, or
 * fields that do not validate) gives 422 with the errors; a valid body gives
 * 200 with the value `execute` computes.
 */
module Handler {
  import opened Wrappers
  import opened Operations
  import opened Calculations

  /**
   * The request body as `parse_raw` sees it after deserialisation. `Object`
   * holds only mappings that `Calculation(**obj)` accepts: string keys, none
   * of them `__pydantic_self__`. Any other mapping makes the constructor call
   * raise, and such a body is `DecodeRaises`.
   */
  datatype Body =
    | DecodeRaises                          // parse_raw raised something other than a validation error,
                                            // while decoding or in the constructor call
    | NotAMapping(reason: string)           // not JSON, or a value dict() cannot turn into a mapping
    | Object(fields: map<string, RawValue>) // a mapping the constructor accepts (dict() of the value)

  /** The payload of a response. */
  datatype Payload =
    | ValueBody(value: real)                 // {"value": <result>}
    | ErrorListBody(errors: seq<FieldError>) // {"message": [{"loc": .., "msg": ..}, ..]}
    | RootErrorBody(msg: string)             // {"message": [{"loc": ("__root__",), "msg": msg}]}
    | ExceptionBody                          // {"message": <the exception>}

  /** What a call of `handle` does: return a response, or let an exception escape. */
  datatype Outcome =
    | Response(payload: Payload, status: int)
    | Propagates(error: Exception) // raised by execute, which runs outside the try
    | BeyondModel                  // execute's result is outside the model (fractional exponent)

  predicate IsStatus(r: Outcome, code: int)
  {
    r.Response? && r.status == code
  }

  function Handle(body: Body, floatOfText: string -> Option<real>): (r: Outcome)
    ensures r.Response? ==> r.status in {200, 422, 500}
    ensures IsStatus(r, 500) <==> body.DecodeRaises? || (body.Object? && OperandTooLarge(body.fields))
    ensures IsStatus(r, 500) ==> r.payload == ExceptionBody
    ensures IsStatus(r, 422) <==>
      body.NotAMapping? || (body.Object? && !OperandTooLarge(body.fields) && Errors(body.fields, floatOfText) != [])
    ensures body.NotAMapping? ==> r == Response(RootErrorBody(body.reason), 422)
    ensures IsStatus(r, 422) && body.Object? ==> r.payload == ErrorListBody(Errors(body.fields, floatOfText))
    ensures IsStatus(r, 200) ==>
      && body.Object?
      && Validate(body.fields, floatOfText).Valid?
      && r.payload.ValueBody?
      && Execute(Validate(body.fields, floatOfText).record) == Value(r.payload.value)
    ensures body.Object? && Validate(body.fields, floatOfText).Valid? ==>
      var e := Execute(Validate(body.fields, floatOfText).record);
      (e.Value? <==> IsStatus(r, 200)) && (e.Raises? <==> r.Propagates?)
    ensures r.Propagates? ==> r.error == ZeroDivisionError
  {
    match body
    case DecodeRaises => Response(ExceptionBody, 500)
    case NotAMapping(reason) => Response(RootErrorBody(reason), 422)
    case Object(m) =>
      match Validate(m, floatOfText)
      case Raised(_) => Response(ExceptionBody, 500)
      case Invalid(errs) => Response(ErrorListBody(errs), 422)
      case Valid(c) =>
        match Execute(c)
        case Value(x) => Response(ValueBody(x), 200)
        case Raises(e) => Propagates(e)
        case Unmodelled => BeyondModel
  }

  /** 200 exactly when every field validates and the operation yields a value. */
  lemma SuccessIffAllFieldsValid(m: map<string, RawValue>, floatOfText: string -> Option<real>)
    ensures IsStatus(Handle(Object(m), floatOfText), 200) ==> forall f :: Check(f, m, floatOfText).None?
    ensures (forall f :: Check(f, m, floatOfText).None?) ==>
      && Validate(m, floatOfText).Valid?
      && (Execute(Validate(m, floatOfText).record).Value? <==> IsStatus(Handle(Object(m), floatOfText), 200))
  {
    NoErrorsIffAllValid(m, floatOfText);
    if OperandTooLarge(m) {
      var f :| f != OpField && Name(f) in m && m[Name(f)].Integer? && !FitsFloat(m[Name(f)].n);
      TooLargeOperandRaises(m, floatOfText, f);
    }
  }

  /**
   * An invalid field means 422 and its errors, whatever the other fields
   * hold, unless an operand is too large for a float (then it is 500).
   */
  lemma AnyInvalidFieldGives422(m: map<string, RawValue>, floatOfText: string -> Option<real>, f: Field)
    requires Check(f, m, floatOfText).Some? && !OperandTooLarge(m)
    ensures Handle(Object(m), floatOfText) == Response(ErrorListBody(Errors(m, floatOfText)), 422)
    ensures FieldError(f, Check(f, m, floatOfText).value) in Errors(m, floatOfText)
  {
    NoErrorsIffAllValid(m, floatOfText);
    assert f == Schema[Position(f)];
    CollectComplete(Schema, m, floatOfText, f);
  }

  /** `{}`: three errors, one per field in declaration order, each "field required". */
  lemma EmptyBody(floatOfText: string -> Option<real>)
    ensures Handle(Object(map[]), floatOfText) == Response(ErrorListBody(
      [FieldError(OpField, Missing), FieldError(Var1, Missing), FieldError(Var2, Missing)]), 422)
    ensures var es := Handle(Object(map[]), floatOfText).payload.errors;
      && es[0].Loc() == ["op"] && es[1].Loc() == ["var1"] && es[2].Loc() == ["var2"]
      && es[0].Msg() == es[1].Msg() == es[2].Msg() == "field required"
  {
    var m: map<string, RawValue> := map[];
    assert Collect(Schema[2..], m, floatOfText) == [FieldError(Var2, Missing)];
    assert Collect(Schema[1..], m, floatOfText) == [FieldError(Var1, Missing), FieldError(Var2, Missing)];
  }

  /** An op that is not a token, beside valid operands: exactly one error, at op. */
  lemma UnknownOperationOnly(m: map<string, RawValue>, floatOfText: string -> Option<real>)
    requires "op" in m && ToOperation(m["op"]).None?
    requires OperandOf(m, Var1, floatOfText).Some? && OperandOf(m, Var2, floatOfText).Some?
    ensures Handle(Object(m), floatOfText) == Response(ErrorListBody([FieldError(OpField, NotAMember)]), 422)
    ensures FieldError(OpField, NotAMember).Loc() == ["op"]
    ensures FieldError(OpField, NotAMember).Msg()
      == "value is not a valid enumeration member; permitted: '+', '-', '*', '/', '^'"
  {
    NotAMemberMessageText();
    assert Collect(Schema[1..], m, floatOfText) == [];
  }

  /** A non-numeric var1 beside a valid op and var2: exactly one error, at var1. */
  lemma NonNumericVar1Only(m: map<string, RawValue>, floatOfText: string -> Option<real>)
    requires OperationOf(m).Some? && OperandOf(m, Var2, floatOfText).Some?
    requires "var1" in m && ToFloat(m["var1"], floatOfText).None? && !OperandTooLarge(m)
    ensures Handle(Object(m), floatOfText) == Response(ErrorListBody([FieldError(Var1, NotAFloat)]), 422)
    ensures FieldError(Var1, NotAFloat).Loc() == ["var1"]
    ensures FieldError(Var1, NotAFloat).Msg() == "value is not a valid float"
  {
    assert Collect(Schema[2..], m, floatOfText) == [];
    assert Collect(Schema[1..], m, floatOfText) == [FieldError(Var1, NotAFloat)];
  }

  /** The mapping of a request that names an op token and two operands. */
  function Request(token: string, var1: RawValue, var2: RawValue): map<string, RawValue>
  {
    map["op" := Text(token), "var1" := var1, "var2" := var2]
  }

  /** A request whose token and operands all coerce validates to the record of their values. */
  lemma RequestValidates(token: string, var1: RawValue, var2: RawValue, floatOfText: string -> Option<real>,
                         op: OperationType, x: real, y: real)
    requires Token(op) == token
    requires ToFloat(var1, floatOfText) == Some(x) && ToFloat(var2, floatOfText) == Some(y)
    ensures Validate(Request(token, var1, var2), floatOfText) == Valid(Calculation(op, x, y))
  {
    var m := Request(token, var1, var2);
    ParseTokenRoundTrip(op);
    assert m["op"] == Text(token) && m["var1"] == var1 && m["var2"] == var2;
    forall f | f != OpField && Name(f) in m ensures m[Name(f)] == var1 || m[Name(f)] == var2 {
    }
    assert !OperandTooLarge(m);
  }

  /** {"op": "+", "var1": "1.0", "var2": 0} gives 200 and 1.0. */
  lemma AdditionExample(floatOfText: string -> Option<real>)
    requires floatOfText("1.0") == Some(1.0)
    ensures Handle(Object(Request("+", Text("1.0"), Integer(0))), floatOfText) == Response(ValueBody(1.0), 200)
  {
    RequestValidates("+", Text("1.0"), Integer(0), floatOfText, Add, 1.0, 0.0);
  }

  /** {"op": "*", "var1": "100.01", "var2": 1} gives 200 and 100.01. */
  lemma MultiplicationExample(floatOfText: string -> Option<real>)
    requires floatOfText("100.01") == Some(100.01)
    ensures Handle(Object(Request("*", Text("100.01"), Integer(1))), floatOfText) == Response(ValueBody(100.01), 200)
  {
    RequestValidates("*", Text("100.01"), Integer(1), floatOfText, Multiply, 100.01, 1.0);
  }

  /** {"op": "/", "var1": "3", "var2": 2} gives 200 and 1.5. */
  lemma DivisionExample(floatOfText: string -> Option<real>)
    requires floatOfText("3") == Some(3.0)
    ensures Handle(Object(Request("/", Text("3"), Integer(2))), floatOfText) == Response(ValueBody(1.5), 200)
  {
    RequestValidates("/", Text("3"), Integer(2), floatOfText, Divide, 3.0, 2.0);
  }

  /** {"op": "-", "var1": "1", "var2": 2} gives 200 and -1. */
  lemma SubtractionExample(floatOfText: string -> Option<real>)
    requires floatOfText("1") == Some(1.0)
    ensures Handle(Object(Request("-", Text("1"), Integer(2))), floatOfText) == Response(ValueBody(-1.0), 200)
  {
    RequestValidates("-", Text("1"), Integer(2), floatOfText, Subtract, 1.0, 2.0);
  }

  /** {"op": "^", "var1": "2", "var2": -2} gives 200 and 0.25. */
  lemma PowerExample(floatOfText: string -> Option<real>)
    requires floatOfText("2") == Some(2.0)
    ensures Handle(Object(Request("^", Text("2"), Integer(-2))), floatOfText) == Response(ValueBody(0.25), 200)
  {
    RequestValidates("^", Text("2"), Integer(-2), floatOfText, Power, 2.0, -2.0);
    assert (-2.0).Floor == -2 && IsIntegral(-2.0);
    assert NatPower(2.0, 2) == 4.0;
    assert Pow(2.0, -2.0) == Value(1.0 / 4.0);
  }

  /** A zero divisor that passes validation escapes `handle` as ZeroDivisionError. */
  lemma DivisionByZeroPropagates(floatOfText: string -> Option<real>, a: real)
    ensures Handle(Object(Request("/", Number(a), Integer(0))), floatOfText) == Propagates(ZeroDivisionError)
  {
    RequestValidates("/", Number(a), Integer(0), floatOfText, Divide, a, 0.0);
  }

  /** Zero to a negative fractional power escapes `handle` as ZeroDivisionError too. */
  lemma ZeroToNegativePowerPropagates(floatOfText: string -> Option<real>)
    ensures Handle(Object(Request("^", Integer(0), Number(-0.5))), floatOfText) == Propagates(ZeroDivisionError)
  {
    RequestValidates("^", Integer(0), Number(-0.5), floatOfText, Power, 0.0, -0.5);
  }

  /** An operand too large for a float gives 500, even beside invalid fields. */
  lemma TooLargeOperandGives500(m: map<string, RawValue>, floatOfText: string -> Option<real>, f: Field)
    requires f != OpField && Name(f) in m && m[Name(f)].Integer? && !FitsFloat(m[Name(f)].n)
    ensures Handle(Object(m), floatOfText) == Response(ExceptionBody, 500)
  {
    TooLargeOperandRaises(m, floatOfText, f);
  }

  /** A body rejected as a whole gives 422 with one error at `__root__` and no field error. */
  lemma NotAMappingGives422(reason: string, floatOfText: string -> Option<real>)
    ensures Handle(NotAMapping(reason), floatOfText) == Response(RootErrorBody(reason), 422)
    ensures !Handle(NotAMapping(reason), floatOfText).payload.ErrorListBody?
  {
  }

  /**
   * In an `Object` body, keys other than op, var1 and var2 do not change the
   * outcome (a `__pydantic_self__` key never reaches `Object`).
   */
  lemma HandleIgnoresExtraKeys(m: map<string, RawValue>, floatOfText: string -> Option<real>)
    ensures Handle(Object(m), floatOfText)
      == Handle(Object(m - (m.Keys - {"op", "var1", "var2"})), floatOfText)
  {
    ExtraKeysIgnored(m, floatOfText);
  }
}
