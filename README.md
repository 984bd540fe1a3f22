# calc handler model

A Dafny model of `calc/handler.py`, a small calculation request handler. The
handler reads a request body holding an operation token (`op`) and two
operands (`var1`, `var2`). It answers in one of three ways:

- status 200 with the computed value;
- status 422 when `parse_raw` raises a validation error: either every field error, in field declaration order, or one error at `__root__` for a body rejected as a whole (not JSON, or a JSON value that `dict()` cannot turn into a mapping, such as a number, a non-empty string or null);
- status 500 when `parse_raw` raises anything other than a validation error, while decoding or in the call `Calculation(**obj)`. Examples are a mapping with a non-string key or the key `__pydantic_self__`, and an integer operand too large for a float, where `float()` raises OverflowError.

The model has four modules:

- `Wrappers` (wrappers.dfy): `Option`.
- `Operations` (operations.dfy): the `OperationType` enumeration, which has five members with the tokens `+ - * / ^`. It also has lookup by token and the message that lists the permitted tokens.
- `Calculations` (calculations.dfy): the `Calculation` record. This covers `execute` and the validation of the three declared fields. Validation checks every field and collects all errors; it never stops at the first one.
- `Handler` (handler.dfy): `handle`. It maps each outcome to a payload and a status code.

Operands are `real`, so the model computes exactly where the source computes
with 64-bit floats. `float()` on a string is the parameter `floatOfText`,
which the model leaves abstract. Every member is a function, so `handle` is
deterministic by construction.

Division by zero, and zero raised to any negative power, raise
`ZeroDivisionError`; they do not yield infinity or NaN. `execute` runs at
calc/handler.py:51, outside the `try`, so that exception escapes `handle`
(`Outcome.Propagates`) rather than becoming a 500 response.

## Model

| member | source | states |
|---|---|---|
| `Operations.Token` | calc/handler.py:6-11 | every member has a token, and each token is one character |
| `Operations.MembersComplete` | calc/handler.py:6-11 | the declaration-order list names all five members |
| `Operations.TokenInjective` | calc/handler.py:5-11 | `@unique`: members with equal tokens are the same member |
| `Operations.MemberTokensDistinct` | calc/handler.py:5-11 | the tokens of any two distinct positions in the member list differ |
| `Operations.Lookup` | calc/handler.py:15 | lookup by value: a hit is a listed member carrying that token; a miss means no listed member carries it |
| `Operations.ParseToken` | calc/handler.py:6-11 | the result carries the given token; None exactly when no member has that token |
| `Operations.ParseTokenRoundTrip` | calc/handler.py:6-11 | parsing a member's token gives that member back |
| `Operations.ParseTokenAcceptsExactly` | calc/handler.py:7-11 | a string is accepted if and only if it is one of `+ - * / ^`; case variants, whitespace and the empty string are refused |
| `Operations.NotAMemberMessageText` | calc/handler_test.py:31-33 | the enumeration error message lists `'+', '-', '*', '/', '^'` in declaration order |
| `Calculations.NatPower` | calc/handler.py:33 | a power of a non-zero base is non-zero, and a power of a positive base is positive |
| `Calculations.NatPowerAdd` | calc/handler.py:33 | exponents add: `b^(m+n) = b^m * b^n` |
| `Calculations.Pow` | calc/handler.py:32-33 | zero to any negative power raises ZeroDivisionError, and zero to a positive power is 0; otherwise an integral exponent gives a repeated product, or for a negative exponent its reciprocal; a non-zero base to a fractional exponent is outside the model |
| `Calculations.PowNegatedExponent` | calc/handler.py:33 | for a non-zero base and an integral exponent, `b ** e` and `b ** -e` are both values and their product is 1 |
| `Calculations.Execute` | calc/handler.py:19-35 | each member selects its own operator (`+ - * / **`); division by zero raises ZeroDivisionError exactly when the divisor is 0; the "unknown operation" raise is never reached |
| `Calculations.ExecuteRaisesOnlyOnZero` | calc/handler.py:19-35 | execute raises exactly for a zero divisor or zero to a negative power, integral or not |
| `Calculations.ToOperation` | calc/handler.py:15 | the op field coerces exactly when it is a string among the five tokens, to the member carrying it |
| `Calculations.ToFloat` | calc/handler.py:16-17 | an integer coerces exactly when it lies strictly between -(2^1024 - 2^970) and 2^1024 - 2^970, and keeps its value; a fractional number keeps its value; a string coerces as `float()` does; an array or object is refused |
| `Calculations.Check` | calc/handler.py:15-17 | per field: "field required" exactly when the key is absent; no error exactly when the value coerces; an enumeration error only for op; a float error only for var1 and var2 |
| `Calculations.Collect` | calc/handler.py:14-17 | every reported error belongs to a listed field and is that field's own error; errors come in strictly increasing declaration order, so there is at most one per field |
| `Calculations.CollectComplete` | calc/handler.py:14-17 | no failing field is dropped: its error is in the list |
| `Calculations.NoErrorsIffAllValid` | calc/handler.py:14-17 | the error list is empty if and only if all three fields validate |
| `Calculations.AtMostOneErrorPerField` | calc/handler.py:14-17 | at most three errors, and no field reported twice |
| `Calculations.Validate` | calc/handler.py:45 | OverflowError is raised exactly when an operand is an integer too large for a float, whatever the other fields hold; otherwise a record exactly when there are no errors, holding the coerced values of op, var1 and var2; otherwise the full, non-empty, ordered error list, never a partial record |
| `Calculations.TooLargeOperandRaises` | calc/handler.py:16-17 | an integer operand too large for a float makes validation raise OverflowError and is never reported as a field error |
| `Calculations.ExtraKeysIgnored` | calc/handler.py:14-17 | in a mapping that reaches field validation (string keys, none named `__pydantic_self__`), keys other than op, var1 and var2 do not affect validation |
| `Handler.Handle` | calc/handler.py:38-51 | status is 200, 422 or 500; 500 (with the exception payload) exactly when decoding raises something other than a validation error, or an operand is too large for a float; 422 exactly for a body rejected as a whole (one `__root__` error) or when, with no such operand, some field fails (the ordered field errors); 200 only with execute's value; a valid record returns 200 when execute yields a value and propagates its exception when it raises |
| `Handler.SuccessIffAllFieldsValid` | calc/handler.py:44-51 | 200 requires every field to validate, and once they do, 200 is returned exactly when execute yields a value |
| `Handler.AnyInvalidFieldGives422` | calc/handler.py:46-47 | unless an operand is too large for a float, one failing field is enough for 422, and its error is in the payload; execute's result plays no part |
| `Handler.EmptyBody` | calc/handler_test.py:5-20 | `{}` gives 422 with exactly three "field required" errors at op, var1 and var2, in that order |
| `Handler.UnknownOperationOnly` | calc/handler_test.py:22-34 | an op that is not a token, with both operands valid, gives exactly one error, at op, with the enumeration message |
| `Handler.NonNumericVar1Only` | calc/handler_test.py:36-45 | a var1 that does not coerce (and is not an integer too large for a float), with op and var2 valid, gives exactly one error, at var1, "value is not a valid float" |
| `Handler.AdditionExample` | calc/handler_test.py:47-51 | `+` on "1.0" and 0 gives 200 and 1.0 |
| `Handler.MultiplicationExample` | calc/handler_test.py:53-57 | `*` on "100.01" and 1 gives 200 and 100.01 |
| `Handler.DivisionExample` | calc/handler_test.py:59-63 | `/` on "3" and 2 gives 200 and 1.5 |
| `Handler.SubtractionExample` | calc/handler_test.py:65-69 | `-` on "1" and 2 gives 200 and -1 |
| `Handler.PowerExample` | calc/handler_test.py:71-75 | `^` on "2" and -2 gives 200 and 0.25 |
| `Handler.RequestValidates` | calc/handler.py:45 | a body whose token and operands all coerce validates to the record holding the token's member and the operands' values |
| `Handler.DivisionByZeroPropagates` | calc/handler.py:29-30 | a validated division by zero escapes handle as ZeroDivisionError and produces no response |
| `Handler.ZeroToNegativePowerPropagates` | calc/handler.py:32-33 | `^` on 0 and -0.5 escapes handle as ZeroDivisionError |
| `Handler.TooLargeOperandGives500` | calc/handler.py:48-49 | an integer operand too large for a float gives 500, even beside invalid fields |
| `Handler.NotAMappingGives422` | calc/handler.py:46-47 | a body rejected as a whole gives 422 with one `__root__` error and no field errors |
| `Handler.HandleIgnoresExtraKeys` | calc/handler.py:45 | for an `Object` body (string keys, none named `__pydantic_self__`), extra keys do not change the outcome |

## Left out

- JSON deserialisation inside `parse_raw`. The body arrives already classified as one of three cases. `DecodeRaises`: `parse_raw` raised something other than a validation error, while decoding or in the constructor call. `NotAMapping`: the body was rejected as a whole, with the decoder's message left abstract. `Object`: a mapping that `Calculation(**obj)` accepts, meaning string keys and none named `__pydantic_self__`. That mapping can be `dict()` of a JSON array of pairs or of `""`, so `[]` and `""` give three "field required" errors; `[[1, 2]]` or a `__pydantic_self__` key makes the constructor raise, so such a body is `DecodeRaises` (500). Which texts fall into which case is decided by pydantic and the JSON decoder, which are not part of this model.
- The exception object in the 500 payload. Only its status code is modelled (`ExceptionBody`).
- pydantic's error-collection machinery. The model states the ordering and count that callers see. Each error keeps only its `loc` and `msg`; pydantic's extra `type` and `ctx` keys are not modelled.
- Python's `float()` on strings. It is the abstract parameter `floatOfText`, so the examples assume its results on "1.0", "100.01", "3", "1" and "2". Strings such as "inf" and "nan" are not modelled.
- JSON `null` field values. pydantic reports them with its own message, and `RawValue` has no null case. JSON booleans behave as the integers 1 and 0 (`Integer`).
- IEEE-754 arithmetic: rounding (an integer that fits is kept exact, not rounded to 53 bits), overflow to infinity, NaN, and `OverflowError` from `**`. Operands and results are exact reals.
- Calculations.Pow: a non-zero base to a fractional exponent gives `Unmodelled` (and `Handle` gives `BeyondModel`), because the result is irrational or complex in general. So the model does not compute such powers.
