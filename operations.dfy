/**
 * The operation catalog: the `OperationType` enumeration of calc/handler.py,
 * a closed set of five members whose values are one-character tokens.
 */
module Operations {
  import opened Wrappers

  /** The five members, declared in this order. */
  datatype OperationType = Add | Subtract | Multiply | Divide | Power

  /** The members in declaration order, as the enumeration lists them. */
  const Members: seq<OperationType> := [Add, Subtract, Multiply, Divide, Power]

  /** The member's value: the token that names it in requests and error messages. */
  function Token(op: OperationType): (t: string)
    ensures |t| == 1
  {
    match op
    case Add => "+"
    case Subtract => "-"
    case Multiply => "*"
    case Divide => "/"
    case Power => "^"
  }

  /** Every member is listed in `Members`, so a search of `Members` sees them all. */
  lemma MembersComplete(op: OperationType)
    ensures op in Members
  {
  }

  /** The enumeration is `@unique`: no two members share a value. */
  lemma TokenInjective(a: OperationType, b: OperationType)
    ensures Token(a) == Token(b) ==> a == b
  {
  }

  /** The tokens of the members in declaration order are pairwise distinct. */
  lemma MemberTokensDistinct(i: nat, j: nat)
    requires i < |Members| && j < |Members| && i != j
    ensures Token(Members[i]) != Token(Members[j])
  {
  }

  /**
   * Lookup by value, as `OperationType(v)` does: the first member of `ops`
   * whose token is `s`, or None when there is none.
   */
  function Lookup(ops: seq<OperationType>, s: string): (r: Option<OperationType>)
    ensures r.Some? ==> r.value in ops && Token(r.value) == s
    ensures r.None? ==> forall op :: op in ops ==> Token(op) != s
  {
    if ops == [] then None
    else if Token(ops[0]) == s then Some(ops[0])
    else Lookup(ops[1..], s)
  }

  /** The member whose value is `s`, if any member has that value. */
  function ParseToken(s: string): (r: Option<OperationType>)
    ensures r.Some? ==> Token(r.value) == s
    ensures r.None? ==> forall op :: Token(op) != s
  {
    var r := Lookup(Members, s);
    assert r.None? ==> forall op :: Token(op) != s by {
      forall op ensures op in Members { MembersComplete(op); }
    }
    r
  }

  /** Parsing a member's token gives back that member. */
  lemma ParseTokenRoundTrip(op: OperationType)
    ensures ParseToken(Token(op)) == Some(op)
  {
    var r := ParseToken(Token(op));
    assert r.Some?;
    TokenInjective(r.value, op);
  }

  /** Exactly the five tokens are accepted; every other string is refused. */
  lemma ParseTokenAcceptsExactly(s: string)
    ensures ParseToken(s).Some? <==> s in {"+", "-", "*", "/", "^"}
  {
    if s in {"+", "-", "*", "/", "^"} {
      var op := if s == "+" then Add else if s == "-" then Subtract
        else if s == "*" then Multiply else if s == "/" then Divide else Power;
      ParseTokenRoundTrip(op);
    }
  }

  /** `'a', 'b', ...`: the tokens of `ops`, each quoted, joined by a comma and a space. */
  function QuotedTokens(ops: seq<OperationType>): string
  {
    if ops == [] then ""
    else if |ops| == 1 then "'" + Token(ops[0]) + "'"
    else "'" + Token(ops[0]) + "', " + QuotedTokens(ops[1..])
  }

  /** The message given for a value that is not a member: it lists every permitted token. */
  function NotAMemberMessage(): string
  {
    "value is not a valid enumeration member; permitted: " + QuotedTokens(Members)
  }

  // The quoted list, built up from the last member to the first.
  lemma QuotedFromPower() ensures QuotedTokens([Power]) == "'^'" {}

  lemma QuotedFromDivide() ensures QuotedTokens([Divide, Power]) == "'/', '^'"
  {
    QuotedFromPower();
  }

  lemma QuotedFromMultiply() ensures QuotedTokens([Multiply, Divide, Power]) == "'*', '/', '^'"
  {
    QuotedFromDivide();
  }

  lemma QuotedFromSubtract()
    ensures QuotedTokens([Subtract, Multiply, Divide, Power]) == "'-', '*', '/', '^'"
  {
    QuotedFromMultiply();
  }

  /** The permitted tokens are listed in declaration order. */
  lemma PermittedTokensText()
    ensures QuotedTokens(Members) == "'+', '-', '*', '/', '^'"
  {
    QuotedFromSubtract();
    assert Members[1..] == [Subtract, Multiply, Divide, Power];
  }

  /** The whole message for a value that is not a member. */
  lemma NotAMemberMessageText()
    ensures NotAMemberMessage()
      == "value is not a valid enumeration member; permitted: '+', '-', '*', '/', '^'"
  {
    PermittedTokensText();
  }
}
