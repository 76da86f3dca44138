/**
 * The part of Go's fmt.Sprintf that the error templates use: every "%s" verb is
 * replaced by the next string argument, every other character is copied.
 */
module Fmt {

  /** What Go prints for a verb that has no argument left. */
  const Missing := "%!s(MISSING)"

  function Sprintf(t: string, args: seq<string>): string
    decreases |t|
  {
    if |t| >= 2 && t[0] == '%' && t[1] == 's' then
      if |args| > 0 then args[0] + Sprintf(t[2..], args[1..])
      else Missing + Sprintf(t[2..], args)
    else if |t| == 0 then ""
    else [t[0]] + Sprintf(t[1..], args)
  }

  predicate IsLiteral(s: string) {
    forall i :: 0 <= i < |s| ==> s[i] != '%'
  }

  lemma LiteralConcat(a: string, b: string)
    requires IsLiteral(a) && IsLiteral(b)
    ensures IsLiteral(a + b)
  {
    forall i | 0 <= i < |a + b| ensures (a + b)[i] != '%' {
      if i >= |a| { assert (a + b)[i] == b[i - |a|]; }
    }
  }

  /** Text without a '%' is copied verbatim in front of whatever follows it. */
  lemma {:induction false} SprintfLiteralPrefix(p: string, rest: string, args: seq<string>)
    requires IsLiteral(p)
    ensures Sprintf(p + rest, args) == p + Sprintf(rest, args)
    decreases |p|
  {
    var t := p + rest;
    if |p| > 0 {
      assert t[0] == p[0] && t[0] != '%';
      assert t[1..] == p[1..] + rest;
      assert IsLiteral(p[1..]) by {
        forall i | 0 <= i < |p[1..]| ensures p[1..][i] != '%' { assert p[1..][i] == p[i + 1]; }
      }
      SprintfLiteralPrefix(p[1..], rest, args);
      assert Sprintf(t, args) == [p[0]] + Sprintf(t[1..], args);
      assert p == [p[0]] + p[1..];
    } else {
      assert t == rest;
    }
  }

  /** Text without a '%' prints as itself. */
  lemma SprintfLiteral(p: string, args: seq<string>)
    requires IsLiteral(p)
    ensures Sprintf(p, args) == p
  {
    SprintfLiteralPrefix(p, "", args);
    assert p + "" == p;
  }

  /** A template p%sq with literal p and q and one argument a prints p, a, q. */
  lemma SprintfOne(p: string, q: string, a: string)
    requires IsLiteral(p) && IsLiteral(q)
    ensures Sprintf(p + "%s" + q, [a]) == p + a + q
  {
    var t := "%s" + q;
    assert p + "%s" + q == p + t;
    var args := [a];
    assert args[1..] == [];
    SprintfLiteralPrefix(p, t, args);
    SprintfVerb(t, q, args);
    SprintfLiteral(q, []);
    calc {
      Sprintf(p + t, args);
      p + Sprintf(t, args);
      p + (a + Sprintf(q, []));
      p + (a + q);
    }
  }

  /** A template p%sq%s with literal p and q and two arguments prints p, a, q, b. */
  lemma SprintfTwo(p: string, q: string, a: string, b: string)
    requires IsLiteral(p) && IsLiteral(q)
    ensures Sprintf(p + "%s" + q + "%s", [a, b]) == p + a + q + b
  {
    var tail := "%s" + "";
    var t := "%s" + (q + tail);
    assert p + "%s" + q + "%s" == p + t;
    var args := [a, b];
    var rest := args[1..];
    assert rest == [b] && rest[1..] == [];
    SprintfLiteralPrefix(p, t, args);
    SprintfVerb(t, q + tail, args);
    SprintfLiteralPrefix(q, tail, rest);
    SprintfVerb(tail, "", rest);
    calc {
      Sprintf(p + t, args);
      p + Sprintf(t, args);
      p + (a + Sprintf(q + tail, rest));
      p + (a + (q + Sprintf(tail, rest)));
      p + (a + (q + (b + "")));
    }
  }

  /** A leading "%s" consumes the first argument. */
  lemma SprintfVerb(t: string, rest: string, args: seq<string>)
    requires t == "%s" + rest && |args| > 0
    ensures Sprintf(t, args) == args[0] + Sprintf(rest, args[1..])
  {
    assert t[2..] == rest;
  }
}
