/**
 * SGR control sequences in the control-sequence syntax of ECMA-48
 * (section 5.4): CSI (ESC '['), parameters written in decimal and
 * separated by ';', and the final character 'm' of SELECT GRAPHIC
 * RENDITION (section 8.3.117). The renderer takes a list of parameters;
 * the parser is used to show that renderings can be read back.
 */
module ControlSequence {
  import opened Decimal

  datatype Option<T> = None | Some(value: T)

  const ESC: char := '\U{1B}'

  /** Control Sequence Introducer in its 7-bit form. */
  const CSI: string := [ESC, '[']

  /** The parameter strings of `ps`, separated by ';'. */
  function Parameters(ps: seq<nat>): string
    requires |ps| > 0
    decreases |ps|
  {
    if |ps| == 1 then DecimalString(ps[0]) else DecimalString(ps[0]) + ";" + Parameters(ps[1..])
  }

  /** The complete SGR sequence selecting the parameters `ps`. */
  function Sequence(ps: seq<nat>): string
    requires |ps| > 0
  {
    CSI + Parameters(ps) + "m"
  }

  /** The surface form of every SGR sequence: ESC '[', then digits and ';' only, then 'm'. */
  predicate IsSgrShaped(s: string) {
    && |s| >= 3
    && s[0] == ESC && s[1] == '[' && s[|s| - 1] == 'm'
    && forall i :: 2 <= i < |s| - 1 ==> IsDigit(s[i]) || s[i] == ';'
  }

  /** Length of the run of digits at the start of `s`. */
  function LeadingDigits(s: string): (k: nat)
    ensures k <= |s|
    ensures AllDigits(s[..k])
    ensures k < |s| ==> !IsDigit(s[k])
    decreases |s|
  {
    if s == [] || !IsDigit(s[0]) then 0 else 1 + LeadingDigits(s[1..])
  }

  /** Reads ';'-separated canonical numerals; anything else is rejected. */
  function ParseParameters(s: string): (r: Option<seq<nat>>)
    ensures r.Some? ==> |r.value| > 0
    decreases |s|
  {
    var k := LeadingDigits(s);
    if !IsCanonical(s[..k]) then None
    else if k == |s| then Some([Value(s[..k])])
    else if s[k] != ';' then None
    else match ParseParameters(s[k + 1..])
      case None => None
      case Some(rest) => Some([Value(s[..k])] + rest)
  }

  /** Reads an SGR sequence back into its parameters. */
  function Parse(s: string): (r: Option<seq<nat>>)
    ensures r.Some? ==> |r.value| > 0
  {
    if |s| >= 3 && s[0] == ESC && s[1] == '[' && s[|s| - 1] == 'm' then
      ParseParameters(s[2..|s| - 1])
    else
      None
  }

  lemma {:induction false} ParametersShape(ps: seq<nat>)
    requires |ps| > 0
    ensures |Parameters(ps)| > 0
    ensures forall i :: 0 <= i < |Parameters(ps)| ==> IsDigit(Parameters(ps)[i]) || Parameters(ps)[i] == ';'
    decreases |ps|
  {
    if |ps| > 1 {
      ParametersShape(ps[1..]);
      var d, t := DecimalString(ps[0]), Parameters(ps[1..]);
      assert Parameters(ps) == d + ";" + t;
      forall i | 0 <= i < |Parameters(ps)|
        ensures IsDigit(Parameters(ps)[i]) || Parameters(ps)[i] == ';'
      {
        if i > |d| {
          assert Parameters(ps)[i] == t[i - |d| - 1];
        }
      }
    }
  }

  /** Unfolds `Parameters` on a list of at least two parameters. */
  lemma ParametersCons(p: nat, ps: seq<nat>)
    requires |ps| > 0
    ensures Parameters([p] + ps) == DecimalString(p) + ";" + Parameters(ps)
  {
    assert ([p] + ps)[1..] == ps;
  }

  /** Every rendered sequence has the SGR surface form. */
  lemma SequenceShape(ps: seq<nat>)
    requires |ps| > 0
    ensures IsSgrShaped(Sequence(ps))
  {
    ParametersShape(ps);
    var s, p := Sequence(ps), Parameters(ps);
    forall i | 2 <= i < |s| - 1 ensures IsDigit(s[i]) || s[i] == ';' {
      assert s[i] == p[i - 2];
    }
  }

  lemma {:induction false} LeadingDigitsOfNumeral(d: string, t: string)
    requires AllDigits(d)
    requires t == [] || !IsDigit(t[0])
    ensures LeadingDigits(d + t) == |d|
    decreases |d|
  {
    if d != [] {
      assert (d + t)[1..] == d[1..] + t;
      LeadingDigitsOfNumeral(d[1..], t);
    } else {
      assert d + t == t;
    }
  }

  lemma {:induction false} ParseParametersOfParameters(ps: seq<nat>)
    requires |ps| > 0
    ensures ParseParameters(Parameters(ps)) == Some(ps)
    decreases |ps|
  {
    var d := DecimalString(ps[0]);
    ValueOfDecimalString(ps[0]);
    if |ps| == 1 {
      LeadingDigitsOfNumeral(d, []);
      assert d + [] == d;
      assert d[..|d|] == d;
      assert Parameters(ps) == d;
      assert ps == [ps[0]];
    } else {
      var t := Parameters(ps[1..]);
      var s := Parameters(ps);
      assert s == d + (";" + t);
      LeadingDigitsOfNumeral(d, ";" + t);
      assert s[..|d|] == d;
      assert s[|d| + 1..] == t;
      ParseParametersOfParameters(ps[1..]);
      assert [ps[0]] + ps[1..] == ps;
    }
  }

  lemma {:induction false} ParametersOfParseParameters(s: string, ps: seq<nat>)
    requires ParseParameters(s) == Some(ps)
    ensures Parameters(ps) == s
    decreases |s|
  {
    var k := LeadingDigits(s);
    DecimalStringOfValue(s[..k]);
    if k == |s| {
      assert s[..k] == s;
    } else {
      var field, tail := s[..k], s[k + 1..];
      var rest := ParseParameters(tail).value;
      assert ps == [Value(field)] + rest;
      assert ps[0] == Value(field) && ps[1..] == rest;
      ParametersOfParseParameters(tail, rest);
      assert Parameters(ps) == field + ";" + tail;
      assert s == field + ";" + tail;
    }
  }

  /** The parser reads back exactly the parameters that were rendered. */
  lemma ParseSequence(ps: seq<nat>)
    requires |ps| > 0
    ensures Parse(Sequence(ps)) == Some(ps)
  {
    var s := Sequence(ps);
    assert s[2..|s| - 1] == Parameters(ps);
    ParseParametersOfParameters(ps);
  }

  /** The parser accepts a string exactly when it is the rendering of what it returns. */
  lemma ParseIsInverse(s: string, ps: seq<nat>)
    ensures Parse(s) == Some(ps) <==> |ps| > 0 && s == Sequence(ps)
  {
    if Parse(s) == Some(ps) {
      ParametersOfParseParameters(s[2..|s| - 1], ps);
      assert s == CSI + s[2..|s| - 1] + "m";
    }
    if |ps| > 0 && s == Sequence(ps) {
      ParseSequence(ps);
    }
  }

  /** Distinct parameter lists give distinct sequences. */
  lemma SequenceInjective(ps: seq<nat>, qs: seq<nat>)
    requires |ps| > 0 && |qs| > 0
    ensures Sequence(ps) == Sequence(qs) <==> ps == qs
  {
    ParseSequence(ps);
    ParseSequence(qs);
  }
}
