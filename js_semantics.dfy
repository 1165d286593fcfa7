/** The few pieces of JavaScript's built-in behaviour that the plan rules rely on:
    `Math.round`, turning an integer-valued number into text inside a template
    string, and property lookup on an object literal followed by `||`. */
module JsSemantics {

  /** `Math.round(x)`: the integer nearest to `x`, with halves going towards
      +infinity (so `Math.round(-2.5)` is `-2`). */
  function Round(x: real): (r: int)
    ensures x - 0.5 < r as real <= x + 0.5
  {
    (x + 0.5).Floor
  }

  /** There is exactly one integer within half of `x` with ties going up. */
  lemma RoundUnique(x: real, r: int)
    requires x - 0.5 < r as real <= x + 0.5
    ensures r == Round(x)
  {
  }

  /** `Math.round(n / 36)`, which is what `Math.round((n * 0.25) / 9)` computes,
      is integer arithmetic with floor division. */
  lemma RoundThirtySixth(n: int)
    ensures Round(n as real * 0.25 / 9.0) == (2 * n + 36) / 72
  {
    var q := (2 * n + 36) / 72;
    assert 72 * q <= 2 * n + 36 < 72 * q + 72;
    RoundUnique(n as real * 0.25 / 9.0, q);
  }

  /** `Math.round(n / 4)` is integer arithmetic with floor division. */
  lemma RoundQuarter(n: int)
    ensures Round(n as real / 4.0) == (n + 2) / 4
  {
    var q := (n + 2) / 4;
    assert 4 * q <= n + 2 < 4 * q + 4;
    RoundUnique(n as real / 4.0, q);
  }

  /** `Math.round(-2.5)` is `-2`: halves of negative numbers go up as well. */
  lemma RoundNegativeHalf()
    ensures Round(-2.5) == -2
  {
  }

  // ---------------------------------------------------------------------
  // Integers inside template strings (`${n}` for an integer-valued number)
  // ---------------------------------------------------------------------

  predicate IsDigit(c: char) {
    '0' <= c <= '9'
  }

  function DigitChar(d: nat): (c: char)
    requires d < 10
    ensures IsDigit(c) && (c as int) - ('0' as int) == d
  {
    ('0' as int + d) as char
  }

  /** The decimal digits of `n`, without leading zeros. */
  function NatString(n: nat): (s: string)
    ensures |s| >= 1
    ensures forall i :: 0 <= i < |s| ==> IsDigit(s[i])
    ensures |s| > 1 ==> s[0] != '0'
  {
    if n < 10 then [DigitChar(n)] else NatString(n / 10) + [DigitChar(n % 10)]
  }

  /** The text JavaScript produces for an integer-valued number of magnitude
      below 10^21: its digits, preceded by `-` when it is negative (`-0` prints
      as `0`). From 10^21 up JavaScript switches to exponent notation. */
  function IntString(n: int): (s: string)
    ensures |s| >= 1
    ensures (n < 0) == (s[0] == '-')
  {
    if n < 0 then "-" + NatString(-n) else NatString(n)
  }

  /** Reading a string of decimal digits back as a number. */
  function DigitsValue(s: string): nat
    requires forall i :: 0 <= i < |s| ==> IsDigit(s[i])
  {
    if s == [] then 0
    else
      var last := s[|s| - 1];
      assert IsDigit(last);
      DigitsValue(s[..|s| - 1]) * 10 + ((last as int) - ('0' as int))
  }

  /** Reading the printed form of an integer back as an integer. */
  function IntValue(s: string): int
    requires |s| >= 1
    requires s[0] == '-' ==> forall i :: 1 <= i < |s| ==> IsDigit(s[i])
    requires s[0] != '-' ==> forall i :: 0 <= i < |s| ==> IsDigit(s[i])
  {
    if s[0] == '-' then 0 - DigitsValue(s[1..]) else DigitsValue(s)
  }

  lemma {:induction false} NatStringValue(n: nat)
    ensures DigitsValue(NatString(n)) == n
  {
    if n >= 10 {
      var s := NatString(n);
      assert s[..|s| - 1] == NatString(n / 10);
      NatStringValue(n / 10);
    }
  }

  /** Printing an integer loses nothing: reading the text back gives the integer. */
  lemma IntStringRoundTrip(n: int)
    ensures IntValue(IntString(n)) == n
  {
    if n < 0 {
      assert IntString(n)[1..] == NatString(-n);
      NatStringValue(-n);
    } else {
      NatStringValue(n);
    }
  }

  /** So different integers print differently. */
  lemma IntStringInjective(m: int, n: int)
    requires IntString(m) == IntString(n)
    ensures m == n
  {
    IntStringRoundTrip(m);
    IntStringRoundTrip(n);
  }

  /** A printed integer holds only digits and a sign, never the letter `g`. */
  lemma IntStringHasNoG(n: int)
    ensures 'g' !in IntString(n)
  {
    var s := IntString(n);
    assert forall i :: 0 <= i < |s| ==> s[i] == '-' || IsDigit(s[i]);
  }

  /** Where the first `g` of a text stands, or its length if it has none. */
  function IndexOfG(s: string): (k: nat)
    ensures k <= |s|
  {
    if s == [] then 0 else if s[0] == 'g' then 0 else 1 + IndexOfG(s[1..])
  }

  lemma {:induction false} IndexOfGAfter(a: string, rest: string)
    requires 'g' !in a && |rest| > 0 && rest[0] == 'g'
    ensures IndexOfG(a + rest) == |a|
  {
    if a == [] {
      assert a + rest == rest;
    } else {
      assert (a + rest)[0] == a[0];
      assert (a + rest)[1..] == a[1..] + rest;
      IndexOfGAfter(a[1..], rest);
    }
  }

  /** A text without `g` followed by a text starting with `g` splits in one way only. */
  lemma SplitBeforeG(a: string, rest: string, a': string, rest': string)
    requires 'g' !in a && |rest| > 0 && rest[0] == 'g'
    requires 'g' !in a' && |rest'| > 0 && rest'[0] == 'g'
    requires a + rest == a' + rest'
    ensures a == a' && rest == rest'
  {
    IndexOfGAfter(a, rest);
    IndexOfGAfter(a', rest');
    assert a == (a + rest)[..|a|];
    assert a' == (a' + rest')[..|a'|];
    assert rest == (a + rest)[|a|..];
    assert rest' == (a' + rest')[|a'|..];
  }

  // ---------------------------------------------------------------------
  // Property lookup on an object literal, and `||`
  // ---------------------------------------------------------------------

  /** The names every object literal inherits from `Object.prototype`: looking
      one of them up on a literal that does not define it yields a function
      (or, for `__proto__`, the prototype object itself). */
  const ObjectPrototypeKeys: set<string> :=
    {"constructor", "hasOwnProperty", "isPrototypeOf", "propertyIsEnumerable",
     "toLocaleString", "toString", "valueOf", "__proto__",
     "__defineGetter__", "__defineSetter__", "__lookupGetter__", "__lookupSetter__"}

  /** What `obj[key]` yields for an object literal whose own properties are `own`. */
  datatype Lookup<T> = Own(value: T) | Inherited(name: string) | Undefined

  function Get<T>(own: map<string, T>, key: string): (r: Lookup<T>)
    ensures r.Own? <==> key in own
    ensures r.Undefined? <==> key !in own && key !in ObjectPrototypeKeys
    ensures r.Own? ==> r.value == own[key]
    ensures r.Inherited? ==> r.name == key
  {
    if key in own then Own(own[key])
    else if key in ObjectPrototypeKeys then Inherited(key)
    else Undefined
  }
}
