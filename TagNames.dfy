/** The tag-name derivation of packages/framework/index.ts (`tagName`, lines 20-26):
    a class identifier becomes a custom-element name by one regular-expression
    replace that puts a dash in front of the FIRST "left-class character followed
    by an upper-case ASCII letter" pair, then by lowercasing; a result without a
    dash is refused. */
module TagNames {
  import opened Outcomes

  /** The error thrown at line 23: the derived name lacks a dash. */
  datatype NamingError = LacksDash(identifier: string, derived: string)

  /** The left-hand character class of the regular expression at line 21.
      Between `0` and `9` the class holds the three characters of a mis-encoded
      dash (U+00E2, U+20AC, U+201C), not an ASCII hyphen, so it is no range:
      it is `a`-`z` plus the five single characters below. */
  predicate IsLeftClass(c: char) {
    ('a' <= c <= 'z') || c == '0' || c == '9' || c == '\U{E2}' || c == '\U{20AC}' || c == '\U{201C}'
  }

  /** The right-hand class `[A-Z]`. */
  predicate IsUpper(c: char) {
    'A' <= c <= 'Z'
  }

  /** `toLowerCase` on one character, for the ASCII letters. */
  function LowerChar(c: char): char {
    if IsUpper(c) then (c as int - 'A' as int + 'a' as int) as char else c
  }

  /** `String.prototype.toLowerCase`, restricted to the ASCII letters. */
  function ToLower(s: string): (r: string)
    ensures |r| == |s|
  {
    seq(|s|, i requires 0 <= i < |s| => LowerChar(s[i]))
  }

  /** A string equals its own lowercase form. */
  predicate IsLowercase(s: string) {
    ToLower(s) == s
  }

  /** The regular expression matches the two characters at i and i + 1. */
  predicate IsTransitionAt(s: string, i: int) {
    0 <= i && i + 1 < |s| && IsLeftClass(s[i]) && IsUpper(s[i + 1])
  }

  ghost predicate HasTransition(s: string) {
    exists i :: IsTransitionAt(s, i)
  }

  /** i is where the leftmost match of the regular expression starts. */
  ghost predicate IsFirstTransition(s: string, i: int) {
    IsTransitionAt(s, i) && forall j :: 0 <= j < i ==> !IsTransitionAt(s, j)
  }

  /** The leftmost match at or after `from`, as a non-global `RegExp` search finds it. */
  function FirstTransitionFrom(s: string, from: nat): (r: Option<nat>)
    decreases |s| - from
    ensures r.Some? ==>
              from <= r.value && IsTransitionAt(s, r.value) &&
              forall j :: from <= j < r.value ==> !IsTransitionAt(s, j)
    ensures r.None? ==> forall j :: from <= j ==> !IsTransitionAt(s, j)
  {
    if |s| <= from + 1 then None
    else if IsTransitionAt(s, from) then Some(from)
    else FirstTransitionFrom(s, from + 1)
  }

  function FirstTransition(s: string): (r: Option<nat>)
    ensures r.Some? ==> IsFirstTransition(s, r.value)
    ensures r.None? <==> !HasTransition(s)
  {
    FirstTransitionFrom(s, 0)
  }

  /** `replace(/([class])([A-Z])/, "$1-$2")`: one dash before the second
      character of the first match only, the string unchanged when nothing matches. */
  function ReplaceFirst(s: string): string {
    match FirstTransition(s)
    case None => s
    case Some(i) => s[..i + 1] + "-" + s[i + 1..]
  }

  /** `tagName` (lines 20-26): replace, lowercase, refuse a name without a dash. */
  function TagName(identifier: string): (r: Result<string, NamingError>)
    ensures r.Success? ==> '-' in r.value && IsLowercase(r.value)
    ensures r.Failure? ==> r.error.identifier == identifier && '-' !in r.error.derived
  {
    var name := ToLower(ReplaceFirst(identifier));
    if '-' !in name then Failure(LacksDash(identifier, name))
    else LowerIsIdempotent(ReplaceFirst(identifier)); Success(name)
  }

  lemma LowerIsIdempotent(s: string)
    ensures IsLowercase(ToLower(s))
  {
  }

  /** Lowercasing keeps dashes where they are and makes none. */
  lemma LowerKeepsDashes(s: string)
    ensures forall i :: 0 <= i < |s| ==> (ToLower(s)[i] == '-' <==> s[i] == '-')
    ensures '-' in ToLower(s) <==> '-' in s
  {
  }

  lemma LowerDistributes(a: string, b: string)
    ensures ToLower(a + b) == ToLower(a) + ToLower(b)
  {
  }

  /** The number of dashes in s. */
  function Dashes(s: string): (n: nat)
    ensures n <= |s|
    ensures n == 0 <==> '-' !in s
  {
    if s == [] then 0 else (if s[0] == '-' then 1 else 0) + Dashes(s[1..])
  }

  lemma {:induction false} DashesAppend(a: string, b: string)
    ensures Dashes(a + b) == Dashes(a) + Dashes(b)
  {
    if a == [] {
      assert a + b == b;
    } else {
      assert (a + b)[1..] == a[1..] + b;
      DashesAppend(a[1..], b);
    }
  }

  lemma {:induction false} DashesLower(s: string)
    ensures Dashes(ToLower(s)) == Dashes(s)
  {
    if s != [] {
      LowerDistributes(s[..1], s[1..]);
      assert s[..1] + s[1..] == s;
      assert ToLower(s)[1..] == ToLower(s[1..]);
      DashesLower(s[1..]);
    }
  }

  /** When the leftmost match starts at i, the name is the lowercased identifier
      with one dash between positions i and i + 1. */
  lemma TagNameAtFirstTransition(identifier: string, i: nat)
    requires IsFirstTransition(identifier, i)
    ensures TagName(identifier) ==
            Success(ToLower(identifier[..i + 1]) + "-" + ToLower(identifier[i + 1..]))
  {
    var k := FirstTransition(identifier).value;
    assert IsTransitionAt(identifier, k) && IsTransitionAt(identifier, i);
    assert k == i;
    var a, b := identifier[..i + 1], identifier[i + 1..];
    LowerDistributes(a + "-", b);
    LowerDistributes(a, "-");
    assert ToLower("-") == "-";
    var name := ToLower(a) + "-" + ToLower(b);
    assert name[i + 1] == '-';
  }

  /** With no match the name is the lowercased identifier, refused unless the
      identifier already holds a dash. */
  lemma TagNameWithoutTransition(identifier: string)
    requires !HasTransition(identifier)
    ensures TagName(identifier) ==
            if '-' in identifier then Success(ToLower(identifier))
            else Failure(LacksDash(identifier, ToLower(identifier)))
  {
    LowerKeepsDashes(identifier);
  }

  /** tagName succeeds exactly when the regular expression matches somewhere or
      the identifier already holds a dash. */
  lemma TagNameSucceedsIff(identifier: string)
    ensures TagName(identifier).Success? <==> '-' in identifier || HasTransition(identifier)
  {
    if HasTransition(identifier) {
      TagNameAtFirstTransition(identifier, FirstTransition(identifier).value);
    } else {
      TagNameWithoutTransition(identifier);
    }
  }

  /** Only the first match gets a dash: the name has exactly one dash more than
      the identifier when the expression matches, and the same number otherwise,
      however many later lower-to-upper transitions the identifier has. */
  lemma TagNameAddsOneDash(identifier: string)
    requires TagName(identifier).Success?
    ensures Dashes(TagName(identifier).value) ==
            Dashes(identifier) + (if HasTransition(identifier) then 1 else 0)
  {
    if HasTransition(identifier) {
      var i := FirstTransition(identifier).value;
      TagNameAtFirstTransition(identifier, i);
      var a, b := identifier[..i + 1], identifier[i + 1..];
      DashesAppend(ToLower(a) + "-", ToLower(b));
      DashesAppend(ToLower(a), "-");
      DashesLower(a);
      DashesLower(b);
      assert a + b == identifier;
      DashesAppend(a, b);
    } else {
      TagNameWithoutTransition(identifier);
      DashesLower(identifier);
    }
  }
}
