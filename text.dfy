/**
 * String helpers with the meaning JavaScript gives them: `String.prototype.trim`,
 * `includes`, `toLowerCase` (ASCII letters only), `replace(/\D/g, "")`,
 * `replace(/\s+/g, " ")`, `slice(0, n)` and `Array.prototype.join`.
 */
module Text {

  /** `\d` in a JavaScript regular expression: the ASCII digits only. */
  predicate IsDigit(c: char) {
    '0' <= c <= '9'
  }

  /**
   * `\s` in a JavaScript regular expression, which is also the set `trim` removes:
   * the WhiteSpace and LineTerminator code points of ECMAScript.
   */
  predicate IsSpace(c: char) {
    || c == '\U{0009}' || c == '\U{000A}' || c == '\U{000B}' || c == '\U{000C}'
    || c == '\U{000D}' || c == '\U{0020}' || c == '\U{00A0}' || c == '\U{1680}'
    || ('\U{2000}' <= c <= '\U{200A}')
    || c == '\U{2028}' || c == '\U{2029}' || c == '\U{202F}' || c == '\U{205F}'
    || c == '\U{3000}' || c == '\U{FEFF}'
  }

  predicate IsUpper(c: char) {
    'A' <= c <= 'Z'
  }

  function LowerChar(c: char): (r: char)
    ensures !IsUpper(r)
    ensures !IsUpper(c) ==> r == c
  {
    if IsUpper(c) then (c as int + 32) as char else c
  }

  /** `toLowerCase`, restricted to the ASCII letters. */
  function ToLower(s: string): (r: string)
    ensures |r| == |s|
    ensures forall i :: 0 <= i < |r| ==> r[i] == LowerChar(s[i])
  {
    if s == [] then [] else [LowerChar(s[0])] + ToLower(s[1..])
  }

  predicate NoUpper(s: string) {
    forall i :: 0 <= i < |s| ==> !IsUpper(s[i])
  }

  lemma ToLowerIsLower(s: string)
    ensures NoUpper(ToLower(s))
    ensures ToLower(ToLower(s)) == ToLower(s)
  {
  }

  /** A string already in lower case is left as it is. */
  lemma LowerUnchanged(s: string)
    requires NoUpper(s)
    ensures ToLower(s) == s
  {
  }

  /** `s.replace(/\D/g, "")`: the digits of `s`, in their original order. */
  function DigitsOnly(s: string): (r: string)
    ensures |r| <= |s|
    ensures forall i :: 0 <= i < |r| ==> IsDigit(r[i])
  {
    if s == [] then []
    else if IsDigit(s[0]) then [s[0]] + DigitsOnly(s[1..])
    else DigitsOnly(s[1..])
  }

  /** Stripping distributes over concatenation, so the digits keep their order. */
  lemma {:induction false} DigitsOnlyAppend(a: string, b: string)
    ensures DigitsOnly(a + b) == DigitsOnly(a) + DigitsOnly(b)
  {
    if a != [] {
      assert (a + b)[0] == a[0];
      assert (a + b)[1..] == a[1..] + b;
      DigitsOnlyAppend(a[1..], b);
    } else {
      assert a + b == b;
    }
  }

  /** A string of digits is left as it is, and stripping twice is stripping once. */
  lemma {:induction false} DigitsOnlyOfDigits(s: string)
    requires forall i :: 0 <= i < |s| ==> IsDigit(s[i])
    ensures DigitsOnly(s) == s
  {
    if s != [] {
      DigitsOnlyOfDigits(s[1..]);
    }
  }

  lemma DigitsOnlyIdempotent(s: string)
    ensures DigitsOnly(DigitsOnly(s)) == DigitsOnly(s)
  {
    DigitsOnlyOfDigits(DigitsOnly(s));
  }

  /** Leading whitespace removed (`trimStart`). */
  function TrimStart(s: string): (r: string)
    ensures |r| <= |s| && r == s[|s| - |r|..]
    ensures forall i :: 0 <= i < |s| - |r| ==> IsSpace(s[i])
    ensures r != [] ==> !IsSpace(r[0])
    ensures s != [] && IsSpace(s[0]) ==> |r| < |s|
  {
    if s != [] && IsSpace(s[0]) then TrimStart(s[1..]) else s
  }

  /** Trailing whitespace removed (`trimEnd`). */
  function TrimEnd(s: string): (r: string)
    ensures |r| <= |s| && r == s[..|r|]
    ensures forall i :: |r| <= i < |s| ==> IsSpace(s[i])
    ensures r != [] ==> !IsSpace(r[|r| - 1])
  {
    if s != [] && IsSpace(s[|s| - 1]) then TrimEnd(s[..|s| - 1]) else s
  }

  /** `trim`: the longest infix with no whitespace at either end. */
  function Trim(s: string): (r: string)
    ensures |r| <= |s|
    ensures r != [] ==> !IsSpace(r[0]) && !IsSpace(r[|r| - 1])
    ensures s != [] && !IsSpace(s[0]) && !IsSpace(s[|s| - 1]) ==> r == s
  {
    TrimEnd(TrimStart(s))
  }

  /** Trimming a trimmed string changes nothing (Mongoose's `trim` setter applied on every write). */
  lemma TrimIdempotent(s: string)
    ensures Trim(Trim(s)) == Trim(s)
  {
    var t := Trim(s);
    if t == [] {
      assert TrimStart(t) == [];
    }
  }

  /** `trim` keeps an infix of its argument. */
  lemma TrimIsInfix(s: string) returns (i: nat)
    ensures i + |Trim(s)| <= |s| && Trim(s) == s[i..i + |Trim(s)|]
  {
    var t := TrimStart(s);
    i := |s| - |t|;
  }

  /** `!s.trim()`: empty or made of whitespace only. */
  predicate IsBlank(s: string) {
    Trim(s) == []
  }

  lemma {:induction false} BlankIffAllSpace(s: string)
    ensures IsBlank(s) <==> forall i :: 0 <= i < |s| ==> IsSpace(s[i])
  {
    var t := TrimStart(s);
    if t != [] {
      assert t[0] == s[|s| - |t|];
    }
  }

  /** No whitespace character next to another one, and the only one left is ' '. */
  predicate SpacesCollapsed(s: string) {
    && (forall i :: 0 <= i < |s| && IsSpace(s[i]) ==> s[i] == ' ')
    && (forall i :: 0 <= i < |s| - 1 ==> !(IsSpace(s[i]) && IsSpace(s[i + 1])))
  }

  /** `s.replace(/\s+/g, " ")`: every maximal run of whitespace becomes one space. */
  function CollapseSpaces(s: string): (r: string)
    ensures SpacesCollapsed(r)
    ensures |r| <= |s|
    ensures r != [] && !IsSpace(s[0]) ==> r[0] == s[0]
    ensures r != [] && IsSpace(s[0]) ==> r[0] == ' '
    ensures s != [] ==> r != []
    decreases |s|
  {
    if s == [] then []
    else if IsSpace(s[0]) then [' '] + CollapseSpaces(TrimStart(s))
    else [s[0]] + CollapseSpaces(s[1..])
  }

  lemma {:induction false} CollapsedInfix(s: string, i: int, j: int)
    requires SpacesCollapsed(s) && 0 <= i <= j <= |s|
    ensures SpacesCollapsed(s[i..j])
  {
    var t := s[i..j];
    forall k | 0 <= k < |t| - 1
      ensures !(IsSpace(t[k]) && IsSpace(t[k + 1]))
    {
      assert t[k] == s[i + k] && t[k + 1] == s[i + k + 1];
    }
  }

  /** Trimming a string without whitespace runs leaves none. */
  lemma TrimCollapsed(t: string)
    requires SpacesCollapsed(t)
    ensures SpacesCollapsed(Trim(t))
  {
    var r := Trim(t);
    var i := TrimIsInfix(t);
    CollapsedInfix(t, i, i + |r|);
    assert r == t[i..i + |r|];
  }

  /** Whether `t` occurs in `s` (`s.includes(t)`, and a regular expression test for a literal). */
  predicate Contains(s: string, t: string)
    decreases |s|
  {
    StartsWith(s, t) || (s != [] && Contains(s[1..], t))
  }

  predicate StartsWith(s: string, t: string) {
    |t| <= |s| && s[..|t|] == t
  }

  /** `t` occurs in `s` at position `i`. */
  predicate OccursAt(s: string, t: string, i: int) {
    0 <= i && i + |t| <= |s| && s[i..i + |t|] == t
  }

  lemma {:induction false} ContainsMeansOccurs(s: string, t: string)
    ensures Contains(s, t) <==> exists i :: OccursAt(s, t, i)
    decreases |s|
  {
    if s == [] {
      if exists i :: OccursAt(s, t, i) {
        var i :| OccursAt(s, t, i);
        assert |t| == 0;
        assert StartsWith(s, t);
      }
      if StartsWith(s, t) {
        assert OccursAt(s, t, 0);
      }
    } else {
      ContainsMeansOccurs(s[1..], t);
      if exists i :: OccursAt(s, t, i) {
        var i :| OccursAt(s, t, i);
        if i > 0 {
          assert s[1..][i - 1..i - 1 + |t|] == t;
          assert OccursAt(s[1..], t, i - 1);
        } else {
          assert s[..|t|] == t;
        }
      }
      if Contains(s[1..], t) && !StartsWith(s, t) {
        var i :| OccursAt(s[1..], t, i);
        assert s[i + 1..i + 1 + |t|] == t;
        assert OccursAt(s, t, i + 1);
      }
      if StartsWith(s, t) {
        assert OccursAt(s, t, 0);
      }
    }
  }

  /** The empty string occurs in every string: `x.includes("")` is always true. */
  lemma ContainsEmpty(s: string)
    ensures Contains(s, [])
  {
  }

  /** Whether `s` contains any of `pats` (a regular expression alternation, matched anywhere). */
  predicate ContainsAny(s: string, pats: seq<string>) {
    exists i :: 0 <= i < |pats| && Contains(s, pats[i])
  }

  /** `parts.join(sep)`. */
  function Join(sep: string, parts: seq<string>): (r: string)
    ensures parts == [] ==> r == []
    ensures |parts| == 1 ==> r == parts[0]
  {
    if parts == [] then []
    else if |parts| == 1 then parts[0]
    else parts[0] + sep + Join(sep, parts[1..])
  }

  /**
   * Joining a list that holds an already-joined non-empty sub-list is joining the flattened
   * list: the sub-list's parts become separate lines among the others.
   */
  lemma {:induction false} JoinFlatten(sep: string, a: seq<string>, b: seq<string>, c: seq<string>)
    requires b != []
    ensures Join(sep, a + [Join(sep, b)] + c) == Join(sep, a + b + c)
  {
    if a == [] {
      JoinFront(sep, b, c);
      assert [] + [Join(sep, b)] + c == [Join(sep, b)] + c;
      assert [] + b + c == b + c;
    } else {
      JoinFlatten(sep, a[1..], b, c);
      assert (a + [Join(sep, b)] + c)[1..] == a[1..] + [Join(sep, b)] + c;
      assert (a + b + c)[1..] == a[1..] + b + c;
    }
  }

  lemma {:induction false} JoinFront(sep: string, b: seq<string>, c: seq<string>)
    requires b != []
    ensures Join(sep, [Join(sep, b)] + c) == Join(sep, b + c)
  {
    if c == [] {
      assert [Join(sep, b)] + c == [Join(sep, b)];
      assert b + c == b;
    } else if |b| == 1 {
      assert [Join(sep, b)] + c == b + c;
    } else {
      JoinFront(sep, b[1..], c);
      assert (b + c)[1..] == b[1..] + c;
      assert ([Join(sep, b[1..])] + c)[1..] == c;
      assert ([Join(sep, b)] + c)[1..] == c;
    }
  }
}
