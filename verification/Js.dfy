/**
  The few pieces of JavaScript string and value semantics that the client's handlers rely on:
  `null`/`undefined` as an Option, truthiness of strings, `String.prototype.trim`,
  `String.prototype.includes`, `.length` (which counts UTF-16 code units) and the decimal
  rendering of a number inside a template literal.
 */
module Js {

  datatype Option<+T> = None | Some(value: T) {
    /** `x ?? d` */
    function GetOr(d: T): T {
      match this
      case Some(v) => v
      case None => d
    }
  }

  /** A string value is truthy exactly when it is non-empty. */
  predicate Truthy(s: string) {
    s != []
  }

  /** `s || null` for a value typed `string | null | undefined`: the empty string becomes null. */
  function OrNull(s: Option<string>): (r: Option<string>)
    ensures r.Some? <==> s.Some? && Truthy(s.value)
    ensures r.Some? ==> r == s
  {
    if s.Some? && Truthy(s.value) then s else None
  }

  /** `s || ''` for a value typed `string | null | undefined`. */
  function OrEmpty(s: Option<string>): (r: string)
    ensures Truthy(r) <==> OrNull(s).Some?
    ensures Truthy(r) ==> OrNull(s) == Some(r)
  {
    if s.Some? then s.value else ""
  }

  /**
    The code points `String.prototype.trim` strips: the WhiteSpace and LineTerminator
    productions of ECMAScript (tab, vertical tab, form feed, space, no-break space,
    zero-width no-break space, every Zs space separator, LF, CR, LS and PS).
   */
  predicate IsSpace(c: char) {
    || c == '\t' || c == '\n' || c == '\U{000B}' || c == '\U{000C}' || c == '\r'
    || c == ' ' || c == '\U{00A0}' || c == '\U{1680}'
    || ('\U{2000}' <= c <= '\U{200A}')
    || c == '\U{2028}' || c == '\U{2029}' || c == '\U{202F}' || c == '\U{205F}'
    || c == '\U{3000}' || c == '\U{FEFF}'
  }

  /** Strips leading white space: the result is the longest suffix that starts with a non-space. */
  function TrimStart(s: string): (r: string)
    ensures |r| <= |s| && r == s[|s| - |r|..]
    ensures r == [] || !IsSpace(r[0])
    ensures forall i :: 0 <= i < |s| - |r| ==> IsSpace(s[i])
  {
    if s != [] && IsSpace(s[0]) then TrimStart(s[1..]) else s
  }

  /** Strips trailing white space: the result is the longest prefix that ends with a non-space. */
  function TrimEnd(s: string): (r: string)
    ensures |r| <= |s| && r == s[..|r|]
    ensures r == [] || !IsSpace(r[|r| - 1])
    ensures forall i :: |r| <= i < |s| ==> IsSpace(s[i])
  {
    if s != [] && IsSpace(s[|s| - 1]) then TrimEnd(s[..|s| - 1]) else s
  }

  /**
    `s.trim()`: a slice of `s` with no white space left at either end, where everything cut
    off before and after it is white space.
   */
  function Trim(s: string): (r: string)
    ensures |r| <= |s|
    ensures r == [] || (!IsSpace(r[0]) && !IsSpace(r[|r| - 1]))
    ensures exists i, j :: TrimmedAt(s, i, j) && r == s[i..j]
  {
    var t := TrimStart(s);
    var u := TrimEnd(t);
    CutBothEnds(s, t, u);
    u
  }

  /** `s[i..j]` is what remains after cutting white space only, from both ends of `s`. */
  predicate TrimmedAt(s: string, i: int, j: int) {
    && 0 <= i <= j <= |s|
    && (forall k :: 0 <= k < i ==> IsSpace(s[k]))
    && (forall k :: j <= k < |s| ==> IsSpace(s[k]))
  }

  /** Cutting white space off the front, then a white-space tail off the rest, leaves a slice of `s`. */
  lemma CutBothEnds(s: string, t: string, u: string)
    requires |t| <= |s| && t == s[|s| - |t|..]
    requires forall k :: 0 <= k < |s| - |t| ==> IsSpace(s[k])
    requires |u| <= |t| && u == t[..|u|]
    requires forall k :: |u| <= k < |t| ==> IsSpace(t[k])
    ensures TrimmedAt(s, |s| - |t|, |s| - |t| + |u|) && u == s[|s| - |t|..|s| - |t| + |u|]
    ensures u == [] || u[0] == t[0]
  {
    var i := |s| - |t|;
    forall k | i + |u| <= k < |s|
      ensures IsSpace(s[k])
    {
      assert s[k] == t[k - i];
    }
    assert u == s[i..i + |u|];
  }

  /** `!s.trim()`: the string holds nothing but white space. */
  predicate IsBlank(s: string) {
    !Truthy(Trim(s))
  }

  /** A string is blank after trimming exactly when every one of its characters is white space. */
  lemma BlankIffAllSpace(s: string)
    ensures IsBlank(s) <==> forall i :: 0 <= i < |s| ==> IsSpace(s[i])
  {
    var t := TrimStart(s);
    if t != [] {
      assert !IsSpace(t[0]);
      assert s[|s| - |t|] == t[0];
    }
  }

  /**
    `Trim` is pinned down: any slice obtained by cutting white space only, and left with no
    white space at either end, is `Trim(s)`.
   */
  lemma TrimIsUnique(s: string, i: int, j: int)
    requires TrimmedAt(s, i, j)
    requires s[i..j] == [] || (!IsSpace(s[i]) && !IsSpace(s[j - 1]))
    ensures s[i..j] == Trim(s)
  {
    var r := Trim(s);
    var i', j' :| TrimmedAt(s, i', j') && r == s[i'..j'];
    EmptyCutIffAllSpace(s, i, j);
    EmptyCutIffAllSpace(s, i', j');
    if i < j {
      assert r[0] == s[i'] && r[|r| - 1] == s[j' - 1];
      assert i == i' && j == j';
    }
  }

  /** A cut of white space that leaves no white space at the ends leaves nothing exactly when `s` is all white space. */
  lemma EmptyCutIffAllSpace(s: string, i: int, j: int)
    requires TrimmedAt(s, i, j)
    requires s[i..j] == [] || (!IsSpace(s[i..j][0]) && !IsSpace(s[i..j][j - i - 1]))
    ensures i == j <==> forall k :: 0 <= k < |s| ==> IsSpace(s[k])
  {
    if i < j {
      assert s[i..j][0] == s[i];
    }
  }

  /**
    `s.trim() || null` (or `|| undefined`): the trimmed string, or nothing when only white
    space was typed.
   */
  function TrimmedOrAbsent(s: string): (r: Option<string>)
    ensures r.None? <==> forall i :: 0 <= i < |s| ==> IsSpace(s[i])
    ensures r.Some? ==> r.value == Trim(s) && !IsSpace(r.value[0]) && !IsSpace(r.value[|r.value| - 1])
  {
    BlankIffAllSpace(s);
    if IsBlank(s) then None else Some(Trim(s))
  }

  /** `sub` occurs in `s` starting at index `i`. */
  predicate OccursAt(s: string, sub: string, i: nat) {
    i + |sub| <= |s| && s[i..i + |sub|] == sub
  }

  /** `s.includes(sub)`: true exactly when `sub` occurs in `s` at some index. */
  function Contains(s: string, sub: string): (found: bool)
    decreases |s|
    ensures found <==> exists i: nat :: OccursAt(s, sub, i)
  {
    if sub <= s then
      assert OccursAt(s, sub, 0);
      true
    else if s == [] then
      assert forall i: nat :: !OccursAt(s, sub, i);
      false
    else
      var found := Contains(s[1..], sub);
      assert !OccursAt(s, sub, 0);
      assert forall i: nat :: OccursAt(s[1..], sub, i) <==> OccursAt(s, sub, i + 1) by {
        forall i: nat ensures OccursAt(s[1..], sub, i) <==> OccursAt(s, sub, i + 1) {
          if i + |sub| <= |s[1..]| {
            assert s[1..][i..i + |sub|] == s[i + 1..i + 1 + |sub|];
          }
        }
      }
      assert found ==> exists i: nat :: OccursAt(s, sub, i) by {
        if found {
          var i: nat :| OccursAt(s[1..], sub, i);
          assert OccursAt(s, sub, i + 1);
        }
      }
      assert (exists i: nat :: OccursAt(s, sub, i)) ==> found by {
        if i: nat :| OccursAt(s, sub, i) {
          assert i != 0;
          assert OccursAt(s[1..], sub, i - 1);
        }
      }
      found
  }

  /** A string contains each of its prefixes. */
  lemma ContainsPrefix(p: string, rest: string)
    ensures Contains(p + rest, p)
  {
    assert OccursAt(p + rest, p, 0);
  }

  /** `s.length`: the number of UTF-16 code units; a code point above U+FFFF takes two. */
  function Utf16Length(s: string): (n: nat)
    ensures |s| <= n <= 2 * |s|
    ensures s == [] <==> n == 0
    ensures |s| == 1 ==> n == (if s[0] as int > 0xFFFF then 2 else 1)
    ensures n == |s| <==> forall i :: 0 <= i < |s| ==> s[i] as int <= 0xFFFF
  {
    if s == [] then 0 else (if s[0] as int > 0xFFFF then 2 else 1) + Utf16Length(s[1..])
  }

  /** `.length` adds up over concatenation, one unit per BMP code point and two per other. */
  lemma {:induction false} Utf16LengthAppend(s: string, t: string)
    ensures Utf16Length(s + t) == Utf16Length(s) + Utf16Length(t)
  {
    if s == [] {
      assert s + t == t;
    } else {
      assert (s + t)[1..] == s[1..] + t;
      Utf16LengthAppend(s[1..], t);
    }
  }

  /** The decimal digit for a value below ten. */
  function Digit(d: nat): (c: char)
    requires d < 10
    ensures '0' <= c <= '9'
    ensures (c as int) - ('0' as int) == d
  {
    ['0', '1', '2', '3', '4', '5', '6', '7', '8', '9'][d]
  }

  /** The value of a string of decimal digits. */
  function DigitsValue(s: string): nat
    requires forall i :: 0 <= i < |s| ==> '0' <= s[i] <= '9'
  {
    if s == [] then 0 else 10 * DigitsValue(s[..|s| - 1]) + ((s[|s| - 1] as int) - ('0' as int))
  }

  /** `${n}` for a non-negative integer: its decimal digits, without leading zeros. */
  function Decimal(n: nat): (s: string)
    ensures s != []
    ensures forall i :: 0 <= i < |s| ==> '0' <= s[i] <= '9'
    ensures |s| > 1 ==> s[0] != '0'
  {
    if n < 10 then [Digit(n)] else Decimal(n / 10) + [Digit(n % 10)]
  }

  /** Reading the rendered digits back gives the number. */
  lemma {:induction false} DecimalValue(n: nat)
    ensures DigitsValue(Decimal(n)) == n
  {
    if n >= 10 {
      DecimalValue(n / 10);
      var s := Decimal(n);
      assert s[..|s| - 1] == Decimal(n / 10);
    }
  }
}
