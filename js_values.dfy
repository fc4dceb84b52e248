/** JavaScript value semantics that the player's code relies on: `undefined`,
    truthiness of strings, out-of-range array reads, whitespace as `trim` and
    the regular expression `\s` see it, and global string replacement. */
module JsValues {

  /** A value that may be `undefined` (or `null`) in the source. */
  datatype Option<+T> = None | Some(value: T)

  /** Truthiness of an optional string: `undefined` and `""` are falsy. */
  predicate Truthy(o: Option<string>) {
    o.Some? && o.value != ""
  }

  /** `a || b` on optional strings. */
  function Or(a: Option<string>, b: Option<string>): Option<string> {
    if Truthy(a) then a else b
  }

  /** A string interpolated into a template literal: `undefined` prints as "undefined". */
  function Show(o: Option<string>): string {
    if o.Some? then o.value else "undefined"
  }

  /** Reading `s[i]` from an array: an index outside the array gives `undefined`. */
  function At<T>(s: seq<T>, i: int): Option<T> {
    if 0 <= i < |s| then Some(s[i]) else None
  }

  /** The characters that `String.prototype.trim` removes and `\s` matches
      (WhiteSpace and LineTerminator of ECMA-262). */
  predicate IsWhitespace(c: char) {
    c == ' ' || c == '\t' || c == '\n' || c == '\r' || c == '\U{000B}' || c == '\U{000C}'
    || c == '\U{00A0}' || c == '\U{1680}' || ('\U{2000}' <= c <= '\U{200A}')
    || c == '\U{2028}' || c == '\U{2029}' || c == '\U{202F}' || c == '\U{205F}'
    || c == '\U{3000}' || c == '\U{FEFF}'
  }

  predicate AllWhitespace(s: string) {
    forall i :: 0 <= i < |s| ==> IsWhitespace(s[i])
  }

  /** Drops leading whitespace. */
  function TrimStart(s: string): string {
    if s == [] || !IsWhitespace(s[0]) then s else TrimStart(s[1..])
  }

  /** Drops trailing whitespace. */
  function TrimEnd(s: string): string {
    if s == [] || !IsWhitespace(s[|s| - 1]) then s else TrimEnd(s[..|s| - 1])
  }

  /** `String.prototype.trim`. */
  function Trim(s: string): string {
    TrimEnd(TrimStart(s))
  }

  /** `TrimStart` keeps the suffix of `s` that starts at its first
      non-whitespace character. */
  lemma {:induction false} TrimStartIsSuffix(s: string)
    ensures var r := TrimStart(s);
      |r| <= |s| && r == s[|s| - |r|..] && AllWhitespace(s[..|s| - |r|])
      && (r == [] || !IsWhitespace(r[0]))
  {
    if s != [] && IsWhitespace(s[0]) {
      TrimStartIsSuffix(s[1..]);
      var r := TrimStart(s[1..]);
      assert s[1..][..|s| - 1 - |r|] == s[1..|s| - |r|];
    }
  }

  /** `TrimEnd` keeps the prefix of `s` that ends at its last non-whitespace
      character. */
  lemma {:induction false} TrimEndIsPrefix(s: string)
    ensures var r := TrimEnd(s);
      |r| <= |s| && r == s[..|r|] && AllWhitespace(s[|r|..])
      && (r == [] || !IsWhitespace(r[|r| - 1]))
  {
    if s != [] && IsWhitespace(s[|s| - 1]) {
      TrimEndIsPrefix(s[..|s| - 1]);
      var r := TrimEnd(s[..|s| - 1]);
      assert s[..|s| - 1][|r|..] == s[|r|..|s| - 1];
      forall k | 0 <= k < |s| - |r|
        ensures IsWhitespace(s[|r|..][k])
      {
        if k < |s| - 1 - |r| {
          assert s[|r|..][k] == s[..|s| - 1][|r|..][k];
        }
      }
    }
  }

  /** `trim` yields the contiguous slice of `s` between its first and last
      non-whitespace characters, and the empty string exactly when `s` is all
      whitespace. */
  lemma TrimIsInnerSlice(s: string)
    ensures exists i, j ::
      0 <= i <= j <= |s| && Trim(s) == s[i..j] && AllWhitespace(s[..i]) && AllWhitespace(s[j..])
    ensures Trim(s) == [] || (!IsWhitespace(Trim(s)[0]) && !IsWhitespace(Trim(s)[|Trim(s)| - 1]))
    ensures Trim(s) == [] <==> AllWhitespace(s)
  {
    var t := TrimStart(s);
    var r := TrimEnd(t);
    TrimStartIsSuffix(s);
    TrimEndIsPrefix(t);
    var i := |s| - |t|;
    var j := i + |r|;
    assert r == s[i..j];
    assert s[j..] == t[|r|..];
    if r == [] {
      assert t == t[|r|..];
      assert t == [];
      assert s[..i] == s;
    } else {
      assert s[i] == r[0];
    }
  }

  /** The regular expression replacement `s.replace(/\s+/g, "")`. */
  function RemoveWhitespace(s: string): (r: string)
    ensures forall i :: 0 <= i < |r| ==> !IsWhitespace(r[i]) && r[i] in s
    ensures forall i :: 0 <= i < |s| && !IsWhitespace(s[i]) ==> s[i] in r
    ensures |r| <= |s|
  {
    if s == [] then []
    else if IsWhitespace(s[0]) then RemoveWhitespace(s[1..])
    else [s[0]] + RemoveWhitespace(s[1..])
  }

  /** The replacement `s.replace(/c/g, "")` for a single character `c`. */
  function RemoveChar(s: string, c: char): (r: string)
    ensures forall i :: 0 <= i < |r| ==> r[i] != c && r[i] in s
    ensures forall i :: 0 <= i < |s| && s[i] != c ==> s[i] in r
    ensures |r| <= |s|
  {
    if s == [] then []
    else if s[0] == c then RemoveChar(s[1..], c)
    else [s[0]] + RemoveChar(s[1..], c)
  }

  /** The replacement `s.replace(/c/g, with)` for a single character `c`. */
  function ReplaceChar(s: string, c: char, with: string): (r: string)
    ensures c !in with ==> c !in r
    ensures forall d :: d in s && d != c ==> d in r
  {
    if s == [] then []
    else if s[0] == c then with + ReplaceChar(s[1..], c, with)
    else [s[0]] + ReplaceChar(s[1..], c, with)
  }

  /** The replacement works character by character: the empty text stays
      empty, a single `c` becomes `with`, any other single character is kept,
      and replacing in a concatenation concatenates the replacements. These
      determine the result on every input. */
  lemma {:induction false} ReplaceCharIsPointwise(a: string, b: string, c: char, with: string, x: char)
    ensures ReplaceChar([], c, with) == []
    ensures ReplaceChar([x], c, with) == (if x == c then with else [x])
    ensures ReplaceChar(a + b, c, with) == ReplaceChar(a, c, with) + ReplaceChar(b, c, with)
    decreases |a|
  {
    assert [x][1..] == [];
    if a != [] {
      assert (a + b)[1..] == a[1..] + b;
      ReplaceCharIsPointwise(a[1..], b, c, with, x);
    } else {
      assert a + b == b;
    }
  }

  /** `n.toString()` for an integer `n >= 0`: its decimal digits. */
  function NatText(n: nat): string
    decreases n
  {
    var digit := ['0' + (n % 10) as char];
    if n < 10 then digit else NatText(n / 10) + digit
  }

  /** `n.toString()` for any integer: a minus sign before the digits of a
      negative number. */
  function IntText(n: int): string {
    if n < 0 then "-" + NatText(-n) else NatText(n)
  }
}
