/**
 * Small building blocks shared by the rest of the model: an optional value,
 * the whitespace test and `trim()` of JavaScript strings, and `indexOf` on a
 * single character.
 */
module Common {

  datatype Option<+T> = None | Some(value: T)

  /** The characters JavaScript's `String.prototype.trim` strips: WhiteSpace and
      LineTerminator of ECMAScript, including every space separator (Zs). */
  predicate IsWhitespace(c: char)
    ensures c == ' ' || c == '\t' || c == '\n' || c == '\r' ==> IsWhitespace(c)
    ensures '!' <= c <= '~' ==> !IsWhitespace(c)
  {
    || c == '\t' || c == '\n' || c == '\U{000B}' || c == '\U{000C}' || c == '\r'
    || c == ' ' || c == '\U{00A0}' || c == '\U{1680}'
    || ('\U{2000}' <= c <= '\U{200A}')
    || c == '\U{2028}' || c == '\U{2029}' || c == '\U{202F}' || c == '\U{205F}'
    || c == '\U{3000}' || c == '\U{FEFF}'
  }

  /** Every character of `s` is whitespace (this includes the empty string). */
  predicate IsBlank(s: string)
  {
    forall i :: 0 <= i < |s| ==> IsWhitespace(s[i])
  }

  /** `s` with its leading whitespace removed. */
  function TrimStart(s: string): (r: string)
    ensures |r| <= |s| && r == s[|s| - |r|..]
    ensures r == [] || !IsWhitespace(r[0])
    ensures IsBlank(s[..|s| - |r|])
  {
    if s != [] && IsWhitespace(s[0]) then
      var t := TrimStart(s[1..]);
      assert s[1..][..|s| - 1 - |t|] == s[1..|s| - |t|];
      t
    else
      s
  }

  /** `s` with its trailing whitespace removed. */
  function TrimEnd(s: string): (r: string)
    ensures |r| <= |s| && r == s[..|r|]
    ensures r == [] || !IsWhitespace(r[|r| - 1])
    ensures IsBlank(s[|r|..])
  {
    if s != [] && IsWhitespace(s[|s| - 1]) then
      var t := TrimEnd(s[..|s| - 1]);
      assert s[|t|..] == s[..|s| - 1][|t|..] + [s[|s| - 1]];
      assert IsBlank(s[|t|..]) by {
        forall i | 0 <= i < |s| - |t| ensures IsWhitespace(s[|t|..][i]) {
          if i < |s| - 1 - |t| {
            assert s[|t|..][i] == s[..|s| - 1][|t|..][i];
          }
        }
      }
      t
    else
      s
  }

  /** JavaScript's `s.trim()`. */
  function Trim(s: string): (r: string)
    ensures |r| <= |s|
    ensures r == [] || (!IsWhitespace(r[0]) && !IsWhitespace(r[|r| - 1]))
  {
    TrimEnd(TrimStart(s))
  }

  /** A string is falsy after `trim()` exactly when it is blank. */
  lemma TrimEmptyIffBlank(s: string)
    ensures Trim(s) == [] <==> IsBlank(s)
  {
    if Trim(s) == [] {
      assert TrimStart(s) == [];
      assert s[..|s|] == s;
    }
  }

  /** A trimmed string has nothing left to trim. */
  lemma TrimIsIdempotent(s: string)
    ensures Trim(Trim(s)) == Trim(s)
  {
    var t := Trim(s);
    var u := TrimStart(s);
    if t != [] {
      assert t[0] == u[0];
      assert !IsWhitespace(t[0]);
    }
    assert TrimStart(t) == t;
  }

  /** JavaScript's `s.indexOf(c)` for a single character: -1 when absent,
      otherwise the position of its first occurrence. */
  function IndexOf(s: string, c: char): (r: int)
    ensures -1 <= r < |s|
    ensures r == -1 <==> c !in s
    ensures r >= 0 ==> s[r] == c && c !in s[..r]
  {
    if s == [] then -1
    else if s[0] == c then 0
    else
      var k := IndexOf(s[1..], c);
      if k == -1 then
        assert forall i :: 0 <= i < |s| ==> s[i] != c by {
          forall i | 0 <= i < |s| ensures s[i] != c {
            if i > 0 { assert s[1..][i - 1] == s[i]; }
          }
        }
        -1
      else
        assert s[..k + 1] == [s[0]] + s[1..][..k];
        k + 1
  }

  /** The first occurrence is the only position `IndexOf` can report. */
  lemma IndexOfUnique(s: string, c: char, k: nat)
    requires k < |s| && s[k] == c && c !in s[..k]
    ensures IndexOf(s, c) == k
  {
  }

  /** Concatenation is associative; stated once, generically, because proving
      it afresh about sequences of strings is costly. */
  lemma AppendAssoc<T>(a: seq<T>, b: seq<T>, c: seq<T>)
    ensures a + (b + c) == (a + b) + c
  {
  }

  lemma AppendEmpty<T>(a: seq<T>)
    ensures [] + a == a && a + [] == a
  {
  }

  /** A sequence is the part before position `k`, the element there, and the
      part after it. */
  lemma SplitAround<T>(s: seq<T>, k: int)
    requires 0 <= k < |s|
    ensures s == s[..k] + [s[k]] + s[k + 1..]
  {
  }
}
