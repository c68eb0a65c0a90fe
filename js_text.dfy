/**
 * The few JavaScript string operations the booking flow relies on:
 * truthiness of strings, `String.prototype.trim` and `slice(0, n)`.
 */
module JsText {

  /** White space and line terminators as removed by `String.prototype.trim`
      (ECMAScript WhiteSpace: TAB, VT, FF, ZWNBSP, every space separator;
      LineTerminator: LF, CR, LS, PS). */
  predicate IsWhiteSpace(c: char)
  {
    || c == '\t' || c == '\n' || c == '\U{000B}' || c == '\U{000C}' || c == '\r'
    || c == ' ' || c == '\U{00A0}' || c == '\U{1680}'
    || ('\U{2000}' <= c <= '\U{200A}')
    || c == '\U{2028}' || c == '\U{2029}' || c == '\U{202F}' || c == '\U{205F}'
    || c == '\U{3000}' || c == '\U{FEFF}'
  }

  ghost predicate AllWhiteSpace(s: string)
  {
    forall i :: 0 <= i < |s| ==> IsWhiteSpace(s[i])
  }

  /** `s.trimStart()`: drops the leading white space. */
  function TrimStart(s: string): string
  {
    if s != [] && IsWhiteSpace(s[0]) then TrimStart(s[1..]) else s
  }

  /** `s.trimEnd()`: drops the trailing white space. */
  function TrimEnd(s: string): string
  {
    if s != [] && IsWhiteSpace(s[|s| - 1]) then TrimEnd(s[..|s| - 1]) else s
  }

  /** `s.trim()`. */
  function Trim(s: string): string
  {
    TrimEnd(TrimStart(s))
  }

  /** The result of `TrimStart` is the suffix of `s` that starts at its first
      character that is not white space; everything before it is white space. */
  lemma {:induction false} TrimStartSpec(s: string)
    ensures |TrimStart(s)| <= |s| && TrimStart(s) == s[|s| - |TrimStart(s)|..]
    ensures TrimStart(s) != [] ==> !IsWhiteSpace(TrimStart(s)[0])
    ensures forall i :: 0 <= i < |s| - |TrimStart(s)| ==> IsWhiteSpace(s[i])
  {
    if s != [] && IsWhiteSpace(s[0]) {
      var rest := s[1..];
      TrimStartSpec(rest);
      var t := TrimStart(rest);
      assert TrimStart(s) == t;
      assert rest[|rest| - |t|..] == s[|s| - |t|..];
      forall i | 0 <= i < |s| - |t| ensures IsWhiteSpace(s[i]) {
        if i > 0 {
          assert s[i] == rest[i - 1];
        }
      }
    }
  }

  /** The result of `TrimEnd` is the prefix of `s` that ends at its last
      character that is not white space; everything after it is white space. */
  lemma {:induction false} TrimEndSpec(s: string)
    ensures |TrimEnd(s)| <= |s| && TrimEnd(s) == s[..|TrimEnd(s)|]
    ensures TrimEnd(s) != [] ==> !IsWhiteSpace(TrimEnd(s)[|TrimEnd(s)| - 1])
    ensures forall i :: |TrimEnd(s)| <= i < |s| ==> IsWhiteSpace(s[i])
  {
    if s != [] && IsWhiteSpace(s[|s| - 1]) {
      var rest := s[..|s| - 1];
      TrimEndSpec(rest);
      var t := TrimEnd(rest);
      assert TrimEnd(s) == t;
      assert rest[..|t|] == s[..|t|];
      forall i | |t| <= i < |s| ensures IsWhiteSpace(s[i]) {
        if i < |s| - 1 {
          assert s[i] == rest[i];
        }
      }
    }
  }

  /** `s.trim()` is a substring of `s` that neither starts nor ends with white
      space, and it is empty exactly when `s` consists of white space only
      (which is what makes `name.trim()` falsy). */
  lemma {:induction false} TrimSpec(s: string)
    ensures |Trim(s)| <= |TrimStart(s)| <= |s|
    ensures Trim(s) == s[|s| - |TrimStart(s)|..|s| - |TrimStart(s)| + |Trim(s)|]
    ensures Trim(s) != [] ==> !IsWhiteSpace(Trim(s)[0]) && !IsWhiteSpace(Trim(s)[|Trim(s)| - 1])
    ensures Trim(s) == "" <==> AllWhiteSpace(s)
  {
    var t := TrimStart(s);
    var r := Trim(s);
    TrimStartSpec(s);
    TrimEndSpec(t);
    if r == "" {
      assert t == [];
    } else {
      assert t[..|r|] == r;
      assert s[|s| - |t|] == t[0] == r[0];
      assert !IsWhiteSpace(s[|s| - |t|]);
      assert r[0] == t[0];
    }
  }

  /** Trimming a string that neither starts nor ends with white space changes nothing. */
  lemma {:induction false} TrimUntouched(s: string)
    requires s == [] || (!IsWhiteSpace(s[0]) && !IsWhiteSpace(s[|s| - 1]))
    ensures Trim(s) == s
  {
    assert TrimStart(s) == s;
    assert TrimEnd(s) == s;
  }

  /** `s.trim().trim() === s.trim()`. */
  lemma {:induction false} TrimIdempotent(s: string)
    ensures Trim(Trim(s)) == Trim(s)
  {
    TrimSpec(s);
    TrimUntouched(Trim(s));
  }

  /** `s.slice(0, n)`: the first `n` characters of `s`, or all of `s` when it is shorter. */
  function Prefix(s: string, n: nat): (r: string)
    ensures r <= s
    ensures |r| == if |s| < n then |s| else n
  {
    if |s| <= n then s else s[..n]
  }
}
