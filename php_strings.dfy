/**
 * The two PHP string built-ins the form handlers rely on: `trim` with its
 * default character list, and `empty` applied to a string. A PHP string is
 * a byte string; each `char` here stands for one byte, so `strlen(s)` is `|s|`.
 */
module PhpStrings {

  /** The bytes `trim` strips by default: space, tab, newline, carriage return, NUL and vertical tab. */
  predicate IsTrimChar(c: char) {
    c == ' ' || c == '\t' || c == '\n' || c == '\r' || c == '\0' || c == '\U{B}'
  }

  /** Every byte of `s` is one `trim` strips. */
  predicate AllTrimChars(s: string) {
    forall k :: 0 <= k < |s| ==> IsTrimChar(s[k])
  }

  /** `s` neither begins nor ends with a byte `trim` strips. */
  predicate IsTrimmed(s: string) {
    s == [] || (!IsTrimChar(s[0]) && !IsTrimChar(s[|s| - 1]))
  }

  /** `s` with its leading strippable bytes removed. */
  function TrimStart(s: string): (r: string)
    ensures |r| <= |s| && r == s[|s| - |r|..]
    ensures AllTrimChars(s[..|s| - |r|])
    ensures r == [] || !IsTrimChar(r[0])
  {
    if |s| > 0 && IsTrimChar(s[0]) then
      var t := s[1..];
      var r := TrimStart(t);
      assert s[..|s| - |r|] == [s[0]] + t[..|t| - |r|];
      r
    else s
  }

  /** `s` with its trailing strippable bytes removed. */
  function TrimEnd(s: string): (r: string)
    ensures |r| <= |s| && r == s[..|r|]
    ensures AllTrimChars(s[|r|..])
    ensures r == [] || !IsTrimChar(r[|r| - 1])
  {
    if |s| > 0 && IsTrimChar(s[|s| - 1]) then
      var t := s[..|s| - 1];
      var r := TrimEnd(t);
      assert s[|r|..] == t[|r|..] + [s[|s| - 1]];
      r
    else s
  }

  /** PHP's `trim(s)`: `s` without leading or trailing strippable bytes. */
  function Trim(s: string): (r: string)
    ensures IsTrimmed(r)
    ensures |r| <= |s|
  {
    var t := TrimStart(s);
    var r := TrimEnd(t);
    assert r != [] ==> r[0] == t[0];
    r
  }

  /** Leading strippable bytes do not change what `TrimStart` keeps. */
  lemma {:induction false} TrimStartSkips(pad: string, s: string)
    requires AllTrimChars(pad)
    ensures TrimStart(pad + s) == TrimStart(s)
    decreases |pad|
  {
    if |pad| > 0 {
      var u := pad + s;
      assert u[0] == pad[0] && IsTrimChar(u[0]);
      assert TrimStart(u) == TrimStart(u[1..]);
      assert u[1..] == pad[1..] + s;
      assert AllTrimChars(pad[1..]) by {
        forall k | 0 <= k < |pad[1..]| ensures IsTrimChar(pad[1..][k]) {
          assert pad[1..][k] == pad[k + 1];
        }
      }
      TrimStartSkips(pad[1..], s);
    } else {
      assert pad + s == s;
    }
  }

  /** Trailing strippable bytes do not change what `TrimEnd` keeps. */
  lemma {:induction false} TrimEndSkips(s: string, pad: string)
    requires AllTrimChars(pad)
    ensures TrimEnd(s + pad) == TrimEnd(s)
    decreases |pad|
  {
    if |pad| > 0 {
      var u, init := s + pad, pad[..|pad| - 1];
      assert u[|u| - 1] == pad[|pad| - 1] && IsTrimChar(u[|u| - 1]);
      assert TrimEnd(u) == TrimEnd(u[..|u| - 1]);
      assert u[..|u| - 1] == s + init;
      assert AllTrimChars(init) by {
        forall k | 0 <= k < |init| ensures IsTrimChar(init[k]) {
          assert init[k] == pad[k];
        }
      }
      TrimEndSkips(s, init);
    } else {
      assert s + pad == s;
    }
  }

  /** Text that neither begins nor ends with a strippable byte is left as it is. */
  lemma TrimKeepsTrimmed(text: string)
    requires IsTrimmed(text)
    ensures Trim(text) == text
  {
    assert TrimStart(text) == text;
    assert TrimEnd(text) == text;
  }

  /** `trim` removes exactly the padding around trimmed text. */
  lemma TrimRemovesPadding(before: string, text: string, after: string)
    requires AllTrimChars(before) && AllTrimChars(after) && IsTrimmed(text)
    ensures Trim(before + text + after) == text
  {
    var rest := text + after;
    assert before + text + after == before + rest;
    TrimStartSkips(before, rest);
    if text == [] {
      assert rest == after + [];
      TrimStartSkips(after, []);
      assert TrimStart(before + text + after) == [];
    } else {
      assert TrimStart(rest) == rest;
      TrimEndSkips(text, after);
      assert TrimEnd(text) == text;
      assert TrimStart(before + text + after) == rest;
    }
  }

  /** `trim` is idempotent. */
  lemma TrimIdempotent(s: string)
    ensures Trim(Trim(s)) == Trim(s)
  {
    TrimKeepsTrimmed(Trim(s));
  }

  /** PHP's `empty($s)` for a string: the empty string and "0" count as empty. */
  predicate IsEmpty(s: string) {
    s == "" || s == "0"
  }
}
