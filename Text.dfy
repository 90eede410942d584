/** `String.prototype.trim` over UTF-16 code units, as the key-save and the
    change-background handlers use it. */
module Text {
  import opened Types

  /** The code units ECMAScript's `trim` removes: WhiteSpace (tab, vertical
      tab, form feed, space, no-break space, BOM and the Zs category) and
      LineTerminator (line feed, carriage return, U+2028, U+2029). */
  predicate IsWhiteSpace(c: CodeUnit)
    ensures c < 0x80 ==> (IsWhiteSpace(c) <==> 0x09 <= c <= 0x0D || c == 0x20)
    ensures c == 0xA0 || c == 0xFEFF || c == 0x2028 || c == 0x2029 ==> IsWhiteSpace(c)
  {
    c == 0x09 || c == 0x0A || c == 0x0B || c == 0x0C || c == 0x0D ||
    c == 0x20 || c == 0xA0 || c == 0x1680 || (0x2000 <= c <= 0x200A) ||
    c == 0x2028 || c == 0x2029 || c == 0x202F || c == 0x205F ||
    c == 0x3000 || c == 0xFEFF
  }

  predicate AllWhiteSpace(s: JsString) {
    forall k :: 0 <= k < |s| ==> IsWhiteSpace(s[k])
  }

  lemma AllWhiteSpaceCons(c: CodeUnit, t: JsString)
    requires IsWhiteSpace(c) && AllWhiteSpace(t)
    ensures AllWhiteSpace([c] + t)
  {
    forall k | 0 <= k < |t| + 1 ensures IsWhiteSpace(([c] + t)[k]) {
      if k > 0 { assert ([c] + t)[k] == t[k - 1]; }
    }
  }

  /** Drops the leading white space. */
  function TrimStart(s: JsString): (r: JsString)
    ensures |r| <= |s| && r == s[|s| - |r|..]
    ensures r == [] || !IsWhiteSpace(r[0])
    ensures AllWhiteSpace(s[..|s| - |r|])
  {
    if s != [] && IsWhiteSpace(s[0]) then
      var r := TrimStart(s[1..]);
      assert s[..|s| - |r|] == [s[0]] + s[1..][..|s| - 1 - |r|];
      AllWhiteSpaceCons(s[0], s[1..][..|s| - 1 - |r|]);
      r
    else
      s
  }

  /** Drops the trailing white space. */
  function TrimEnd(s: JsString): (r: JsString)
    ensures |r| <= |s| && r == s[..|r|]
    ensures r == [] || !IsWhiteSpace(r[|r| - 1])
    ensures AllWhiteSpace(s[|r|..])
  {
    if s != [] && IsWhiteSpace(s[|s| - 1]) then
      var r := TrimEnd(s[..|s| - 1]);
      assert s[|r|..] == s[..|s| - 1][|r|..] + [s[|s| - 1]];
      r
    else
      s
  }

  /** `s.trim()`: both ends stripped. */
  function Trim(s: JsString): (r: JsString)
    ensures |r| <= |s|
    ensures r == [] || (!IsWhiteSpace(r[0]) && !IsWhiteSpace(r[|r| - 1]))
  {
    TrimEnd(TrimStart(s))
  }

  /** The trimmed string is the slice `s[a..b]` of its input, and everything
      outside that slice is white space. */
  lemma TrimIsSlice(s: JsString) returns (a: nat, b: nat)
    ensures a <= b <= |s| && Trim(s) == s[a..b]
    ensures AllWhiteSpace(s[..a]) && AllWhiteSpace(s[b..])
  {
    var t := TrimStart(s);
    var u := TrimEnd(t);
    a := |s| - |t|;
    b := a + |u|;
    assert u == t[..|u|] == s[a..][..|u|] == s[a..b];
    assert s[b..] == t[|u|..];
  }

  /** A string trims to empty exactly when every code unit in it is white space:
      the condition under which the save and change-background handlers do nothing. */
  lemma TrimEmptyIff(s: JsString)
    ensures Trim(s) == [] <==> AllWhiteSpace(s)
  {
    var a, b := TrimIsSlice(s);
    if Trim(s) == [] {
      assert a == b;
      forall k | 0 <= k < |s| ensures IsWhiteSpace(s[k]) {
        if k < a { assert s[..a][k] == s[k]; } else { assert s[b..][k - b] == s[k]; }
      }
    }
  }

  /** Trimming twice is trimming once. */
  lemma TrimIdempotent(s: JsString)
    ensures Trim(Trim(s)) == Trim(s)
  {
    var r := Trim(s);
    assert TrimStart(r) == r;
    assert TrimEnd(r) == r;
  }
}
