/** The download file name built from an angle name: every code unit outside
    `a-z`, `A-Z`, `0-9` and the Hebrew letters U+05D0..U+05EA becomes `_`, then
    the result is lower-cased (`replace(/[^a-z0-9א-ת]/gi, '_').toLowerCase()`).
    The expression has no `u` flag, so it works on UTF-16 code units and each
    half of a surrogate pair is replaced on its own. */
module FileName {
  import opened Types

  const Underscore: CodeUnit := 0x5F

  predicate IsAsciiLower(c: CodeUnit) { 0x61 <= c <= 0x7A }   // 'a'..'z'
  predicate IsAsciiUpper(c: CodeUnit) { 0x41 <= c <= 0x5A }   // 'A'..'Z'
  predicate IsDigit(c: CodeUnit) { 0x30 <= c <= 0x39 }        // '0'..'9'
  /** 'א'..'ת', final forms included. */
  predicate IsHebrewLetter(c: CodeUnit) { 0x05D0 <= c <= 0x05EA }

  /** The class `[a-z0-9א-ת]` under the `i` flag without `u`: case folding
      only adds `A-Z` (no other code unit canonicalises into these ranges). */
  predicate IsKept(c: CodeUnit) {
    IsAsciiLower(c) || IsAsciiUpper(c) || IsDigit(c) || IsHebrewLetter(c)
  }

  /** The code units a sanitised name is made of. */
  predicate IsFileNameUnit(c: CodeUnit) {
    IsAsciiLower(c) || IsDigit(c) || IsHebrewLetter(c) || c == Underscore
  }

  /** Reference definition of one output code unit, independent of how the
      two passes are written. */
  function SanitisedUnit(c: CodeUnit): CodeUnit {
    if IsAsciiUpper(c) then c + 0x20
    else if IsKept(c) then c
    else Underscore
  }

  /** The global replace: every code unit outside the class becomes `_`. */
  function ReplaceDisallowed(s: JsString): (r: JsString)
    ensures |r| == |s|
    ensures forall i :: 0 <= i < |s| ==> r[i] == (if IsKept(s[i]) then s[i] else Underscore)
  {
    if s == [] then []
    else [if IsKept(s[0]) then s[0] else Underscore] + ReplaceDisallowed(s[1..])
  }

  /** `toLowerCase` on what the replace can produce: kept code units and `_`.
      On these it only maps `A-Z` to `a-z` (digits, Hebrew letters and `_` have
      no case), so the result has the same length as its input. */
  function LowerCaseKept(s: JsString): (r: JsString)
    requires forall i :: 0 <= i < |s| ==> IsKept(s[i]) || s[i] == Underscore
    ensures |r| == |s|
    ensures forall i :: 0 <= i < |s| ==> r[i] == (if IsAsciiUpper(s[i]) then s[i] + 0x20 else s[i])
  {
    if s == [] then []
    else [if IsAsciiUpper(s[0]) then s[0] + 0x20 else s[0]] + LowerCaseKept(s[1..])
  }

  /** The sanitised angle name: the same length, unit by unit as `SanitisedUnit` says. */
  function Sanitise(s: JsString): (r: JsString)
    ensures |r| == |s|
    ensures forall i :: 0 <= i < |s| ==> r[i] == SanitisedUnit(s[i])
  {
    LowerCaseKept(ReplaceDisallowed(s))
  }

  /** The name `downloadImage` gives the file handed to the design editor
      (services/canvaService.ts). */
  function EditorFileName(angleName: JsString): (r: JsString)
    ensures |r| == 10 + |angleName| + 4
    ensures r[..10] == Literal("generated-") && r[10..|r| - 4] == Sanitise(angleName)
    ensures r[|r| - 4..] == Literal(".png")
  {
    var r := Literal("generated-") + Sanitise(angleName) + Literal(".png");
    assert r[10..|r| - 4] == Sanitise(angleName);
    r
  }

  /** The name the gallery's download button gives the file (App.tsx). */
  function DownloadFileName(angleName: JsString): (r: JsString)
    ensures |r| == 16 + |angleName| + 4
    ensures r[..16] == Literal("עניין_של_זוויות-") && r[16..|r| - 4] == Sanitise(angleName)
    ensures r[|r| - 4..] == Literal(".png")
  {
    var r := Literal("עניין_של_זוויות-") + Sanitise(angleName) + Literal(".png");
    assert r[16..|r| - 4] == Sanitise(angleName);
    r
  }

  /** Every code unit of a sanitised name is a lower-case ASCII letter, a
      digit, a Hebrew letter or `_`. */
  lemma SanitiseAllowedUnits(s: JsString)
    ensures forall i :: 0 <= i < |s| ==> IsFileNameUnit(Sanitise(s)[i])
  {
    forall i | 0 <= i < |s| ensures IsFileNameUnit(Sanitise(s)[i]) {
      var c := s[i];
      assert Sanitise(s)[i] == SanitisedUnit(c);
      if IsAsciiUpper(c) {
        assert IsAsciiLower(c + 0x20);
      }
    }
  }

  /** A name is left as it is exactly when it is already made of file-name units. */
  lemma SanitiseFixedPoint(s: JsString)
    ensures Sanitise(s) == s <==> forall i :: 0 <= i < |s| ==> IsFileNameUnit(s[i])
  {
    if Sanitise(s) == s {
      SanitiseAllowedUnits(s);
    } else {
      var i :| 0 <= i < |s| && Sanitise(s)[i] != s[i];
      assert !IsFileNameUnit(s[i]);
    }
  }

  /** Sanitising a sanitised name changes nothing. */
  lemma SanitiseIdempotent(s: JsString)
    ensures Sanitise(Sanitise(s)) == Sanitise(s)
  {
    SanitiseAllowedUnits(s);
    SanitiseFixedPoint(Sanitise(s));
  }

  /** Both handlers build their file name with the same rule: past their
      own prefix the two names are the same, and two angle names clash as
      editor files exactly when they clash as downloads. */
  lemma FileNamesShareRule(a: JsString, b: JsString)
    ensures EditorFileName(a)[10..] == DownloadFileName(a)[16..]
    ensures EditorFileName(a) == EditorFileName(b) <==> DownloadFileName(a) == DownloadFileName(b)
  {
    var ea, eb, da, db := EditorFileName(a), EditorFileName(b), DownloadFileName(a), DownloadFileName(b);
    Framed(ea, 10, 4);
    Framed(eb, 10, 4);
    Framed(da, 16, 4);
    Framed(db, 16, 4);
    SameFrame(ea[..10], Sanitise(a), Sanitise(b), ea[|ea| - 4..]);
    SameFrame(da[..16], Sanitise(a), Sanitise(b), da[|da| - 4..]);
  }

  /** A sequence is its head, its middle and its tail. */
  lemma Framed(s: JsString, head: nat, tail: nat)
    requires head + tail <= |s|
    ensures s == s[..head] + s[head..|s| - tail] + s[|s| - tail..]
    ensures s[head..] == s[head..|s| - tail] + s[|s| - tail..]
  {
  }

  /** Inside one frame, two framed sequences are equal exactly when their middles are. */
  lemma SameFrame(h: JsString, x: JsString, y: JsString, t: JsString)
    ensures h + x + t == h + y + t <==> x == y
  {
    if h + x + t == h + y + t {
      assert x == (h + x + t)[|h|..|h| + |x|];
    }
  }

  /** A character outside the Basic Multilingual Plane is two code units, a
      high and a low surrogate, and each half becomes its own `_`: any such
      character (an emoji, say) gives `__`. */
  lemma SurrogatePairGivesTwoUnderscores(hi: CodeUnit, lo: CodeUnit)
    requires 0xD800 <= hi <= 0xDBFF && 0xDC00 <= lo <= 0xDFFF
    ensures Sanitise([hi, lo]) == [Underscore, Underscore]
  {
    var r := Sanitise([hi, lo]);
    assert r[0] == SanitisedUnit(hi) && r[1] == SanitisedUnit(lo);
  }
}
