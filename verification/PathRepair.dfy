/**
 The backslash repair that internal/cli/suggest.go applies to a JSON text whose
 strings may hold raw Windows paths, and the string decoder of RFC 8259 it feeds.
 */
module PathRepair {
  import opened Common

  predicate Hex4(s: string) {
    |s| >= 4 && IsHex(s[0]) && IsHex(s[1]) && IsHex(s[2]) && IsHex(s[3])
  }

  // Length of the escape that a text starting with a backslash may keep, or 0.
  function Kept(s: string): (n: nat)
    ensures n <= |s| && (n == 0 || n == 2 || n == 6)
  {
    if |s| < 2 then 0
    else if s[1] == '\\' || s[1] == '"' || s[1] == '/' then 2
    else if s[1] == 'u' && Hex4(s[2..]) then 6
    else 0
  }

  // `inString` says whether the text starts inside a string literal.
  function Repair(s: string, inString: bool): string {
    if s == [] then []
    else if !inString then [s[0]] + Repair(s[1..], s[0] == '"')
    else if s[0] != '\\' then [s[0]] + Repair(s[1..], s[0] != '"')
    else if |s| == 1 then "\\\\"
    else if Kept(s) > 0 then s[..Kept(s)] + Repair(s[Kept(s)..], true)
    else "\\\\" + [s[1]] + Repair(s[2..], true)
  }

  // ---------------------------------------------------------------- well escaped texts

  const HEX_DIGITS := "0123456789abcdefABCDEF"

  // At position `i` an escape of two characters: \\, \" or \/.
  predicate ShortEscapeAt(s: string, i: nat) {
    i + 1 < |s| && s[i] == '\\' && (s[i + 1] == '\\' || s[i + 1] == '"' || s[i + 1] == '/')
  }

  // At position `i` an escape \uXXXX.
  predicate UnitEscapeAt(s: string, i: nat) {
    && i + 5 < |s| && s[i] == '\\' && s[i + 1] == 'u'
    && s[i + 2] in HEX_DIGITS && s[i + 3] in HEX_DIGITS && s[i + 4] in HEX_DIGITS && s[i + 5] in HEX_DIGITS
  }

  // Inside strings every backslash starts an escape \\, \", \/ or \uXXXX.
  predicate WellEscaped(s: string, inString: bool) {
    if s == [] then true
    else if !inString then WellEscaped(s[1..], s[0] == '"')
    else if s[0] != '\\' then WellEscaped(s[1..], s[0] != '"')
    else if ShortEscapeAt(s, 0) then WellEscaped(s[2..], true)
    else UnitEscapeAt(s, 0) && WellEscaped(s[6..], true)
  }

  lemma HexDigits(c: char)
    ensures IsHex(c) <==> c in HEX_DIGITS
  {
    if IsHex(c) {
      var i := if c <= '9' then (c - '0') as int else if c <= 'F' then (c - 'A') as int + 16 else (c - 'a') as int + 10;
      assert HEX_DIGITS[i] == c;
    }
  }

  // What Kept measures, in characters.
  lemma KeptIs(s: string)
    requires s != [] && s[0] == '\\'
    ensures Kept(s) == if ShortEscapeAt(s, 0) then 2 else if UnitEscapeAt(s, 0) then 6 else 0
  {
    if |s| >= 6 {
      HexDigits(s[2]);
      HexDigits(s[3]);
      HexDigits(s[4]);
      HexDigits(s[5]);
    }
  }

  lemma KeptIsLocal(s: string, t: string)
    requires |s| <= |t| && s == t[..|s|] && Kept(s) > 0
    ensures Kept(t) == Kept(s)
  {
  }

  lemma {:induction false} RepairWellEscapes(s: string, inString: bool)
    ensures WellEscaped(Repair(s, inString), inString)
  {
    var r := Repair(s, inString);
    if s == [] || (inString && s == "\\") {
    } else if !inString || s[0] != '\\' {
      RepairWellEscapes(s[1..], if inString then s[0] != '"' else s[0] == '"');
      assert r[1..] == Repair(s[1..], if inString then s[0] != '"' else s[0] == '"');
    } else if Kept(s) > 0 {
      RepairWellEscapes(s[Kept(s)..], true);
      KeptIsLocal(s[..Kept(s)], r);
      KeptIs(r);
      assert r[Kept(s)..] == Repair(s[Kept(s)..], true);
    } else {
      RepairWellEscapes(s[2..], true);
      assert r[2..] == [s[1]] + Repair(s[2..], true);
      assert r[2..][1..] == Repair(s[2..], true);
    }
  }

  lemma {:induction false} RepairKeeps(s: string, inString: bool)
    requires WellEscaped(s, inString)
    ensures Repair(s, inString) == s
  {
    if s != [] {
      if !inString || s[0] != '\\' {
        RepairKeeps(s[1..], if inString then s[0] != '"' else s[0] == '"');
      } else {
        KeptIs(s);
        RepairKeeps(s[Kept(s)..], true);
      }
    }
  }

  /** Repair leaves exactly the well escaped texts alone. */
  lemma RepairFixesExactly(s: string)
    ensures Repair(s, false) == s <==> WellEscaped(s, false)
  {
    RepairWellEscapes(s, false);
    if WellEscaped(s, false) { RepairKeeps(s, false); }
  }

  /** Repairing a repaired text changes nothing. */
  lemma RepairIdempotent(s: string)
    ensures WellEscaped(Repair(s, false), false)
    ensures Repair(Repair(s, false), false) == Repair(s, false)
  {
    RepairWellEscapes(s, false);
    RepairKeeps(Repair(s, false), false);
  }

  // ---------------------------------------------------------------- what lies outside strings

  // Everything outside string literals, with the quotes that delimit them.  Inside a
  // literal a backslash takes the next character with it, as in section 7 of RFC 8259.
  function Skeleton(s: string, inString: bool): string {
    if s == [] then []
    else if !inString then [s[0]] + Skeleton(s[1..], s[0] == '"')
    else if s[0] == '"' then "\"" + Skeleton(s[1..], false)
    else if s[0] == '\\' then (if |s| == 1 then [] else Skeleton(s[2..], true))
    else Skeleton(s[1..], true)
  }

  lemma {:induction false} SkeletonSkipsHex(h: string, t: string)
    requires forall i :: 0 <= i < |h| ==> IsHex(h[i])
    ensures Skeleton(h + t, true) == Skeleton(t, true)
  {
    if h == [] {
      assert h + t == t;
    } else {
      SkeletonSkipsHex(h[1..], t);
      assert (h + t)[1..] == h[1..] + t;
    }
  }

  lemma SkeletonSkipsKept(esc: string, t: string)
    requires |esc| == Kept(esc) > 0 && esc[0] == '\\'
    ensures Skeleton(esc + t, true) == Skeleton(t, true)
  {
    var s := esc + t;
    assert s[2..] == esc[2..] + t;
    SkeletonSkipsHex(esc[2..], t);
  }

  lemma {:induction false} SkeletonOfRepair(s: string, inString: bool)
    ensures Skeleton(Repair(s, inString), inString) == Skeleton(s, inString)
  {
    var r := Repair(s, inString);
    if s == [] || (inString && s == "\\") {
    } else if !inString || s[0] != '\\' {
      SkeletonOfRepair(s[1..], if inString then s[0] != '"' else s[0] == '"');
      assert r[1..] == Repair(s[1..], if inString then s[0] != '"' else s[0] == '"');
    } else if Kept(s) > 0 {
      SkeletonOfRepair(s[Kept(s)..], true);
      KeptOfEscape(s);
      SkeletonSkipsKept(s[..Kept(s)], s[Kept(s)..]);
      SkeletonSkipsKept(s[..Kept(s)], Repair(s[Kept(s)..], true));
      assert s == s[..Kept(s)] + s[Kept(s)..];
    } else {
      SkeletonOfRepair(s[2..], true);
      assert r[2..] == [s[1]] + Repair(s[2..], true);
      assert r[2..][1..] == Repair(s[2..], true);
    }
  }

  /** Repair changes nothing outside string literals and moves no literal's end. */
  lemma RepairKeepsSkeleton(s: string)
    ensures Skeleton(Repair(s, false), false) == Skeleton(s, false)
  {
    SkeletonOfRepair(s, false);
  }

  // ---------------------------------------------------------------- decoding

  function HexValue(c: char): (v: nat)
    requires IsHex(c)
    ensures v < 16
  {
    if '0' <= c <= '9' then (c - '0') as int
    else if 'a' <= c <= 'f' then (c - 'a') as int + 10
    else (c - 'A') as int + 10
  }

  function Unit(s: string): (v: nat)
    requires Hex4(s)
    ensures v < 0x1_0000
  {
    ((HexValue(s[0]) * 16 + HexValue(s[1])) * 16 + HexValue(s[2])) * 16 + HexValue(s[3])
  }

  // The character an escape \uXXXX starts and the escape's length. A surrogate
  // takes the next escape with it when the two pair up, and is U+FFFD otherwise.
  function UnicodeEscape(s: string): (r: (char, nat))
    requires |s| >= 6 && Hex4(s[2..])
    ensures 6 <= r.1 <= |s|
  {
    var v := Unit(s[2..]);
    if v < 0xD800 || 0xE000 <= v then (v as char, 6)
    else if v < 0xDC00 && |s| >= 12 && s[6] == '\\' && s[7] == 'u' && Hex4(s[8..])
            && 0xDC00 <= Unit(s[8..]) < 0xE000 then
      ((0x1_0000 + (v - 0xD800) * 0x400 + (Unit(s[8..]) - 0xDC00)) as char, 12)
    else ('\U{FFFD}', 6)
  }

  function Prepend(c: char, r: Option<string>): Option<string> {
    if r.Some? then Some([c] + r.value) else None
  }

  // A string literal after its opening quote, to the end of the text (section 7 of RFC 8259).
  function DecodeBody(s: string): Option<string>
    decreases |s|
  {
    if s == [] then None
    else if s[0] == '"' then (if |s| == 1 then Some("") else None)
    else if s[0] < ' ' then None
    else if s[0] != '\\' then Prepend(s[0], DecodeBody(s[1..]))
    else if |s| == 1 then None
    else if s[1] in {'"', '\\', '/'} then Prepend(s[1], DecodeBody(s[2..]))
    else if s[1] == 'b' then Prepend('\U{08}', DecodeBody(s[2..]))
    else if s[1] == 'f' then Prepend('\U{0C}', DecodeBody(s[2..]))
    else if s[1] == 'n' then Prepend('\n', DecodeBody(s[2..]))
    else if s[1] == 'r' then Prepend('\r', DecodeBody(s[2..]))
    else if s[1] == 't' then Prepend('\t', DecodeBody(s[2..]))
    else if s[1] == 'u' && Hex4(s[2..]) then
      var u := UnicodeEscape(s);
      Prepend(u.0, DecodeBody(s[u.1..]))
    else None
  }

  function Decode(s: string): Option<string> {
    if s != [] && s[0] == '"' then DecodeBody(s[1..]) else None
  }

  // No quote, no control character, and no backslash that ends the path or already starts
  // an escape \\, \", \/ or \uXXXX.
  predicate PlainAt(p: string, i: nat)
    requires i < |p|
  {
    && p[i] != '"' && p[i] >= ' '
    && (p[i] == '\\' ==> i + 1 < |p| && !ShortEscapeAt(p, i) && !UnitEscapeAt(p, i))
  }

  predicate Plain(p: string) {
    forall i :: 0 <= i < |p| ==> PlainAt(p, i)
  }

  // Every backslash doubled.
  function Doubled(p: string): string {
    if p == [] then [] else (if p[0] == '\\' then "\\\\" else [p[0]]) + Doubled(p[1..])
  }

  lemma PlainTail(p: string)
    requires p != []
    ensures Plain(p) <==> PlainAt(p, 0) && Plain(p[1..])
  {
    var t := p[1..];
    assert forall i :: 0 <= i < |t| ==> (PlainAt(t, i) <==> PlainAt(p, i + 1));
    if PlainAt(p, 0) && Plain(t) {
      forall i | 0 <= i < |p| ensures PlainAt(p, i) {
        if i > 0 { assert PlainAt(t, i - 1); }
      }
    }
    if Plain(p) {
      forall i | 0 <= i < |t| ensures PlainAt(t, i) { assert PlainAt(p, i + 1); }
    }
  }

  // Only the characters after a backslash and before the closing quote decide.
  lemma KeptBeforeQuote(p: string, post: string)
    requires |p| >= 2 && p[0] == '\\'
    ensures Kept(p + "\"" + post) == Kept(p)
  {
    var t := p + "\"" + post;
    assert p == t[..|p|];
    if |p| < 6 && p[1] == 'u' { assert t[|p|] == '"'; }
  }

  lemma RepairDoubles(s: string)
    requires |s| >= 2 && s[0] == '\\' && Kept(s) == 0
    ensures Repair(s, true) == "\\\\" + Repair(s[1..], true)
  {
    var t, rest := s[1..], Repair(s[2..], true);
    assert t[1..] == s[2..] && t[0] == s[1] && t[0] != '\\' && t[0] != '"';
    assert Repair(t, true) == [s[1]] + rest;
    assert "\\\\" + [s[1]] + rest == "\\\\" + ([s[1]] + rest);
  }

  lemma {:induction false} RepairOfPlain(p: string, post: string)
    requires Plain(p)
    ensures Repair(p + "\"" + post, true) == Doubled(p) + "\"" + Repair(post, false)
  {
    var t := p + "\"" + post;
    if p == [] {
      assert t[1..] == post;
    } else {
      PlainTail(p);
      assert PlainAt(p, 0);
      assert t[1..] == p[1..] + "\"" + post;
      RepairOfPlain(p[1..], post);
      if p[0] == '\\' {
        KeptIs(p);
        KeptBeforeQuote(p, post);
        RepairDoubles(t);
      }
    }
  }

  lemma {:induction false} DecodeDoubled(p: string)
    requires Plain(p)
    ensures DecodeBody(Doubled(p) + "\"") == Some(p)
  {
    var t := Doubled(p) + "\"";
    if p != [] {
      PlainTail(p);
      assert PlainAt(p, 0);
      DecodeDoubled(p[1..]);
      var k := if p[0] == '\\' then 2 else 1;
      assert t[k..] == Doubled(p[1..]) + "\"";
      assert [p[0]] + p[1..] == p;
    }
  }

  predicate StartsUnit(s: string) {
    |s| >= 6 && s[0] == '\\' && s[1] == 'u' && Hex4(s[2..])
  }

  // A repaired text that starts with \uXXXX was one that does.
  lemma RepairedUnit(s: string)
    requires StartsUnit(Repair(s, true))
    ensures |s| >= 6 && s[0] == '\\' && Kept(s) == 6 && Repair(s, true)[6..] == Repair(s[6..], true)
  {
  }

  // What a repaired path decodes to is no longer than the path, and shorter unless the path is plain.
  lemma {:induction false} DecodeShrinks(p: string)
    ensures var d := DecodeBody(Repair(p + "\"", true));
            d.Some? ==> |d.value| < |p| || (|d.value| == |p| && Plain(p))
    decreases |p|
  {
    var t := p + "\"";
    var r := Repair(t, true);
    if p == [] {
      assert t[1..] == [];
    } else if p[0] == '"' {
      assert t[1..] != [];
    } else if p[0] != '\\' {
      DecodeShrinks(p[1..]);
      PlainTail(p);
      assert t[1..] == p[1..] + "\"" && r[1..] == Repair(t[1..], true);
    } else if |p| == 1 {
      assert t == "\\\"" && t[2..] == "";
      assert r[2..] == "";
    } else if Kept(p) > 0 {
      KeptBeforeQuote(p, "");
      assert t == p + "\"" + "";
      DecodeEscape(p);
    } else {
      KeptBeforeQuote(p, "");
      assert t == p + "\"" + "";
      RepairDoubles(t);
      assert t[1..] == p[1..] + "\"" && r[2..] == Repair(t[1..], true);
      DecodeShrinks(p[1..]);
      KeptIs(p);
      PlainTail(p);
    }
  }

  lemma RepairKept(esc: string, rest: string)
    requires |esc| == Kept(esc + rest) > 0 && esc[0] == '\\'
    ensures Repair(esc + rest, true) == esc + Repair(rest, true)
  {
    var t := esc + rest;
    assert t[..|esc|] == esc && t[|esc|..] == rest;
  }

  // A path that starts with a kept escape, quoted: the escape is copied and the rest repaired.
  lemma RepairCopies(p: string)
    requires |p| >= 2 && p[0] == '\\' && Kept(p) > 0
    ensures var k := Kept(p);
            Repair(p + "\"", true) == p[..k] + Repair(p[k..] + "\"", true)
  {
    var k := Kept(p);
    KeptBeforeQuote(p, "");
    assert p + "\"" == p + "\"" + "" == p[..k] + (p[k..] + "\"");
    RepairKept(p[..k], p[k..] + "\"");
  }

  // The decoder takes an escape of the kept kinds for one character.
  lemma DecodeKept(esc: string, rest: string)
    requires |esc| == Kept(esc) > 0 && esc[0] == '\\'
    ensures var d := DecodeBody(esc + rest);
            d.Some? ==> (StartsUnit(rest) && DecodeBody(rest[6..]).Some?
                         && |d.value| == 1 + |DecodeBody(rest[6..]).value|)
                        || (DecodeBody(rest).Some? && |d.value| == 1 + |DecodeBody(rest).value|)
  {
    var r := esc + rest;
    if |esc| == 2 {
      assert r[2..] == rest;
    } else {
      assert r[2..][..4] == esc[2..] && Hex4(r[2..]);
      assert r[6..] == rest;
      if UnicodeEscape(r).1 == 12 {
        assert r[8..] == rest[2..] && r[12..] == rest[6..] && r[6] == rest[0] && r[7] == rest[1];
      }
    }
  }

  lemma {:induction false} DecodeEscape(p: string)
    requires |p| >= 2 && p[0] == '\\' && Kept(p) > 0
    ensures var d := DecodeBody(Repair(p + "\"", true));
            d.Some? ==> |d.value| < |p|
    decreases |p|, 0
  {
    var k := Kept(p);
    var t := p[k..] + "\"";
    RepairCopies(p);
    KeptIsLocal(p, p);
    KeptOfEscape(p);
    DecodeKept(p[..k], Repair(t, true));
    DecodeShrinks(p[k..]);
    if StartsUnit(Repair(t, true)) {
      RepairedUnit(t);
      assert t[|t| - 1] == '"' && |t| >= 6;
      assert |t| > 6 by { assert IsHex(t[5]); }
      assert t[6..] == p[k..][6..] + "\"";
      DecodeShrinks(p[k..][6..]);
    }
  }

  lemma KeptOfEscape(p: string)
    requires Kept(p) > 0
    ensures Kept(p[..Kept(p)]) == Kept(p)
  {
    var k := Kept(p);
    assert k == 6 ==> p[..k][2..] == p[2..][..4];
  }

  /** A raw path in quotes decodes to itself exactly when it is plain. */
  lemma QuotedPathDecodes(p: string)
    ensures Decode(Repair("\"" + p + "\"", false)) == Some(p) <==> Plain(p)
  {
    var s := "\"" + p + "\"";
    assert s[1..] == p + "\"" && Repair(s, false)[1..] == Repair(p + "\"", true);
    DecodeShrinks(p);
    if Plain(p) {
      RepairOfPlain(p, "");
      assert p + "\"" + "" == p + "\"" && Doubled(p) + "\"" + "" == Doubled(p) + "\"";
      DecodeDoubled(p);
    }
  }

  // ---------------------------------------------------------------- paths inside a larger text

  predicate EndsInString(s: string, inString: bool) {
    if s == [] then inString
    else if !inString then EndsInString(s[1..], s[0] == '"')
    else if s[0] == '"' then EndsInString(s[1..], false)
    else if s[0] == '\\' then |s| == 1 || EndsInString(s[2..], true)
    else EndsInString(s[1..], true)
  }

  lemma {:induction false} HexStaysInside(s: string)
    requires forall i :: 0 <= i < |s| ==> IsHex(s[i])
    ensures EndsInString(s, true)
  {
    if s != [] { HexStaysInside(s[1..]); }
  }

  lemma CutUnitStaysInside(a: string)
    requires |a| >= 2 && a[0] == '\\' && a[1] == 'u' && Kept(a) == 0
    requires forall i :: 2 <= i < |a| ==> IsHex(a[i])
    ensures EndsInString(a, true)
  {
    HexStaysInside(a[2..]);
  }

  lemma {:induction false} EndsAfterHex(h: string, t: string)
    requires forall i :: 0 <= i < |h| ==> IsHex(h[i])
    ensures EndsInString(h + t, true) == EndsInString(t, true)
  {
    if h == [] {
      assert h + t == t;
    } else {
      EndsAfterHex(h[1..], t);
      assert (h + t)[1..] == h[1..] + t;
    }
  }

  // Where a literal ends does not depend on how much of an escape is passed over at once.
  lemma EndsAfterKept(a: string)
    requires |a| >= 2 && a[0] == '\\'
    ensures Kept(a) > 0 ==> EndsInString(a[Kept(a)..], true) == EndsInString(a, true)
    ensures Kept(a) == 0 ==> EndsInString(a[1..], true) == EndsInString(a, true)
  {
    if Kept(a) == 6 {
      EndsAfterHex(a[2..6], a[6..]);
      assert a[2..] == a[2..6] + a[6..];
    } else if Kept(a) == 0 {
      assert a[1..][1..] == a[2..];
    }
  }

  // More text only ever completes a cut \uXXXX.
  lemma KeptGrows(a: string, b: string)
    requires |a| >= 2 && Kept(a + b) != Kept(a)
    ensures a[1] == 'u' && Kept(a) == 0 && forall i :: 2 <= i < |a| ==> IsHex(a[i])
  {
    var t := a + b;
    assert forall i :: 2 <= i < |a| ==> a[i] == t[2..][i - 2];
  }

  // A prefix that ends outside strings decides its escapes alone.
  lemma KeptInPrefix(a: string, b: string)
    requires a != [] && a[0] == '\\' && !EndsInString(a, true)
    ensures |a| >= 2 && Kept(a + b) == Kept(a)
  {
    if Kept(a + b) != Kept(a) {
      KeptGrows(a, b);
      CutUnitStaysInside(a);
      assert false;
    }
  }

  lemma Regroup(x: string, y: string, z: string)
    ensures x + (y + z) == x + y + z
  {
  }

  lemma SplitAt(a: string, b: string, k: nat)
    requires k <= |a|
    ensures a == a[..k] + a[k..] && a + b == a[..k] + (a[k..] + b)
  {
  }

  lemma RepairHead(c: char, t: string, inString: bool)
    requires !inString || c != '\\'
    ensures Repair([c] + t, inString) == [c] + Repair(t, if inString then c != '"' else c == '"')
  {
    assert ([c] + t)[1..] == t;
  }

  lemma RepairBackslash(t: string)
    requires t != [] && Kept("\\" + t) == 0
    ensures Repair("\\" + t, true) == "\\\\" + Repair(t, true)
  {
    assert ("\\" + t)[1..] == t;
    RepairDoubles("\\" + t);
  }

  // The induction steps of RepairConcat.
  lemma ConcatHead(c: char, t: string, b: string, inString: bool)
    requires !inString || c != '\\'
    requires var st := if inString then c != '"' else c == '"'; Repair(t + b, st) == Repair(t, st) + Repair(b, false)
    ensures Repair([c] + (t + b), inString) == Repair([c] + t, inString) + Repair(b, false)
  {
    RepairHead(c, t + b, inString);
    RepairHead(c, t, inString);
    Regroup([c], Repair(t, if inString then c != '"' else c == '"'), Repair(b, false));
  }

  lemma ConcatKept(esc: string, rest: string, b: string)
    requires |esc| == Kept(esc + rest) == Kept(esc + (rest + b)) > 0 && esc[0] == '\\'
    requires Repair(rest + b, true) == Repair(rest, true) + Repair(b, false)
    ensures Repair(esc + (rest + b), true) == Repair(esc + rest, true) + Repair(b, false)
  {
    RepairKept(esc, rest + b);
    RepairKept(esc, rest);
    Regroup(esc, Repair(rest, true), Repair(b, false));
  }

  lemma ConcatBackslash(t: string, b: string)
    requires t != [] && Kept("\\" + t) == 0 && Kept("\\" + (t + b)) == 0
    requires Repair(t + b, true) == Repair(t, true) + Repair(b, false)
    ensures Repair("\\" + (t + b), true) == Repair("\\" + t, true) + Repair(b, false)
  {
    RepairBackslash(t + b);
    RepairBackslash(t);
    Regroup("\\\\", Repair(t, true), Repair(b, false));
  }

  lemma {:induction false} RepairConcat(a: string, b: string, inString: bool)
    requires !EndsInString(a, inString)
    ensures Repair(a + b, inString) == Repair(a, inString) + Repair(b, false)
  {
    if a == [] {
      assert a + b == b;
    } else {
      var plain := !inString || a[0] != '\\';
      if !plain {
        KeptInPrefix(a, b);
        EndsAfterKept(a);
      }
      var k := if !plain && Kept(a) > 0 then Kept(a) else 1;
      SplitAt(a, b, k);
      if plain {
        RepairConcat(a[1..], b, if inString then a[0] != '"' else a[0] == '"');
        ConcatHead(a[0], a[1..], b, inString);
      } else {
        RepairConcat(a[k..], b, true);
        if Kept(a) > 0 {
          ConcatKept(a[..k], a[k..], b);
        } else {
          assert a[..1] == "\\";
          ConcatBackslash(a[1..], b);
        }
      }
    }
  }

  /** A plain path quoted anywhere outside the strings of a larger text comes out
      with its backslashes doubled, decodes to itself, and disturbs nothing around it. */
  lemma PathInContext(pre: string, p: string, post: string)
    requires !EndsInString(pre, false) && Plain(p)
    ensures Repair(pre + ("\"" + (p + "\"" + post)), false)
            == Repair(pre, false) + ("\"" + (Doubled(p) + "\"" + Repair(post, false)))
    ensures Decode("\"" + (Doubled(p) + "\"")) == Some(p)
  {
    var quoted := "\"" + (p + "\"" + post);
    RepairConcat(pre, quoted, false);
    assert quoted[1..] == p + "\"" + post;
    RepairOfPlain(p, post);
    DecodeDoubled(p);
    assert ("\"" + (Doubled(p) + "\""))[1..] == Doubled(p) + "\"";
  }

  // ---------------------------------------------------------------- the builder loop

  // What one pass of the loop writes, how much it reads, and where it leaves the flag.
  datatype Pass = Pass(out: string, read: nat, inString: bool)

  function OnePass(s: string, inString: bool): (r: Pass)
    requires s != []
    ensures 0 < r.read <= |s|
  {
    if !inString then Pass([s[0]], 1, s[0] == '"')
    else if s[0] != '\\' then Pass([s[0]], 1, s[0] != '"')
    else if |s| == 1 then Pass("\\\\", 1, true)
    else if Kept(s) > 0 then Pass(s[..Kept(s)], Kept(s), true)
    else Pass("\\\\" + [s[1]], 2, true)
  }

  lemma PassRepairs(input: string, i: nat, inString: bool, b: string)
    requires i < |input|
    ensures var r := OnePass(input[i..], inString);
            b + Repair(input[i..], inString) == b + r.out + Repair(input[i + r.read..], r.inString)
  {
    var s := input[i..];
    var r := OnePass(s, inString);
    assert s[r.read..] == input[i + r.read..];
    assert Repair(s, inString) == r.out + Repair(s[r.read..], r.inString);
  }

  // The switch at a backslash inside a string: what is written, and how far the index moves beyond it.
  method WriteBackslash(input: string, i: nat) returns (out: string, more: nat)
    requires i < |input| && input[i] == '\\'
    ensures OnePass(input[i..], true) == Pass(out, more + 1, true)
  {
    ghost var rest := input[i..];
    if i + 1 >= |input| { return "\\\\", 0; }
    var next := input[i + 1];
    if next == '\\' || next == '"' || next == '/' {
      assert rest[..2] == ['\\'] + [next];
      return ['\\'] + [next], 1;
    }
    if next == 'u' && i + 5 < |input| && IsHex(input[i + 2]) && IsHex(input[i + 3])
       && IsHex(input[i + 4]) && IsHex(input[i + 5]) {
      assert rest[..6] == input[i..i + 6];
      return input[i..i + 6], 5;
    }
    return "\\\\" + [next], 1;
  }

  method PreserveWindowsPathEscapes(input: string) returns (b: string)
    ensures b == Repair(input, false)
  {
    b := "";
    var inString := false;
    var i := 0;
    ghost var goal := Repair(input, false);
    assert input[0..] == input;
    while i < |input|
      invariant i <= |input|
      invariant b + Repair(input[i..], inString) == goal
    {
      ghost var rest, wrote, start := input[i..], b, i;
      ghost var pass := OnePass(rest, inString);
      PassRepairs(input, i, inString, b);
      var c := input[i];
      if !inString {
        b := b + [c];
        if c == '"' {
          inString := true;
        }
      } else if c != '\\' {
        b := b + [c];
        if c == '"' {
          inString := false;
        }
      } else {
        var out, more := WriteBackslash(input, i);
        b := b + out;
        i := i + more;
      }
      i := i + 1;
      assert b == wrote + pass.out && i == start + pass.read && inString == pass.inString;
    }
    assert input[i..] == "";
  }
}
