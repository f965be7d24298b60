/** What closes a fenced block of Markdown, in characters. */
module FenceClosing {
  import opened Common
  import opened FenceMask

  // The white space characters of Unicode, by code point.
  predicate White(v: nat) {
    || 0x09 <= v <= 0x0D || v == 0x20 || v == 0x85 || v == 0xA0 || v == 0x1680 || 0x2000 <= v <= 0x200A
    || v == 0x2028 || v == 0x2029 || v == 0x202F || v == 0x205F || v == 0x3000
  }

  // The UTF-8 form of a code point (section 3 of RFC 3629).
  function Utf8(v: nat): (s: string)
    requires v < 0x1_0000
    ensures |s| > 0
  {
    if v < 0x80 then [v as char]
    else if v < 0x800 then [(0xC0 + v / 64) as char, (0x80 + v % 64) as char]
    else [(0xE0 + v / 4096) as char, (0x80 + v / 64 % 64) as char, (0x80 + v % 64) as char]
  }

  ghost predicate IsWhiteRune(r: string) {
    exists v :: White(v) && r == Utf8(v)
  }

  ghost predicate AllWhite(runes: seq<string>) {
    forall i :: 0 <= i < |runes| ==> IsWhiteRune(runes[i])
  }

  function Concat(runes: seq<string>): string {
    if runes == [] then [] else runes[0] + Concat(runes[1..])
  }

  lemma SpaceRuneIs(r: string, t: string)
    requires IsWhiteRune(r)
    ensures SpaceRune(r + t) == |r| > 0
    ensures r[0] != '`' && r[0] != '~'
  {
  }

  lemma SpaceRuneOf(s: string)
    requires SpaceRune(s) > 0
    ensures IsWhiteRune(s[..SpaceRune(s)])
  {
    var n := SpaceRune(s);
    var v: nat := if n == 1 then s[0] as int else if n == 2 then s[1] as int
                  else (s[0] as int - 0xE0) * 4096 + (s[1] as int - 0x80) * 64 + (s[2] as int - 0x80);
    assert White(v) && |Utf8(v)| == n && forall i :: 0 <= i < n ==> Utf8(v)[i] == s[i];
    assert Utf8(v) == s[..n];
  }

  lemma {:induction false} WhiteIsBlank(runes: seq<string>)
    requires AllWhite(runes)
    ensures Blank(Concat(runes)) && (Concat(runes) != [] ==> Concat(runes)[0] != '`' && Concat(runes)[0] != '~')
  {
    if runes != [] {
      SpaceRuneIs(runes[0], Concat(runes[1..]));
      WhiteIsBlank(runes[1..]);
      assert Concat(runes)[|runes[0]|..] == Concat(runes[1..]);
    }
  }

  lemma {:induction false} BlankIsWhite(s: string) returns (runes: seq<string>)
    requires Blank(s)
    ensures AllWhite(runes) && s == Concat(runes)
  {
    if s == [] {
      runes := [];
    } else {
      SpaceRuneOf(s);
      var rest := BlankIsWhite(s[SpaceRune(s)..]);
      runes := [s[..SpaceRune(s)]] + rest;
      assert runes[1..] == rest;
    }
  }

  // The line is `text`, or `text` and a carriage return.
  predicate IsLine(line: string, text: string) {
    line == text + "\r" || (line == text && (text == [] || text[|text| - 1] != '\r'))
  }

  // An indent, `count` fence characters and white space.
  ghost predicate ClosingText(text: string, marker: char, indent: string, count: nat, runes: seq<string>) {
    && count >= 3 && marker in {'`', '~'} && AllIndent(indent) && AllWhite(runes)
    && text == indent + (Repeat(marker, count) + Concat(runes))
  }

  lemma ClosingIsFence(text: string, marker: char, indent: string, count: nat, runes: seq<string>)
    requires ClosingText(text, marker, indent, count, runes)
    ensures MarkdownFence(text) == Some(Fence(marker, count, Concat(runes))) && Blank(Concat(runes))
  {
    WhiteIsBlank(runes);
    FenceIsExactly(text, Fence(marker, count, Concat(runes)));
  }

  lemma FenceIsClosing(text: string, f: Fence) returns (indent: string, runes: seq<string>)
    requires MarkdownFence(text) == Some(f) && Blank(f.rest)
    ensures ClosingText(text, f.marker, indent, f.count, runes)
  {
    FenceIsExactly(text, f);
    indent :| AllIndent(indent) && text == indent + (Repeat(f.marker, f.count) + f.rest);
    runes := BlankIsWhite(f.rest);
  }

  /** A line closes a fence exactly when it is an indent, at least three and at least as many of the same fence
      character as opened it, and nothing but white space after them. */
  lemma CloseIsExactly(line: string, marker: char, minimum: nat)
    ensures Closes(line, marker, minimum) <==>
            exists text, indent, count: nat, runes ::
              count >= minimum && IsLine(line, text) && ClosingText(text, marker, indent, count, runes)
  {
    if Closes(line, marker, minimum) {
      var f := MarkdownFence(Text(line)).value;
      var indent, runes := FenceIsClosing(Text(line), f);
      assert line != Text(line) ==> line == Text(line) + "\r";
      assert IsLine(line, Text(line));
    }
    if text, indent, count: nat, runes :|
       count >= minimum && IsLine(line, text) && ClosingText(text, marker, indent, count, runes) {
      assert Text(line) == text;
      ClosingIsFence(text, marker, indent, count, runes);
    }
  }
}
