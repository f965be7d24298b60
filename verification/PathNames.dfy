/** Slash-separated path names, as Go's path and strings packages treat them. */
module PathNames {
  import opened Common
  import opened Pieces

  const SLASH: char := '/'

  // ---------------------------------------------------------------- text

  predicate IsSpace(c: char) {
    var n := c as int;
    || 0x09 <= n <= 0x0D || n == 0x20 || n == 0x85 || n == 0xA0 || n == 0x1680 || 0x2000 <= n <= 0x200A
    || n == 0x2028 || n == 0x2029 || n == 0x202F || n == 0x205F || n == 0x3000
  }

  function TrimLeft(s: string): string {
    if s != [] && IsSpace(s[0]) then TrimLeft(s[1..]) else s
  }

  function TrimRight(s: string): string {
    if s != [] && IsSpace(s[|s| - 1]) then TrimRight(s[..|s| - 1]) else s
  }

  function TrimSpace(s: string): string {
    TrimRight(TrimLeft(s))
  }

  predicate HasSuffix(s: string, p: string) {
    |p| <= |s| && s[|s| - |p|..] == p
  }

  function TrimPrefix(s: string, p: string): string {
    if HasPrefix(s, p) then s[|p|..] else s
  }

  function TrimSuffix(s: string, p: string): string {
    if HasSuffix(s, p) then s[..|s| - |p|] else s
  }

  // strings.ReplaceAll(s, "\\", "/")
  function Slashed(s: string): (r: string)
    ensures |r| == |s| && forall i :: 0 <= i < |s| ==> r[i] == if s[i] == '\\' then '/' else s[i]
  {
    seq(|s|, i requires 0 <= i < |s| => if s[i] == '\\' then '/' else s[i])
  }

  // ---------------------------------------------------------------- path.Clean

  function Last(s: seq<string>): string
    requires s != []
  {
    s[|s| - 1]
  }

  function Push(stack: seq<string>, piece: string, rooted: bool): seq<string> {
    if piece == "" || piece == "." then stack
    else if piece != ".." then stack + [piece]
    else if stack != [] && Last(stack) != ".." then stack[..|stack| - 1]
    else if rooted then stack
    else stack + [".."]
  }

  function PushAll(stack: seq<string>, pieces: seq<string>, rooted: bool): seq<string>
    decreases |pieces|
  {
    if pieces == [] then stack else PushAll(Push(stack, pieces[0], rooted), pieces[1..], rooted)
  }

  function Show(stack: seq<string>, rooted: bool): string {
    if stack == [] then (if rooted then "/" else ".")
    else (if rooted then "/" else "") + Join(stack, SLASH)
  }

  function Clean(p: string): string {
    var rooted := HasPrefix(p, "/");
    Show(PushAll([], Split(p, SLASH), rooted), rooted)
  }

  // ---------------------------------------------------------------- the other operations

  function TrimSlashes(p: string): string {
    if p != [] && p[|p| - 1] == '/' then TrimSlashes(p[..|p| - 1]) else p
  }

  function Base(p: string): string {
    if p == "" then "."
    else
      var t := TrimSlashes(p);
      if t == "" then "/" else Last(Split(t, SLASH))
  }

  function Dir(p: string): string {
    var pieces := Split(p, SLASH);
    Clean(if |pieces| == 1 then "" else Join(pieces[..|pieces| - 1] + [""], SLASH))
  }

  function JoinPath(a: string, b: string): string {
    if a == "" && b == "" then ""
    else if a == "" then Clean(b)
    else if b == "" then Clean(a)
    else Clean(a + "/" + b)
  }

  function Ext(p: string): string {
    if p == "" || p[|p| - 1] == '/' then ""
    else if p[|p| - 1] == '.' then "."
    else
      var e := Ext(p[..|p| - 1]);
      if e == "" then "" else e + [p[|p| - 1]]
  }

  // ---------------------------------------------------------------- names that end in .md

  predicate EndsMd(s: string) {
    HasSuffix(s, ".md")
  }

  lemma MdAt(s: string)
    requires EndsMd(s)
    ensures s[|s| - 3] == '.' && s[|s| - 2] == 'm' && s[|s| - 1] == 'd'
  {
    var t := s[|s| - 3..];
    assert s[|s| - 3] == t[0] && s[|s| - 2] == t[1] && s[|s| - 1] == t[2];
  }

  lemma EndsMdTail(s: string, k: nat)
    requires EndsMd(s) && k <= |s| - 3
    ensures EndsMd(s[k..])
  {
    assert s[k..][|s| - k - 3..] == s[|s| - 3..];
  }

  lemma {:induction false} TrimKeepsMd(s: string)
    requires EndsMd(s)
    ensures EndsMd(TrimSpace(s))
  {
    if IsSpace(s[0]) {
      EndsMdTail(s, 1);
      TrimKeepsMd(s[1..]);
    } else {
      MdAt(s);
    }
  }

  lemma SlashedKeepsMd(s: string)
    requires EndsMd(s)
    ensures EndsMd(Slashed(s))
  {
    MdAt(s);
    assert Slashed(s)[|s| - 3..] == s[|s| - 3..];
  }

  lemma SplitStep(s: string)
    requires s != []
    ensures var rest := Split(s[1..], SLASH);
            Last(Split(s, SLASH)) == if s[0] != '/' && |rest| == 1 then [s[0]] + rest[0] else Last(rest)
  {
  }

  lemma {:induction false} LastPieceEndsMd(s: string)
    requires EndsMd(s)
    ensures EndsMd(Last(Split(s, SLASH)))
  {
    if |s| == 3 {
      assert s == ".md";
      SplitLast(s, SLASH);
    } else {
      EndsMdTail(s, 1);
      LastPieceEndsMd(s[1..]);
      SplitStep(s);
      SuffixEndsMd([s[0]], Last(Split(s[1..], SLASH)));
    }
  }

  lemma {:induction false} PushAllEnds(stack: seq<string>, pieces: seq<string>, rooted: bool)
    requires pieces != [] && EndsMd(Last(pieces))
    ensures PushAll(stack, pieces, rooted) != [] && Last(PushAll(stack, pieces, rooted)) == Last(pieces)
    decreases |pieces|
  {
    if |pieces| == 1 {
      assert pieces[1..] == [];
      assert |pieces[0]| >= 3;
    } else {
      assert Last(pieces[1..]) == Last(pieces);
      PushAllEnds(Push(stack, pieces[0], rooted), pieces[1..], rooted);
    }
  }

  lemma SuffixEndsMd(a: string, b: string)
    requires EndsMd(b)
    ensures EndsMd(a + b)
  {
    assert (a + b)[|a + b| - 3..] == b[|b| - 3..];
  }

  lemma {:induction false} JoinEndsMd(pieces: seq<string>)
    requires pieces != [] && EndsMd(Last(pieces))
    ensures EndsMd(Join(pieces, SLASH))
  {
    if |pieces| > 1 {
      assert Last(pieces[1..]) == Last(pieces);
      JoinEndsMd(pieces[1..]);
      SuffixEndsMd(pieces[0] + [SLASH], Join(pieces[1..], SLASH));
    }
  }

  lemma CleanKeepsMd(s: string)
    requires EndsMd(s)
    ensures EndsMd(Clean(s))
  {
    var rooted := HasPrefix(s, "/");
    var pieces := Split(s, SLASH);
    LastPieceEndsMd(s);
    PushAllEnds([], pieces, rooted);
    var stack := PushAll([], pieces, rooted);
    JoinEndsMd(stack);
    SuffixEndsMd(if rooted then "/" else "", Join(stack, SLASH));
  }

  lemma JoinPathKeepsMd(a: string, b: string)
    requires EndsMd(b)
    ensures EndsMd(JoinPath(a, b))
  {
    if a == "" {
      CleanKeepsMd(b);
    } else {
      SuffixEndsMd(a + "/", b);
      CleanKeepsMd(a + "/" + b);
    }
  }

  lemma BaseKeepsMd(s: string)
    requires EndsMd(s)
    ensures EndsMd(Base(s))
  {
    MdAt(s);
    LastPieceEndsMd(s);
  }

  // The last piece of a path is its end.
  lemma {:induction false} LastPieceIsSuffix(p: string)
    ensures HasSuffix(p, Last(Split(p, SLASH)))
  {
    if p != [] {
      LastPieceIsSuffix(p[1..]);
      var rest := Split(p[1..], SLASH);
      var last := Last(rest);
      assert p[1..][|p| - 1 - |last|..] == p[|p| - |last|..];
      if p[0] != '/' && |rest| == 1 {
        JoinOfSplit(p[1..], SLASH);
      }
    }
  }
}
