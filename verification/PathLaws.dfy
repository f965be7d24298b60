/** What cleaning, splitting and joining path names promise. */
module PathLaws {
  import opened Common
  import opened Pieces
  import opened PathNames

  // ---------------------------------------------------------------- path.Clean

  // What a cleaned path is made of: no empty and no "." pieces, and ".." only in front of a relative path.
  ghost predicate Normal(stack: seq<string>, rooted: bool) {
    forall i :: 0 <= i < |stack| ==>
      && stack[i] != "" && stack[i] != "." && SLASH !in stack[i]
      && (stack[i] == ".." ==> !rooted && forall j :: 0 <= j < i ==> stack[j] == "..")
  }

  lemma PushKeepsNormal(stack: seq<string>, piece: string, rooted: bool)
    requires Normal(stack, rooted) && SLASH !in piece
    ensures Normal(Push(stack, piece, rooted), rooted)
  {
    if stack != [] && Last(stack) == ".." { assert forall j :: 0 <= j < |stack| ==> stack[j] == ".."; }
  }

  lemma {:induction false} PushAllIsNormal(stack: seq<string>, pieces: seq<string>, rooted: bool)
    requires Normal(stack, rooted) && forall i :: 0 <= i < |pieces| ==> SLASH !in pieces[i]
    ensures Normal(PushAll(stack, pieces, rooted), rooted)
    decreases |pieces|
  {
    if pieces != [] {
      PushKeepsNormal(stack, pieces[0], rooted);
      PushAllIsNormal(Push(stack, pieces[0], rooted), pieces[1..], rooted);
    }
  }

  lemma {:induction false} PushAllConcat(stack: seq<string>, a: seq<string>, b: seq<string>, rooted: bool)
    ensures PushAll(stack, a + b, rooted) == PushAll(PushAll(stack, a, rooted), b, rooted)
    decreases |a|
  {
    if a == [] {
      assert a + b == b;
    } else {
      assert (a + b)[0] == a[0] && (a + b)[1..] == a[1..] + b;
      PushAllConcat(Push(stack, a[0], rooted), a[1..], b, rooted);
    }
  }

  lemma {:induction false} NormalStays(done: seq<string>, rest: seq<string>, rooted: bool)
    requires Normal(done + rest, rooted)
    ensures PushAll(done, rest, rooted) == done + rest
    decreases |rest|
  {
    if rest == [] {
      assert done + rest == done;
    } else {
      assert (done + rest)[|done|] == rest[0];
      assert done != [] && rest[0] == ".." ==> Last(done) == (done + rest)[|done| - 1] == "..";
      assert Push(done, rest[0], rooted) == done + [rest[0]];
      assert done + [rest[0]] + rest[1..] == done + rest;
      NormalStays(done + [rest[0]], rest[1..], rooted);
    }
  }

  /** A name followed by ".." is as if neither were there, and so is an empty piece or a "." alone. */
  lemma ParentCancels(pre: seq<string>, x: string, post: seq<string>, rooted: bool)
    requires x != "" && x != "." && x != ".."
    ensures PushAll([], pre + [x, ".."] + post, rooted) == PushAll([], pre + post, rooted)
    ensures PushAll([], pre + [""] + post, rooted) == PushAll([], pre + post, rooted)
    ensures PushAll([], pre + ["."] + post, rooted) == PushAll([], pre + post, rooted)
  {
    var stack := PushAll([], pre, rooted);
    PushAllConcat([], pre, post, rooted);
    PushAllConcat([], pre, [x, ".."], rooted);
    PushAllConcat([], pre + [x, ".."], post, rooted);
    PushAllConcat([], pre, [""], rooted);
    PushAllConcat([], pre + [""], post, rooted);
    PushAllConcat([], pre, ["."], rooted);
    PushAllConcat([], pre + ["."], post, rooted);
    assert [x, ".."][1..] == [".."] && [".."][1..] == [] && [""][1..] == [] && ["."][1..] == [];
    assert (stack + [x])[..|stack|] == stack;
  }

  /** A ".." with nothing before it stays in a relative path and goes from a rooted one. */
  lemma LeadingParent(post: seq<string>, rooted: bool)
    ensures PushAll([], [".."] + post, rooted) == PushAll(if rooted then [] else [".."], post, rooted)
  {
    assert ([".."] + post)[1..] == post;
    assert Push([], "..", rooted) == if rooted then [] else [".."];
  }

  lemma RootedText(stack: seq<string>, rooted: bool)
    requires Normal(stack, rooted)
    ensures HasPrefix(Show(stack, rooted), "/") == rooted
  {
    var shown := Show(stack, rooted);
    if rooted {
      assert shown[0] == '/' && shown[..1] == "/";
    } else if stack == [] {
      assert shown[..1] == ".";
    } else {
      assert shown == Join(stack, SLASH);
      assert stack[0] != "" && SLASH !in stack[0] && stack[0][0] in stack[0];
      assert Join(stack, SLASH)[0] == stack[0][0];
      assert shown[..1][0] == stack[0][0];
    }
  }

  // A normal path with a ".." starts with one.
  lemma ShownParents(stack: seq<string>, rooted: bool)
    requires Normal(stack, rooted) && ".." in stack
    ensures Show(stack, rooted) == ".." || HasPrefix(Show(stack, rooted), "../")
  {
    var i :| 0 <= i < |stack| && stack[i] == "..";
    assert stack[0] == ".." && !rooted;
    if |stack| > 1 {
      assert Show(stack, rooted) == ".." + [SLASH] + Join(stack[1..], SLASH);
      assert Show(stack, rooted)[..3] == "../";
    }
  }

  lemma PiecesOfEmpty(rooted: bool)
    ensures PushAll([], Split(Show([], rooted), SLASH), rooted) == []
  {
    if rooted {
      assert "/"[1..] == "" && Split("/", SLASH) == ["", ""];
      assert ["", ""][1..] == [""] && [""][1..] == [];
    } else {
      SplitLast(".", SLASH);
      assert ["."][1..] == [];
    }
  }

  lemma PiecesOfRooted(stack: seq<string>)
    requires stack != [] && forall i :: 0 <= i < |stack| ==> SLASH !in stack[i]
    ensures Split(Show(stack, true), SLASH) == [""] + stack
  {
    SplitOfJoin(stack, SLASH);
    assert Show(stack, true)[1..] == Join(stack, SLASH);
  }

  lemma PiecesOfShown(stack: seq<string>, rooted: bool)
    requires Normal(stack, rooted)
    ensures PushAll([], Split(Show(stack, rooted), SLASH), rooted) == stack
  {
    NormalStays([], stack, rooted);
    assert [] + stack == stack;
    if stack == [] {
      PiecesOfEmpty(rooted);
    } else if rooted {
      PiecesOfRooted(stack);
      assert ([""] + stack)[1..] == stack;
    } else {
      SplitOfJoin(stack, SLASH);
      assert Show(stack, rooted) == Join(stack, SLASH);
    }
  }

  /** Cleaning gives a path in normal form, and cleaning that again changes nothing. */
  lemma CleanIdempotent(p: string)
    ensures Normal(PushAll([], Split(p, SLASH), HasPrefix(p, "/")), HasPrefix(p, "/"))
    ensures Clean(Clean(p)) == Clean(p)
  {
    var rooted := HasPrefix(p, "/");
    JoinOfSplit(p, SLASH);
    PushAllIsNormal([], Split(p, SLASH), rooted);
    var stack := PushAll([], Split(p, SLASH), rooted);
    RootedText(stack, rooted);
    PiecesOfShown(stack, rooted);
  }

  // ---------------------------------------------------------------- path.Dir, path.Base and path.Ext

  lemma {:induction false} JoinMore(pieces: seq<string>, last: string)
    requires pieces != []
    ensures Join(pieces + [last], SLASH) == Join(pieces, SLASH) + "/" + last
  {
    var more := pieces + [last];
    if |pieces| == 1 {
      assert more[1..] == [last];
    } else {
      assert more[1..] == pieces[1..] + [last];
      JoinMore(pieces[1..], last);
    }
  }

  lemma SplitAppend(a: string, last: string)
    requires SLASH !in last
    ensures Split(a + "/" + last, SLASH) == Split(a, SLASH) + [last]
  {
    JoinOfSplit(a, SLASH);
    JoinMore(Split(a, SLASH), last);
    SplitOfJoin(Split(a, SLASH) + [last], SLASH);
  }

  lemma ShownParent(front: seq<string>, last: string, rooted: bool)
    requires last != "" && SLASH !in last && forall i :: 0 <= i < |front| ==> SLASH !in front[i]
    ensures Clean(Show(PushAll([], front, rooted), rooted) + "/" + last)
            == Show(PushAll([], front + [last], rooted), rooted)
  {
    var stack := PushAll([], front, rooted);
    var dir := Show(stack, rooted);
    PushAllIsNormal([], front, rooted);
    RootedText(stack, rooted);
    PiecesOfShown(stack, rooted);
    SplitAppend(dir, last);
    PushAllConcat([], Split(dir, SLASH), [last], rooted);
    PushAllConcat([], front, [last], rooted);
    assert dir != "";
    assert (dir + "/" + last)[..1] == dir[..1];
  }

  // The directory of a path with more than one piece.
  lemma DirOf(p: string, front: seq<string>, last: string)
    requires front != [] && Split(p, SLASH) == front + [last]
    ensures Dir(p) == Show(PushAll([], front, HasPrefix(p, "/")), HasPrefix(p, "/"))
  {
    var rooted := HasPrefix(p, "/");
    var above := Join(front + [""], SLASH);
    JoinOfSplit(p, SLASH);
    JoinMore(front, "");
    JoinMore(front, last);
    assert forall i :: 0 <= i < |front| ==> front[i] == Split(p, SLASH)[i];
    SplitOfJoin(front + [""], SLASH);
    PushAllConcat([], front, [""], rooted);
    assert [""][1..] == [];
    assert above[0] == p[0] && above[..1] == [p[0]] && p[..1] == [p[0]];
    assert (front + [last])[..|front|] == front;
  }

  lemma DirOfPiece(p: string)
    requires SLASH !in p
    ensures Dir(p) == "."
  {
    SplitLast(p, SLASH);
    assert Split("", SLASH) == [""] && [""][1..] == [];
  }

  lemma BaseOf(p: string)
    requires p != "" && p[|p| - 1] != '/'
    ensures Base(p) == Last(Split(p, SLASH)) != ""
  {
    LastIsNotEmpty(p);
  }

  lemma ShownIsNotEmpty(front: seq<string>, rooted: bool)
    requires forall i :: 0 <= i < |front| ==> SLASH !in front[i]
    ensures Show(PushAll([], front, rooted), rooted) != ""
  {
    PushAllIsNormal([], front, rooted);
    var stack := PushAll([], front, rooted);
    if stack != [] { assert stack[0] != "" && |Join(stack, SLASH)| >= |stack[0]|; }
  }

  // What a path is split into, and what Dir and Base make of it.
  lemma DirAndBase(p: string) returns (front: seq<string>, last: string)
    requires p != "" && p[|p| - 1] != '/'
    ensures Split(p, SLASH) == front + [last] && Base(p) == last != "" && SLASH !in last
    ensures forall i :: 0 <= i < |front| ==> SLASH !in front[i]
    ensures Dir(p) == Show(PushAll([], front, HasPrefix(p, "/")), HasPrefix(p, "/"))
  {
    var pieces := Split(p, SLASH);
    front, last := pieces[..|pieces| - 1], Last(pieces);
    assert pieces == front + [last];
    JoinOfSplit(p, SLASH);
    BaseOf(p);
    assert forall i :: 0 <= i < |front| ==> front[i] == pieces[i];
    if front == [] {
      DirOfPiece(p);
      assert p[0] in p && p[..1] == [p[0]];
    } else {
      DirOf(p, front, last);
    }
  }

  /** The directory of a path joined with its last piece is the path, cleaned. */
  lemma DirAndBaseRejoin(p: string)
    requires p != "" && p[|p| - 1] != '/'
    ensures JoinPath(Dir(p), Base(p)) == Clean(p)
  {
    var front, last := DirAndBase(p);
    ShownIsNotEmpty(front, HasPrefix(p, "/"));
    ShownParent(front, last, HasPrefix(p, "/"));
  }

  lemma {:induction false} LastIsNotEmpty(p: string)
    requires p != "" && p[|p| - 1] != '/'
    ensures Last(Split(p, SLASH)) != ""
  {
    if |p| > 1 {
      LastIsNotEmpty(p[1..]);
      SplitStep(p);
    } else {
      SplitLast(p, SLASH);
    }
  }

  // The extension starts at position `i`: the last dot, with no slash after it.
  predicate ExtStarts(p: string, i: nat) {
    i < |p| && p[i] == '.' && forall j :: i < j < |p| ==> p[j] != '.' && p[j] != '/'
  }

  /** The extension runs from the last dot of the last piece to the end, and is empty when there is none. */
  lemma {:induction false} ExtIs(p: string, i: nat)
    ensures ExtStarts(p, i) ==> Ext(p) == p[i..]
    ensures Ext(p) == "" <==> forall j :: 0 <= j < |p| ==> !ExtStarts(p, j)
  {
    if p != [] {
      var n := |p| - 1;
      var front := p[..n];
      assert forall j :: 0 <= j < n ==> front[j] == p[j];
      ExtIs(front, i);
      if ExtStarts(p, i) && i < n {
        assert ExtStarts(front, i) && p[i..] == front[i..] + [p[n]];
      }
      if p[n] == '.' {
        assert ExtStarts(p, n) && p[n..] == ".";
      } else if p[n] != '/' {
        assert forall j :: 0 <= j < n ==> (ExtStarts(p, j) <==> ExtStarts(front, j));
      }
    }
  }
}
