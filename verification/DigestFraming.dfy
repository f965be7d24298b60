/**
 The bytes that internal/cli/git_frontier.go hashes to identify a worktree's
 distance from a base. A char stands for the byte with that code.
 */
module DigestFraming {
  import opened Common
  import opened Decimal
  import opened StringOrder

  const NUL: char := '\0'

  datatype Part = Part(name: string, data: string)

  datatype Frontier = Frontier(base: string, mergeBase: string, head: string, parts: seq<Part>)

  // ---------------------------------------------------------------- writing

  function PartBytes(p: Part): string {
    Dec(|p.name|) + ":" + (p.name + ":" + (Dec(|p.data|) + ":" + (p.data + [NUL])))
  }

  function PartsBytes(parts: seq<Part>): string {
    if parts == [] then "" else PartBytes(parts[0]) + PartsBytes(parts[1..])
  }

  function Field(tag: string, value: string): string {
    tag + (value + [NUL])
  }

  function Header(base: string, mergeBase: string, head: string): string {
    Field("mi-lsp-git-frontier-v1", "") + Field("base=", base) + Field("merge-base=", mergeBase) + Field("head=", head)
  }

  function Bytes(f: Frontier): string {
    Header(f.base, f.mergeBase, f.head) + PartsBytes(f.parts)
  }

  // ---------------------------------------------------------------- reading back

  // What comes before the first c, and after it.
  function Cut(s: string, c: char): Option<(string, string)> {
    if s == [] then None
    else if s[0] == c then Some(("", s[1..]))
    else
      var r := Cut(s[1..], c);
      if r.Some? then Some(([s[0]] + r.value.0, r.value.1)) else None
  }

  // A length, a colon, that many bytes and a terminator.
  function ReadCounted(s: string, end: char): (r: Option<(string, string)>)
    ensures r.Some? ==> |r.value.1| < |s|
  {
    var cut := Cut(s, ':');
    if cut.None? || !AllDigits(cut.value.0) then None
    else
      CutShrinks(s, ':');
      var n, rest := Value(cut.value.0), cut.value.1;
      if n < |rest| && rest[n] == end then Some((rest[..n], rest[n + 1..])) else None
  }

  function ReadPart(s: string): (r: Option<(Part, string)>)
    ensures r.Some? ==> |r.value.1| < |s|
  {
    var name := ReadCounted(s, ':');
    if name.None? then None
    else
      var data := ReadCounted(name.value.1, NUL);
      if data.None? then None else Some((Part(name.value.0, data.value.0), data.value.1))
  }

  function ReadParts(s: string): Option<seq<Part>>
    decreases |s|
  {
    if s == [] then Some([])
    else
      var p := ReadPart(s);
      if p.None? then None
      else
        var more := ReadParts(p.value.1);
        if more.None? then None else Some([p.value.0] + more.value)
  }

  function ReadField(tag: string, s: string): Option<(string, string)> {
    if |tag| <= |s| && s[..|tag|] == tag then Cut(s[|tag|..], NUL) else None
  }

  function Read(s: string): Option<Frontier> {
    var v := ReadField("mi-lsp-git-frontier-v1", s);
    if v.None? || v.value.0 != "" then None
    else
      var base := ReadField("base=", v.value.1);
      if base.None? then None
      else
        var mergeBase := ReadField("merge-base=", base.value.1);
        if mergeBase.None? then None
        else
          var head := ReadField("head=", mergeBase.value.1);
          if head.None? then None
          else
            var parts := ReadParts(head.value.1);
            if parts.None? then None
            else Some(Frontier(base.value.0, mergeBase.value.0, head.value.0, parts.value))
  }

  // ---------------------------------------------------------------- round trip

  lemma {:induction false} CutShrinks(s: string, c: char)
    ensures Cut(s, c).Some? ==> |Cut(s, c).value.1| < |s|
  {
    if s != [] { CutShrinks(s[1..], c); }
  }

  lemma {:induction false} CutOf(a: string, c: char, rest: string)
    requires c !in a
    ensures Cut(a + ([c] + rest), c) == Some((a, rest))
  {
    var s := a + ([c] + rest);
    if a == [] {
      assert s[1..] == rest;
    } else {
      assert s[1..] == a[1..] + ([c] + rest);
      CutOf(a[1..], c, rest);
      assert [a[0]] + a[1..] == a;
    }
  }

  lemma CountedTail(s: string, end: char, digits: string, body: string, rest: string)
    requires Cut(s, ':') == Some((digits, body + ([end] + rest)))
    requires AllDigits(digits) && Value(digits) == |body|
    ensures ReadCounted(s, end) == Some((body, rest))
  {
    var tail := body + ([end] + rest);
    assert tail[..|body|] == body && tail[|body|] == end && tail[|body| + 1..] == rest;
  }

  lemma DecHasNoColon(n: nat)
    ensures ':' !in Dec(n)
  {
    ValueOfDec(n);
    assert forall c :: c in Dec(n) ==> IsDigit(c);
  }

  lemma CutDec(n: nat, tail: string)
    ensures Cut(Dec(n) + ":" + tail, ':') == Some((Dec(n), tail))
  {
    var digits := Dec(n);
    DecHasNoColon(n);
    CutOf(digits, ':', tail);
    assert digits + ":" + tail == digits + ([':'] + tail);
  }

  lemma CountedOf(body: string, end: char, rest: string)
    ensures ReadCounted(Dec(|body|) + ":" + (body + ([end] + rest)), end) == Some((body, rest))
  {
    var tail := body + ([end] + rest);
    CutDec(|body|, tail);
    ValueOfDec(|body|);
    CountedTail(Dec(|body|) + ":" + tail, end, Dec(|body|), body, rest);
  }

  lemma Regroup(a: string, n: string, b: string, d: string, rest: string)
    ensures a + ":" + (n + ":" + (b + ":" + (d + [NUL]))) + rest
            == a + ":" + (n + ([':'] + (b + ":" + (d + ([NUL] + rest)))))
  {
  }

  lemma PartOf(p: Part, rest: string)
    ensures ReadPart(PartBytes(p) + rest) == Some((p, rest))
  {
    var data := Dec(|p.data|) + ":" + (p.data + ([NUL] + rest));
    Regroup(Dec(|p.name|), p.name, Dec(|p.data|), p.data, rest);
    CountedOf(p.data, NUL, rest);
    CountedOf(p.name, ':', data);
  }

  lemma {:induction false} PartsOf(parts: seq<Part>)
    ensures ReadParts(PartsBytes(parts)) == Some(parts)
  {
    if parts != [] {
      PartOf(parts[0], PartsBytes(parts[1..]));
      PartsOf(parts[1..]);
      assert [parts[0]] + parts[1..] == parts;
    }
  }

  lemma FieldOf(tag: string, value: string, rest: string)
    requires NUL !in value
    ensures ReadField(tag, Field(tag, value) + rest) == Some((value, rest))
  {
    var s := Field(tag, value) + rest;
    assert s[..|tag|] == tag && s[|tag|..] == value + ([NUL] + rest);
    CutOf(value, NUL, rest);
  }

  // Arguments of a process hold no NUL byte, so neither does any name git accepted.
  ghost predicate Arguments(f: Frontier) {
    NUL !in f.base && NUL !in f.mergeBase && NUL !in f.head
  }

  lemma Nested(v: string, a: string, b: string, c: string, d: string)
    ensures v + a + b + c + d == v + (a + (b + (c + d)))
  {
  }

  lemma HeaderIsNested(base: string, mergeBase: string, head: string, rest: string)
    ensures Header(base, mergeBase, head) + rest ==
            Field("mi-lsp-git-frontier-v1", "")
              + (Field("base=", base) + (Field("merge-base=", mergeBase) + (Field("head=", head) + rest)))
  {
    Nested(Field("mi-lsp-git-frontier-v1", ""), Field("base=", base), Field("merge-base=", mergeBase),
           Field("head=", head), rest);
  }

  /** The hashed bytes can be read back. */
  lemma RoundTrip(f: Frontier)
    requires Arguments(f)
    ensures Read(Bytes(f)) == Some(f)
  {
    var d := PartsBytes(f.parts);
    var c := Field("head=", f.head) + d;
    var b := Field("merge-base=", f.mergeBase) + c;
    var a := Field("base=", f.base) + b;
    HeaderIsNested(f.base, f.mergeBase, f.head, d);
    FieldOf("mi-lsp-git-frontier-v1", "", a);
    FieldOf("base=", f.base, b);
    FieldOf("merge-base=", f.mergeBase, c);
    FieldOf("head=", f.head, d);
    PartsOf(f.parts);
  }

  /** The hashed bytes determine the names, and every part's name and data, in order. */
  lemma BytesDetermine(f: Frontier, g: Frontier)
    requires Arguments(f) && Arguments(g) && Bytes(f) == Bytes(g)
    ensures f == g
  {
    RoundTrip(f);
    RoundTrip(g);
  }

  // ---------------------------------------------------------------- collecting the parts

  // The untracked paths in the order they are hashed; `listed` is git's output split at NUL.
  function Paths(listed: seq<string>, clean: string -> string): seq<string> {
    if listed == [] then []
    else if listed[|listed| - 1] == "" then Paths(listed[..|listed| - 1], clean)
    else Paths(listed[..|listed| - 1], clean) + [clean(listed[|listed| - 1])]
  }

  // The parts of the given paths, or None when some path cannot be read.
  function FileParts(paths: seq<string>, read: string -> Option<string>): Option<seq<Part>> {
    if paths == [] then Some([])
    else
      var before := FileParts(paths[..|paths| - 1], read);
      var last := read(paths[|paths| - 1]);
      if before.None? || last.None? then None
      else Some(before.value + [Part(paths[|paths| - 1], last.value)])
  }

  /** Reading succeeds exactly when every path can be read, and then names each with its own data, in order. */
  lemma {:induction false} FilePartsAre(paths: seq<string>, read: string -> Option<string>)
    ensures FileParts(paths, read).Some? <==> forall i :: 0 <= i < |paths| ==> read(paths[i]).Some?
    ensures FileParts(paths, read).Some? ==>
              var parts := FileParts(paths, read).value;
              && |parts| == |paths|
              && forall i :: 0 <= i < |paths| ==> parts[i].name == paths[i] && Some(parts[i].data) == read(paths[i])
  {
    if paths != [] {
      var before := paths[..|paths| - 1];
      FilePartsAre(before, read);
      assert forall i :: 0 <= i < |before| ==> before[i] == paths[i];
    }
  }

  // How many of the listed paths are not empty.
  function Named(listed: seq<string>): nat {
    if listed == [] then 0 else Named(listed[..|listed| - 1]) + if listed[|listed| - 1] != "" then 1 else 0
  }

  lemma {:induction false} PathsAre(listed: seq<string>, clean: string -> string, x: string)
    ensures x in Paths(listed, clean) <==> exists i :: 0 <= i < |listed| && listed[i] != "" && clean(listed[i]) == x
    ensures |Paths(listed, clean)| == Named(listed)
  {
    if listed != [] {
      var n := |listed| - 1;
      PathsAre(listed[..n], clean, x);
      assert forall i :: 0 <= i < n ==> listed[..n][i] == listed[i];
    }
  }

  /** Every nonempty path that git lists is hashed under its cleaned name with its own contents, nothing else
      is hashed after the two diffs, and each listing counts once. */
  lemma ListedIsHashed(listed: seq<string>, clean: string -> string, read: string -> Option<string>)
    requires FileParts(Sort(Paths(listed, clean)), read).Some?
    ensures var parts := FileParts(Sort(Paths(listed, clean)), read).value;
            && |parts| == Named(listed)
            && (forall i :: 0 <= i < |listed| && listed[i] != "" ==>
                  read(clean(listed[i])).Some? && Part(clean(listed[i]), read(clean(listed[i])).value) in parts)
            && (forall j :: 0 <= j < |parts| ==>
                  exists i :: 0 <= i < |listed| && listed[i] != "" && clean(listed[i]) == parts[j].name)
  {
    var paths := Paths(listed, clean);
    var sorted := Sort(paths);
    FilePartsAre(sorted, read);
    PathsAre(listed, clean, "");
    assert |sorted| == |multiset(sorted)| == |multiset(paths)| == |paths|;
    var parts := FileParts(sorted, read).value;
    forall i | 0 <= i < |listed| && listed[i] != ""
      ensures read(clean(listed[i])).Some? && Part(clean(listed[i]), read(clean(listed[i])).value) in parts
    {
      PathsAre(listed, clean, clean(listed[i]));
      assert clean(listed[i]) in multiset(paths);
      var j :| 0 <= j < |sorted| && sorted[j] == clean(listed[i]);
      assert parts[j] == Part(clean(listed[i]), read(clean(listed[i])).value);
    }
    forall j | 0 <= j < |parts|
      ensures exists i :: 0 <= i < |listed| && listed[i] != "" && clean(listed[i]) == parts[j].name
    {
      assert sorted[j] in multiset(sorted);
      PathsAre(listed, clean, sorted[j]);
    }
  }

  function Diffs(committed: string, working: string): seq<Part> {
    [Part("committed", committed), Part("working", working)]
  }

  function Frame(base: string, mergeBase: string, head: string, committed: string, working: string,
                 listed: seq<string>, clean: string -> string, read: string -> Option<string>): Option<string>
  {
    var files := FileParts(Sort(Paths(listed, clean)), read);
    if files.None? then None
    else Some(Bytes(Frontier(base, mergeBase, head, Diffs(committed, working) + files.value)))
  }

  lemma {:induction false} PartsConcat(a: seq<Part>, b: seq<Part>)
    ensures PartsBytes(a + b) == PartsBytes(a) + PartsBytes(b)
  {
    if a == [] {
      assert a + b == b;
    } else {
      assert (a + b)[1..] == a[1..] + b;
      PartsConcat(a[1..], b);
    }
  }

  lemma {:induction false} PathsConcat(a: seq<string>, b: seq<string>, clean: string -> string)
    ensures Paths(a + b, clean) == Paths(a, clean) + Paths(b, clean)
  {
    if b == [] {
      assert a + b == a;
    } else {
      assert (a + b)[..|a + b| - 1] == a + b[..|b| - 1];
      PathsConcat(a, b[..|b| - 1], clean);
    }
  }

  lemma Middle(x: seq<string>, y: seq<string>, z: seq<string>)
    ensures multiset(x + (y + z)) == multiset(x + z) + multiset(y)
  {
  }

  lemma Cancel(m: multiset<string>, n: multiset<string>, k: multiset<string>)
    requires m + k == n + k
    ensures m == n
  {
    forall x ensures m[x] == n[x] {
      assert (m + k)[x] == (n + k)[x];
    }
  }

  // Taking one listed piece out takes out what it contributes.
  lemma PathsWithout(x: seq<string>, piece: string, z: seq<string>, clean: string -> string)
    ensures multiset(Paths(x + ([piece] + z), clean)) == multiset(Paths(x + z, clean)) + multiset(Paths([piece], clean))
  {
    PathsConcat(x, [piece] + z, clean);
    PathsConcat([piece], z, clean);
    PathsConcat(x, z, clean);
    Middle(Paths(x, clean), Paths([piece], clean), Paths(z, clean));
  }

  lemma {:induction false} PathsIgnoreOrder(a: seq<string>, b: seq<string>, clean: string -> string)
    requires multiset(a) == multiset(b)
    ensures multiset(Paths(a, clean)) == multiset(Paths(b, clean))
    decreases |a|
  {
    if a == [] {
      assert |multiset(b)| == 0;
      assert b == [];
    } else {
      var k := Find(a[0], b);
      var x, z := b[..k], b[k + 1..];
      assert b == x + ([a[0]] + z);
      assert a == [] + ([a[0]] + a[1..]) && [] + a[1..] == a[1..];
      Middle(x, [a[0]], z);
      Middle([], [a[0]], a[1..]);
      Cancel(multiset([] + a[1..]), multiset(x + z), multiset([a[0]]));
      PathsIgnoreOrder(a[1..], x + z, clean);
      PathsWithout(x, a[0], z, clean);
      PathsWithout([], a[0], a[1..], clean);
    }
  }

  lemma Find(v: string, b: seq<string>) returns (k: nat)
    requires v in multiset(b)
    ensures k < |b| && b[k] == v
  {
    k :| 0 <= k < |b| && b[k] == v;
  }

  /** The bytes do not depend on the order in which git lists untracked paths. */
  lemma FrameIgnoresListingOrder(base: string, mergeBase: string, head: string, committed: string, working: string,
                                 a: seq<string>, b: seq<string>, clean: string -> string,
                                 read: string -> Option<string>)
    requires multiset(a) == multiset(b)
    ensures Frame(base, mergeBase, head, committed, working, a, clean, read)
            == Frame(base, mergeBase, head, committed, working, b, clean, read)
  {
    PathsIgnoreOrder(a, b, clean);
    SortIgnoresOrder(Paths(a, clean), Paths(b, clean));
  }

  /** What is hashed can be read back: each name under its own label, the two diffs, and then the files. */
  lemma FrameReadsBack(base: string, mergeBase: string, head: string, committed: string, working: string,
                       listed: seq<string>, clean: string -> string, read: string -> Option<string>)
    requires NUL !in base && NUL !in mergeBase && NUL !in head
    ensures var frame := Frame(base, mergeBase, head, committed, working, listed, clean, read);
            && (frame.Some? <==> forall i :: 0 <= i < |listed| && listed[i] != "" ==> read(clean(listed[i])).Some?)
            && (frame.Some? ==>
                  && Read(frame.value).Some?
                  && var f := Read(frame.value).value;
                     && f.base == base && f.mergeBase == mergeBase && f.head == head && |f.parts| == 2 + Named(listed)
                     && f.parts[0] == Part("committed", committed) && f.parts[1] == Part("working", working)
                     && FileParts(Sort(Paths(listed, clean)), read) == Some(f.parts[2..]))
  {
    var paths := Sort(Paths(listed, clean));
    FramedWhenReadable(listed, clean, read);
    if FileParts(paths, read).Some? {
      var files := FileParts(paths, read).value;
      ListedIsHashed(listed, clean, read);
      FramedReadsBack(base, mergeBase, head, committed, working, files);
      assert Frame(base, mergeBase, head, committed, working, listed, clean, read)
             == Some(Bytes(Frontier(base, mergeBase, head, Diffs(committed, working) + files)));
    }
  }

  lemma FramedWhenReadable(listed: seq<string>, clean: string -> string, read: string -> Option<string>)
    ensures FileParts(Sort(Paths(listed, clean)), read).Some? <==>
            forall i :: 0 <= i < |listed| && listed[i] != "" ==> read(clean(listed[i])).Some?
  {
    FilePartsAre(Sort(Paths(listed, clean)), read);
    ReadableIff(listed, clean, read);
  }

  lemma FramedReadsBack(base: string, mergeBase: string, head: string, committed: string, working: string,
                        files: seq<Part>)
    requires NUL !in base && NUL !in mergeBase && NUL !in head
    ensures var r := Read(Bytes(Frontier(base, mergeBase, head, Diffs(committed, working) + files)));
            && r.Some? && r.value.base == base && r.value.mergeBase == mergeBase && r.value.head == head
            && |r.value.parts| == 2 + |files| && r.value.parts[2..] == files
            && r.value.parts[0] == Part("committed", committed) && r.value.parts[1] == Part("working", working)
  {
    RoundTrip(Frontier(base, mergeBase, head, Diffs(committed, working) + files));
  }

  lemma SortedHas(listed: seq<string>, clean: string -> string, x: string)
    ensures x in Sort(Paths(listed, clean)) <==>
            exists i :: 0 <= i < |listed| && listed[i] != "" && clean(listed[i]) == x
  {
    PathsAre(listed, clean, x);
    var paths := Paths(listed, clean);
    assert x in Sort(paths) <==> x in multiset(Sort(paths));
    assert x in paths <==> x in multiset(paths);
  }

  lemma ReadableIff(listed: seq<string>, clean: string -> string, read: string -> Option<string>)
    ensures var paths := Sort(Paths(listed, clean));
            (forall i :: 0 <= i < |paths| ==> read(paths[i]).Some?) <==>
            forall i :: 0 <= i < |listed| && listed[i] != "" ==> read(clean(listed[i])).Some?
  {
    var paths := Sort(Paths(listed, clean));
    if forall i :: 0 <= i < |paths| ==> read(paths[i]).Some? {
      forall i | 0 <= i < |listed| && listed[i] != "" ensures read(clean(listed[i])).Some? {
        SortedHas(listed, clean, clean(listed[i]));
        var j :| 0 <= j < |paths| && paths[j] == clean(listed[i]);
      }
    }
    if forall i :: 0 <= i < |listed| && listed[i] != "" ==> read(clean(listed[i])).Some? {
      forall j | 0 <= j < |paths| ensures read(paths[j]).Some? {
        SortedHas(listed, clean, paths[j]);
        var i :| 0 <= i < |listed| && listed[i] != "" && clean(listed[i]) == paths[j];
      }
    }
  }

  /** Equal bytes mean equal names, equal diffs, and the same untracked paths with the same contents. */
  lemma FrameDetermines(base: string, mergeBase: string, head: string, committed: string, working: string,
                        listed: seq<string>, read: string -> Option<string>,
                        base': string, mergeBase': string, head': string, committed': string, working': string,
                        listed': seq<string>, read': string -> Option<string>,
                        clean: string -> string)
    requires NUL !in base && NUL !in mergeBase && NUL !in head && NUL !in base' && NUL !in mergeBase' && NUL !in head'
    requires Frame(base, mergeBase, head, committed, working, listed, clean, read).Some?
    requires Frame(base, mergeBase, head, committed, working, listed, clean, read)
             == Frame(base', mergeBase', head', committed', working', listed', clean, read')
    ensures base == base' && mergeBase == mergeBase' && head == head' && committed == committed' && working == working'
    ensures Sort(Paths(listed, clean)) == Sort(Paths(listed', clean))
    ensures forall p :: p in Paths(listed, clean) ==> read(p).Some? && read(p) == read'(p)
  {
    var paths, paths' := Sort(Paths(listed, clean)), Sort(Paths(listed', clean));
    FilePartsAre(paths, read);
    FilePartsAre(paths', read');
    var fixed, fixed' := Diffs(committed, working), Diffs(committed', working');
    var files, files' := FileParts(paths, read).value, FileParts(paths', read').value;
    BytesDetermine(Frontier(base, mergeBase, head, fixed + files), Frontier(base', mergeBase', head', fixed' + files'));
    assert (fixed + files)[0] == (fixed' + files')[0] && (fixed + files)[1] == (fixed' + files')[1];
    assert (fixed + files)[2..] == files && (fixed' + files')[2..] == files';
    assert paths == paths';
    forall p | p in Paths(listed, clean) ensures read(p).Some? && read(p) == read'(p) {
      assert p in multiset(Paths(listed, clean)) && p in multiset(paths);
      var i :| 0 <= i < |paths| && paths[i] == p;
      assert files[i] == files'[i];
    }
  }

  // ---------------------------------------------------------------- the hash writer

  // The bytes written to the hash so far.
  class Writer {
    var written: string

    constructor ()
      ensures written == ""
    {
      written := "";
    }

    method Write(data: string)
      modifies this
      ensures written == old(written) + data
    {
      written := written + data;
    }

    method WriteDigestPart(name: string, data: string)
      modifies this
      ensures written == old(written) + PartBytes(Part(name, data))
    {
      Write(Dec(|name|) + ":" + name + ":" + Dec(|data|) + ":");
      Write(data);
      Write([NUL]);
      var d := Dec(|data|);
      assert Dec(|name|) + ":" + name + ":" + d + ":" + data + [NUL] == PartBytes(Part(name, data));
    }
  }

  method CollectPaths(listed: seq<string>, clean: string -> string) returns (paths: seq<string>)
    ensures paths == Sort(Paths(listed, clean))
  {
    paths := [];
    for i := 0 to |listed|
      invariant paths == Paths(listed[..i], clean)
    {
      assert listed[..i + 1][..i] == listed[..i];
      if listed[i] != "" {
        paths := paths + [clean(listed[i])];
      }
    }
    assert listed[..|listed|] == listed;
    paths := Sort(paths);
  }

  method WriteDiffs(hash: Writer, committed: string, working: string)
    modifies hash
    ensures hash.written == old(hash.written) + PartsBytes(Diffs(committed, working))
  {
    hash.WriteDigestPart("committed", committed);
    hash.WriteDigestPart("working", working);
    TwoParts(old(hash.written), Part("committed", committed), Part("working", working));
  }

  lemma TwoParts(h: string, c: Part, w: Part)
    ensures h + PartBytes(c) + PartBytes(w) == h + PartsBytes([c, w])
  {
    assert [c, w][1..] == [w] && [w][1..] == [];
    assert PartsBytes([w]) == PartBytes(w) + "" == PartBytes(w);
  }

  method WriteFiles(hash: Writer, paths: seq<string>, read: string -> Option<string>) returns (ok: bool)
    modifies hash
    ensures ok == FileParts(paths, read).Some?
    ensures ok ==> hash.written == old(hash.written) + PartsBytes(FileParts(paths, read).value)
  {
    for i := 0 to |paths|
      invariant FileParts(paths[..i], read).Some?
      invariant hash.written == old(hash.written) + PartsBytes(FileParts(paths[..i], read).value)
    {
      var data := read(paths[i]);
      if data.None? {
        FilePartsAre(paths, read);
        return false;
      }
      hash.WriteDigestPart(paths[i], data.value);
      OneMoreFile(old(hash.written), paths, i, read);
    }
    assert paths[..|paths|] == paths;
    return true;
  }

  lemma OneMoreFile(h: string, paths: seq<string>, i: nat, read: string -> Option<string>)
    requires i < |paths| && FileParts(paths[..i], read).Some? && read(paths[i]).Some?
    ensures FileParts(paths[..i + 1], read).Some?
    ensures h + PartsBytes(FileParts(paths[..i + 1], read).value) ==
            h + PartsBytes(FileParts(paths[..i], read).value) + PartBytes(Part(paths[i], read(paths[i]).value))
  {
    assert paths[..i + 1][..i] == paths[..i];
    OneMorePart(h, FileParts(paths[..i], read).value, Part(paths[i], read(paths[i]).value));
  }

  lemma OneMorePart(h: string, parts: seq<Part>, p: Part)
    ensures h + PartsBytes(parts + [p]) == h + PartsBytes(parts) + PartBytes(p)
  {
    PartsConcat(parts, [p]);
    assert [p][1..] == [] && PartsBytes([p]) == PartBytes(p) + "" == PartBytes(p);
    assert h + (PartsBytes(parts) + PartBytes(p)) == h + PartsBytes(parts) + PartBytes(p);
  }

  method CalculateGitFrontier(base: string, mergeBase: string, head: string, committed: string, working: string,
                              listed: seq<string>, clean: string -> string, read: string -> Option<string>)
    returns (r: Option<string>)
    ensures r == Frame(base, mergeBase, head, committed, working, listed, clean, read)
  {
    var paths := CollectPaths(listed, clean);
    var hash := new Writer();
    hash.Write(Header(base, mergeBase, head));
    ghost var h := hash.written;
    assert h == Header(base, mergeBase, head);
    WriteDiffs(hash, committed, working);
    var ok := WriteFiles(hash, paths, read);
    if !ok {
      return None;
    }
    HeaderThenParts(h, Diffs(committed, working), FileParts(paths, read).value);
    r := Some(hash.written);
  }

  lemma HeaderThenParts(h: string, fixed: seq<Part>, files: seq<Part>)
    ensures h + PartsBytes(fixed + files) == h + PartsBytes(fixed) + PartsBytes(files)
  {
    PartsConcat(fixed, files);
    assert h + (PartsBytes(fixed) + PartsBytes(files)) == h + PartsBytes(fixed) + PartsBytes(files);
  }
}
