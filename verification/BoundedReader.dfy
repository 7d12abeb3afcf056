/** The bounded transcript reader: chunks of a file are cut into lines under a
    per-line limit and a total budget. A line is dropped when a chunk ends inside
    it with more than the limit already buffered; everything else comes through. */
module BoundedReader {
  import opened Collections
  import Lines

  newtype Byte = b: int | 0 <= b < 256

  const NEWLINE: Byte := 10
  const MAX_LINE_BYTES := 1048576
  const MAX_TOTAL_BYTES := 67108864
  const READ_CHUNK_BYTES := 65536

  /** A line and whether the reader gives it up. */
  datatype Tagged = Tagged(line: seq<Byte>, dropped: bool)

  /** Closed lines and the line still unfinished. */
  datatype Scan = Scan(closed: seq<Tagged>, open: Tagged)

  function Whole(line: seq<Byte>): Tagged { Tagged(line, false) }
  function LineOf(t: Tagged): seq<Byte> { t.line }
  predicate IsKept(t: Tagged) { !t.dropped }

  /** One chunk: the open line goes on with its fate, later lines start afresh, and
      the line left unfinished is given up once it exceeds the limit. */
  function AfterChunk(s: Scan, chunk: seq<Byte>): Scan {
    var pieces := Lines.Split(s.open.line + chunk, NEWLINE);
    var last := pieces[|pieces| - 1];
    if |pieces| == 1 then s.(open := Tagged(last, s.open.dropped || |last| > MAX_LINE_BYTES))
    else
      Scan(s.closed + [Tagged(pieces[0], s.open.dropped)] + Map(pieces[1..|pieces| - 1], Whole),
           Tagged(last, |last| > MAX_LINE_BYTES))
  }

  function ScanOf(chunks: seq<seq<Byte>>): Scan {
    if chunks == [] then Scan([], Tagged([], false))
    else AfterChunk(ScanOf(chunks[..|chunks| - 1]), chunks[|chunks| - 1])
  }

  function Content(chunks: seq<seq<Byte>>): seq<Byte> {
    if chunks == [] then [] else Content(chunks[..|chunks| - 1]) + chunks[|chunks| - 1]
  }

  function Kept(tags: seq<Tagged>): seq<seq<Byte>> {
    Map(Filter(tags, IsKept), LineOf)
  }

  /** The file's lines, the last one only if something follows the last newline. */
  function AllTags(s: Scan): seq<Tagged> {
    s.closed + if s.open.line == [] then [] else [s.open]
  }

  function IdealLines(file: seq<Byte>): seq<seq<Byte>> {
    Lines.Complete(file, NEWLINE) + if Lines.Tail(file, NEWLINE) == [] then [] else [Lines.Tail(file, NEWLINE)]
  }

  predicate AnyDropped(tags: seq<Tagged>) {
    exists t :: t in tags && t.dropped
  }

  // ------------------------------------------------------------ refinement

  lemma {:induction false} MapAppend<S, T>(a: seq<S>, b: seq<S>, f: S -> T)
    ensures Map(a + b, f) == Map(a, f) + Map(b, f)
  {
  }

  lemma {:induction false} ScanStep(s: Scan, chunk: seq<Byte>)
    ensures Map(AfterChunk(s, chunk).closed, LineOf) == Map(s.closed, LineOf) + Lines.Complete(s.open.line + chunk, NEWLINE)
    ensures AfterChunk(s, chunk).open.line == Lines.Tail(s.open.line + chunk, NEWLINE)
  {
    var pieces := Lines.Split(s.open.line + chunk, NEWLINE);
    if |pieces| > 1 {
      var mid := pieces[1..|pieces| - 1];
      var first := Tagged(pieces[0], s.open.dropped);
      MapAppend(s.closed + [first], Map(mid, Whole), LineOf);
      MapAppend(s.closed, [first], LineOf);
      assert Map(Map(mid, Whole), LineOf) == mid;
      assert pieces[..|pieces| - 1] == [pieces[0]] + mid;
    }
  }

  /** The tagged lines are the file's lines. */
  lemma {:induction false} ScanLines(chunks: seq<seq<Byte>>)
    ensures Map(ScanOf(chunks).closed, LineOf) == Lines.Complete(Content(chunks), NEWLINE)
    ensures ScanOf(chunks).open.line == Lines.Tail(Content(chunks), NEWLINE)
  {
    if chunks != [] {
      var less, chunk := chunks[..|chunks| - 1], chunks[|chunks| - 1];
      ScanLines(less);
      ScanStep(ScanOf(less), chunk);
      Lines.SplitGrow(Content(less), chunk, NEWLINE);
    }
  }

  /** A line's fate is settled by its length up to one chunk. */
  ghost predicate Bounded(t: Tagged) {
    if t.dropped then |t.line| > MAX_LINE_BYTES else |t.line| <= MAX_LINE_BYTES + READ_CHUNK_BYTES
  }

  ghost predicate ChunkSized(chunks: seq<seq<Byte>>) {
    forall c :: c in chunks ==> 0 < |c| <= READ_CHUNK_BYTES
  }

  lemma {:induction false} PieceShorter(s: seq<Byte>, i: nat)
    requires i < |Lines.Split(s, NEWLINE)|
    ensures |Lines.Split(s, NEWLINE)[i]| <= |s|
  {
    if s != [] {
      var front := Lines.Split(s[..|s| - 1], NEWLINE);
      if i < |front| {
        PieceShorter(s[..|s| - 1], i);
      }
    }
  }

  lemma {:induction false} ChunkPieces(open: seq<Byte>, chunk: seq<Byte>)
    requires NEWLINE !in open
    ensures var pieces, own := Lines.Split(open + chunk, NEWLINE), Lines.Split(chunk, NEWLINE);
            && |pieces| == |own|
            && pieces[0] == open + own[0]
            && (forall i :: 1 <= i < |own| ==> pieces[i] == own[i])
            && (forall i :: 0 <= i < |own| ==> |own[i]| <= |chunk|)
  {
    Lines.SplitPrefix(open, chunk, NEWLINE);
    forall i | 0 <= i < |Lines.Split(chunk, NEWLINE)| ensures |Lines.Split(chunk, NEWLINE)[i]| <= |chunk| {
      PieceShorter(chunk, i);
    }
  }

  /** The same chunk seen as a step on bounded lines. */
  lemma {:induction false} ChunkBounded(s: Scan, chunk: seq<Byte>)
    requires |chunk| <= READ_CHUNK_BYTES && NEWLINE !in s.open.line
    requires s.open.dropped <==> |s.open.line| > MAX_LINE_BYTES
    requires forall t :: t in s.closed ==> Bounded(t)
    ensures var after := AfterChunk(s, chunk);
            && (forall t :: t in after.closed ==> Bounded(t))
            && (after.open.dropped <==> |after.open.line| > MAX_LINE_BYTES)
  {
    var pieces := Lines.Split(s.open.line + chunk, NEWLINE);
    ChunkPieces(s.open.line, chunk);
    if |pieces| > 1 {
      var mid := pieces[1..|pieces| - 1];
      forall t | t in Map(mid, Whole) ensures Bounded(t) {
        var k :| 0 <= k < |mid| && Map(mid, Whole)[k] == t;
        assert mid[k] == pieces[k + 1];
      }
    } else {
      assert Lines.Split(chunk, NEWLINE) == [chunk] by {
        Lines.SplitJoin(chunk, NEWLINE);
      }
    }
  }

  lemma {:induction false} ScanBounded(chunks: seq<seq<Byte>>)
    requires ChunkSized(chunks)
    ensures var s := ScanOf(chunks);
            && (forall t :: t in s.closed ==> Bounded(t))
            && (s.open.dropped <==> |s.open.line| > MAX_LINE_BYTES)
            && NEWLINE !in s.open.line
  {
    if chunks != [] {
      var less, chunk := chunks[..|chunks| - 1], chunks[|chunks| - 1];
      assert chunk in chunks;
      ScanBounded(less);
      var s := ScanOf(less);
      ChunkBounded(s, chunk);
      Lines.SplitJoin(s.open.line + chunk, NEWLINE);
    }
  }

  /** Non-empty lines within the limit. */
  predicate Short(line: seq<Byte>) { 0 < |line| <= MAX_LINE_BYTES }
  predicate ShortTag(t: Tagged) { Short(t.line) }

  lemma {:induction false} FilterMap(tags: seq<Tagged>)
    ensures Filter(Map(tags, LineOf), Short) == Map(Filter(tags, ShortTag), LineOf)
  {
    if tags != [] {
      var n := |tags| - 1;
      FilterMap(tags[..n]);
      assert Map(tags, LineOf)[..n] == Map(tags[..n], LineOf);
      MapAppend(Filter(tags[..n], ShortTag), [tags[n]], LineOf);
    }
  }

  lemma {:induction false} ShortSurvive(tags: seq<Tagged>)
    requires forall t :: t in tags && t.dropped ==> |t.line| > MAX_LINE_BYTES
    ensures Filter(Filter(tags, IsKept), ShortTag) == Filter(tags, ShortTag)
  {
    if tags != [] {
      var n := |tags| - 1;
      ShortSurvive(tags[..n]);
      var front := Filter(tags[..n], IsKept);
      assert tags[n] in tags;
      if IsKept(tags[n]) {
        assert (front + [tags[n]])[..|front|] == front;
      }
    }
  }

  lemma {:induction false} KeptSubsequence(tags: seq<Tagged>)
    ensures Subsequence(Kept(tags), Map(tags, LineOf))
  {
    if tags != [] {
      var n := |tags| - 1;
      KeptSubsequence(tags[..n]);
      assert Map(tags, LineOf)[..n] == Map(tags[..n], LineOf);
      var front := Kept(tags[..n]);
      if IsKept(tags[n]) {
        MapAppend(Filter(tags[..n], IsKept), [tags[n]], LineOf);
        assert Kept(tags) == front + [tags[n].line];
        assert (front + [tags[n].line])[..|front|] == front;
      } else if front != [] && front[|front| - 1] == tags[n].line {
        SubsequenceShorter(front, Map(tags[..n], LineOf));
      }
    }
  }

  lemma {:induction false} KeptAll(tags: seq<Tagged>)
    ensures !AnyDropped(tags) ==> Kept(tags) == Map(tags, LineOf)
    ensures AnyDropped(tags) ==> |Kept(tags)| < |tags|
  {
    if !AnyDropped(tags) {
      FilterAll(tags, IsKept);
    } else {
      DropShortens(tags);
    }
  }

  lemma {:induction false} DropShortens(tags: seq<Tagged>)
    requires AnyDropped(tags)
    ensures |Filter(tags, IsKept)| < |tags|
  {
    var n := |tags| - 1;
    var t :| t in tags && t.dropped;
    if t in tags[..n] {
      DropShortens(tags[..n]);
    } else {
      assert tags[n] == t;
    }
  }

  /** What the reader yields for a file within the budget. */
  function Output(chunks: seq<seq<Byte>>): seq<seq<Byte>> {
    Kept(AllTags(ScanOf(chunks)))
  }

  lemma {:induction false} TagsAre(chunks: seq<seq<Byte>>)
    requires ChunkSized(chunks)
    ensures var tags := AllTags(ScanOf(chunks));
            && Map(tags, LineOf) == IdealLines(Content(chunks))
            && forall t :: t in tags ==> Bounded(t)
  {
    var s := ScanOf(chunks);
    ScanLines(chunks);
    ScanBounded(chunks);
    MapAppend(s.closed, if s.open.line == [] then [] else [s.open], LineOf);
  }

  lemma {:induction false} KeptBounded(tags: seq<Tagged>)
    requires forall t :: t in tags ==> Bounded(t)
    ensures forall line :: line in Kept(tags) ==> |line| <= MAX_LINE_BYTES + READ_CHUNK_BYTES
  {
    FilterMembers(tags, IsKept);
    var kept := Filter(tags, IsKept);
    forall line | line in Kept(tags) ensures |line| <= MAX_LINE_BYTES + READ_CHUNK_BYTES {
      var k :| 0 <= k < |kept| && kept[k].line == line;
      assert kept[k] in kept;
    }
  }

  lemma {:induction false} KeptShort(tags: seq<Tagged>)
    requires forall t :: t in tags ==> Bounded(t)
    ensures Filter(Kept(tags), Short) == Filter(Map(tags, LineOf), Short)
  {
    ShortSurvive(tags);
    FilterMap(tags);
    FilterMap(Filter(tags, IsKept));
  }

  /** Within the budget, and whatever the chunk sizes: the yielded lines are a
      subsequence of the file's lines, hold every short line as often and in the
      same order as the file, none exceeds the limit by more than a chunk, and
      they fall short of the file's lines exactly when a line was dropped. */
  lemma {:induction false} OutputRefines(chunks: seq<seq<Byte>>)
    requires ChunkSized(chunks)
    ensures var file, out := Content(chunks), Output(chunks);
            && Subsequence(out, IdealLines(file))
            && Filter(out, Short) == Filter(IdealLines(file), Short)
            && (forall line :: line in out ==> |line| <= MAX_LINE_BYTES + READ_CHUNK_BYTES)
            && (AnyDropped(AllTags(ScanOf(chunks))) <==> out != IdealLines(file))
  {
    var tags := AllTags(ScanOf(chunks));
    TagsAre(chunks);
    KeptSubsequence(tags);
    KeptShort(tags);
    KeptBounded(tags);
    KeptAll(tags);
  }

  // ------------------------------------------------------------ the reader

  /** Complete lines among the pieces of a buffer: while skipping, the first piece
      ends a line that was given up. */
  ghost function OwedOf(pieces: seq<seq<Byte>>, skipping: bool): seq<seq<Byte>>
    requires pieces != []
  {
    if skipping && |pieces| > 1 then pieces[1..|pieces| - 1] else pieces[..|pieces| - 1]
  }

  lemma {:induction false} OwedStep(line: seq<Byte>, pieces: seq<seq<Byte>>, skipping: bool)
    requires pieces != []
    ensures OwedOf([line] + pieces, skipping) == (if skipping then [] else [line]) + OwedOf(pieces, false)
  {
    assert ([line] + pieces)[..|pieces|] == [line] + pieces[..|pieces| - 1];
    assert ([line] + pieces)[1..|pieces|] == pieces[..|pieces| - 1];
  }

  /** Takes the first complete line, if there is one, out of the buffer. */
  method TakeLine(buffer: seq<Byte>) returns (found: bool, line: seq<Byte>, rest: seq<Byte>)
    ensures found ==> Lines.Split(buffer, NEWLINE) == [line] + Lines.Split(rest, NEWLINE) && |rest| < |buffer|
    ensures !found ==> Lines.Split(buffer, NEWLINE) == [buffer] && rest == buffer
  {
    var index := Lines.IndexOf(buffer, NEWLINE);
    if index == |buffer| {
      assert buffer[..index] == buffer;
      Lines.SplitSingle(buffer, NEWLINE);
      return false, [], buffer;
    }
    line, rest := buffer[..index], buffer[index + 1..];
    assert buffer == line + [NEWLINE] + rest;
    Lines.SplitFirst(line, rest, NEWLINE);
    return true, line, rest;
  }

  /** Some of the lines of a buffer have been taken; `pieces` are left. */
  ghost predicate Taken(all: seq<seq<Byte>>, skipping: bool, lines: seq<seq<Byte>>, pieces: seq<seq<Byte>>, still: bool) {
    && all != [] && pieces != [] && pieces[|pieces| - 1] == all[|all| - 1] && |pieces| <= |all|
    && lines + OwedOf(pieces, still) == OwedOf(all, skipping)
    && (still <==> skipping && |pieces| == |all|)
  }

  lemma {:induction false} NothingTaken(all: seq<seq<Byte>>, skipping: bool)
    requires all != []
    ensures Taken(all, skipping, [], all, skipping)
  {
  }

  lemma {:induction false} OneTaken(all: seq<seq<Byte>>, skipping: bool, lines: seq<seq<Byte>>, line: seq<Byte>, left: seq<seq<Byte>>, still: bool)
    requires left != [] && Taken(all, skipping, lines, [line] + left, still)
    ensures Taken(all, skipping, if still then lines else lines + [line], left, false)
  {
    OwedStep(line, left, still);
    assert ([line] + left)[|left|] == left[|left| - 1];
    if !still {
      assert lines + ([line] + OwedOf(left, false)) == lines + [line] + OwedOf(left, false);
    }
  }

  lemma {:induction false} AllTaken(all: seq<seq<Byte>>, skipping: bool, lines: seq<seq<Byte>>, rest: seq<Byte>, still: bool)
    requires Taken(all, skipping, lines, [rest], still)
    ensures lines == OwedOf(all, skipping) && rest == all[|all| - 1] && (still <==> skipping && |all| == 1)
  {
    assert OwedOf([rest], still) == [];
  }

  /** Takes every complete line out of the buffer. */
  method TakeLines(buffer: seq<Byte>, skipping: bool) returns (lines: seq<seq<Byte>>, rest: seq<Byte>, still: bool)
    ensures lines == OwedOf(Lines.Split(buffer, NEWLINE), skipping)
    ensures rest == Lines.Tail(buffer, NEWLINE)
    ensures still == (skipping && |Lines.Split(buffer, NEWLINE)| == 1)
  {
    lines, rest, still := [], buffer, skipping;
    ghost var all := Lines.Split(buffer, NEWLINE);
    NothingTaken(all, skipping);
    var more, line, after := TakeLine(rest);
    while more
      invariant Taken(all, skipping, lines, Lines.Split(rest, NEWLINE), still)
      invariant if more then Lines.Split(rest, NEWLINE) == [line] + Lines.Split(after, NEWLINE) && |after| < |rest|
                else Lines.Split(rest, NEWLINE) == [rest]
      decreases |rest|
    {
      OneTaken(all, skipping, lines, line, Lines.Split(after, NEWLINE), still);
      if !still {
        lines := lines + [line];
      }
      rest, still := after, false;
      more, line, after := TakeLine(rest);
    }
    AllTaken(all, skipping, lines, rest, still);
  }

  lemma {:induction false} WholeKept(lines: seq<seq<Byte>>)
    ensures Kept(Map(lines, Whole)) == lines
  {
    FilterAll(Map(lines, Whole), IsKept);
  }

  lemma {:induction false} KeptConcat(a: seq<Tagged>, b: seq<Tagged>)
    ensures Kept(a + b) == Kept(a) + Kept(b)
  {
    FilterConcat(a, b, IsKept);
    MapAppend(Filter(a, IsKept), Filter(b, IsKept), LineOf);
  }

  lemma {:induction false} KeptOne(t: Tagged)
    ensures Kept([t]) == if t.dropped then [] else [t.line]
  {
    assert [t][..0] == [];
  }

  /** Buffer and skipping flag, as the reader holds them between chunks. */
  ghost predicate Buffers(s: Scan, buffer: seq<Byte>, skipping: bool) {
    skipping == s.open.dropped && buffer == if skipping then [] else s.open.line
  }

  lemma {:induction false} KeptThree(a: seq<Tagged>, b: seq<Tagged>, c: seq<Tagged>)
    ensures Kept(a + b + c) == Kept(a) + (Kept(b) + Kept(c))
  {
    KeptConcat(a + b, c);
    KeptConcat(a, b);
    assert Kept(a) + Kept(b) + Kept(c) == Kept(a) + (Kept(b) + Kept(c));
  }

  lemma {:induction false} OwedPieces(pieces: seq<seq<Byte>>, dropped: bool)
    requires |pieces| > 1
    ensures OwedOf(pieces, dropped) == Kept([Tagged(pieces[0], dropped)]) + Kept(Map(pieces[1..|pieces| - 1], Whole))
  {
    KeptOne(Tagged(pieces[0], dropped));
    WholeKept(pieces[1..|pieces| - 1]);
    assert pieces[..|pieces| - 1] == [pieces[0]] + pieces[1..|pieces| - 1];
  }

  lemma {:induction false} ClosedPieces(closed: seq<Tagged>, dropped: bool, pieces: seq<seq<Byte>>)
    requires |pieces| > 1
    ensures Kept(closed + [Tagged(pieces[0], dropped)] + Map(pieces[1..|pieces| - 1], Whole)) ==
            Kept(closed) + OwedOf(pieces, dropped)
  {
    OwedPieces(pieces, dropped);
    KeptThree(closed, [Tagged(pieces[0], dropped)], Map(pieces[1..|pieces| - 1], Whole));
  }

  lemma {:induction false} ClosedStep(s: Scan, chunk: seq<Byte>)
    ensures Kept(AfterChunk(s, chunk).closed) ==
            Kept(s.closed) + OwedOf(Lines.Split(s.open.line + chunk, NEWLINE), s.open.dropped)
  {
    var pieces := Lines.Split(s.open.line + chunk, NEWLINE);
    if |pieces| > 1 {
      ClosedPieces(s.closed, s.open.dropped, pieces);
    }
  }

  lemma {:induction false} SamePieces(pieces: seq<seq<Byte>>, own: seq<seq<Byte>>)
    requires pieces != [] && |pieces| == |own| && forall i :: 1 <= i < |own| ==> pieces[i] == own[i]
    ensures OwedOf(pieces, true) == OwedOf(own, true)
    ensures |own| > 1 ==> pieces[|own| - 1] == own[|own| - 1]
  {
    if |own| > 1 {
      assert pieces[1..|own| - 1] == own[1..|own| - 1];
    }
  }

  /** While skipping, the pieces of the chunk alone decide as much as those of the
      whole line would. */
  lemma {:induction false} SkippedPieces(open: seq<Byte>, chunk: seq<Byte>)
    requires NEWLINE !in open
    ensures var pieces, own := Lines.Split(open + chunk, NEWLINE), Lines.Split(chunk, NEWLINE);
            && |pieces| == |own|
            && OwedOf(pieces, true) == OwedOf(own, true)
            && (|own| > 1 ==> pieces[|own| - 1] == own[|own| - 1])
  {
    ChunkPieces(open, chunk);
    SamePieces(Lines.Split(open + chunk, NEWLINE), Lines.Split(chunk, NEWLINE));
  }

  /** The buffer and the skipping flag carry exactly what the next chunk needs. */
  lemma {:induction false} ChunkStep(s: Scan, chunk: seq<Byte>, buffer: seq<Byte>, skipping: bool)
    requires NEWLINE !in s.open.line && Buffers(s, buffer, skipping)
    ensures var after := AfterChunk(s, chunk);
            var pieces := Lines.Split(buffer + chunk, NEWLINE);
            var tail := pieces[|pieces| - 1];
            && Kept(after.closed) == Kept(s.closed) + OwedOf(pieces, skipping)
            && after.open.dropped == ((skipping && |pieces| == 1) || |tail| > MAX_LINE_BYTES)
            && (!after.open.dropped ==> after.open.line == tail)
  {
    ClosedStep(s, chunk);
    if skipping {
      assert [] + chunk == chunk;
      SkippedPieces(s.open.line, chunk);
    }
  }

  predicate OverBudget(chunks: seq<seq<Byte>>) {
    |Content(chunks)| > MAX_TOTAL_BYTES
  }

  /** What the reader holds after the reads so far. */
  ghost predicate Holds(chunks: seq<seq<Byte>>, lines: seq<seq<Byte>>, buffer: seq<Byte>, skipping: bool, dropped: bool) {
    var s := ScanOf(chunks);
    && Buffers(s, buffer, skipping) && |buffer| <= MAX_LINE_BYTES
    && lines == Kept(s.closed)
    && dropped == AnyDropped(AllTags(s))
  }

  /** What the reader holds once it has taken the lines `out` of a chunk and checked the
      limit on the rest. */
  lemma {:induction false} ChunkHolds(before: seq<seq<Byte>>, chunk: seq<Byte>, lines: seq<seq<Byte>>, buffer: seq<Byte>, skipping: bool, dropped: bool,
                                      out: seq<seq<Byte>>, rest: seq<Byte>, still: bool)
    requires ChunkSized(before) && Holds(before, lines, buffer, skipping, dropped)
    requires out == OwedOf(Lines.Split(buffer + chunk, NEWLINE), skipping) && rest == Lines.Tail(buffer + chunk, NEWLINE)
    requires still == (skipping && |Lines.Split(buffer + chunk, NEWLINE)| == 1)
    ensures var over := still || |rest| > MAX_LINE_BYTES;
            Holds(before + [chunk], lines + out, if over then [] else rest, over, dropped || over)
  {
    var s := ScanOf(before);
    assert (before + [chunk])[..|before|] == before;
    ScanBounded(before);
    ChunkStep(s, chunk, buffer, skipping);
    ChunkDrops(s, chunk);
  }

  lemma {:induction false} ChunkDrops(s: Scan, chunk: seq<Byte>)
    requires NEWLINE !in s.open.line && (s.open.dropped <==> |s.open.line| > MAX_LINE_BYTES)
    ensures AnyDropped(AllTags(AfterChunk(s, chunk))) == (AnyDropped(AllTags(s)) || AfterChunk(s, chunk).open.dropped)
    ensures s.open.dropped ==> AnyDropped(AllTags(s))
  {
    DroppedStep(s, chunk);
    if s.open.dropped {
      assert s.open in AllTags(s);
    }
  }

  /** One chunk: whole lines out, and the limit checked on what is left. */
  method ReadChunk(ghost before: seq<seq<Byte>>, chunk: seq<Byte>, lines: seq<seq<Byte>>, buffer: seq<Byte>, skipping: bool, dropped: bool)
    returns (lines': seq<seq<Byte>>, buffer': seq<Byte>, skipping': bool, dropped': bool)
    requires ChunkSized(before) && 0 < |chunk| <= READ_CHUNK_BYTES
    requires Holds(before, lines, buffer, skipping, dropped)
    ensures Holds(before + [chunk], lines', buffer', skipping', dropped')
  {
    var out;
    out, buffer', skipping' := TakeLines(buffer + chunk, skipping);
    ChunkHolds(before, chunk, lines, buffer, skipping, dropped, out, buffer', skipping');
    lines', dropped' := lines + out, dropped;
    SkippingDropped(before, lines, buffer, skipping, dropped);
    if !skipping' && |buffer'| > MAX_LINE_BYTES {
      dropped', skipping' := true, true;
    }
    if skipping' {
      buffer' := [];
    }
  }

  lemma {:induction false} SkippingDropped(before: seq<seq<Byte>>, lines: seq<seq<Byte>>, buffer: seq<Byte>, skipping: bool, dropped: bool)
    requires ChunkSized(before) && Holds(before, lines, buffer, skipping, dropped)
    ensures skipping ==> dropped
  {
    var s := ScanOf(before);
    ScanBounded(before);
    if skipping {
      assert s.open in AllTags(s);
    }
  }

  /** The reads stopped before the one that would have gone over the budget. */
  ghost predicate CutShort(chunks: seq<seq<Byte>>, lines: seq<seq<Byte>>) {
    exists i :: 0 <= i < |chunks| && CutAt(chunks, i, lines)
  }

  ghost predicate CutAt(chunks: seq<seq<Byte>>, i: nat, lines: seq<seq<Byte>>)
    requires i < |chunks|
  {
    !OverBudget(chunks[..i]) && OverBudget(chunks[..i + 1]) && lines == Kept(ScanOf(chunks[..i]).closed)
  }

  lemma {:induction false} OneMoreChunk(chunks: seq<seq<Byte>>, i: nat)
    requires i < |chunks| && ChunkSized(chunks)
    ensures chunks[..i + 1] == chunks[..i] + [chunks[i]]
    ensures |Content(chunks[..i + 1])| == |Content(chunks[..i])| + |chunks[i]|
    ensures ChunkSized(chunks[..i]) && 0 < |chunks[i]| <= READ_CHUNK_BYTES
  {
    assert chunks[..i + 1][..i] == chunks[..i];
    assert chunks[i] in chunks;
  }

  lemma {:induction false} StopsHere(chunks: seq<seq<Byte>>, i: nat, lines: seq<seq<Byte>>)
    requires i < |chunks| && CutAt(chunks, i, lines)
    ensures OverBudget(chunks) && CutShort(chunks, lines)
  {
    ContentGrows(chunks, i + 1);
  }

  /** The reader. `chunks` are the reads up to end of file; `peak` is the most it
      ever buffered. */
  method ReadLines(chunks: seq<seq<Byte>>) returns (lines: seq<seq<Byte>>, truncated: bool, ghost peak: nat)
    requires ChunkSized(chunks)
    ensures !OverBudget(chunks) ==> lines == Output(chunks) && truncated == AnyDropped(AllTags(ScanOf(chunks)))
    ensures OverBudget(chunks) ==> truncated && CutShort(chunks, lines)
    ensures peak <= MAX_LINE_BYTES + READ_CHUNK_BYTES
  {
    var total: nat := 0;
    var buffer: seq<Byte>, skipping := [], false;
    lines, truncated, peak := [], false, 0;
    for i := 0 to |chunks|
      invariant total == |Content(chunks[..i])| && total <= MAX_TOTAL_BYTES
      invariant peak <= MAX_LINE_BYTES + READ_CHUNK_BYTES
      invariant Holds(chunks[..i], lines, buffer, skipping, truncated)
    {
      OneMoreChunk(chunks, i);
      total := total + |chunks[i]|;
      if total > MAX_TOTAL_BYTES {
        StopsHere(chunks, i, lines);
        return lines, true, peak;
      }
      peak := Max(peak, |buffer| + |chunks[i]|);
      lines, buffer, skipping, truncated := ReadChunk(chunks[..i], chunks[i], lines, buffer, skipping, truncated);
    }
    assert chunks[..|chunks|] == chunks;
    lines := LastOne(chunks, lines, buffer, skipping, truncated);
  }

  method LastOne(chunks: seq<seq<Byte>>, lines: seq<seq<Byte>>, buffer: seq<Byte>, skipping: bool, truncated: bool)
    returns (all: seq<seq<Byte>>)
    requires Holds(chunks, lines, buffer, skipping, truncated)
    ensures all == Output(chunks) && truncated == AnyDropped(AllTags(ScanOf(chunks)))
  {
    LastLine(ScanOf(chunks));
    all := lines;
    if buffer != [] && !skipping {
      all := all + [buffer];
    }
  }

  /** At end of file the unfinished line, if any and if kept, is a line. */
  lemma {:induction false} LastLine(s: Scan)
    ensures Kept(AllTags(s)) == Kept(s.closed) + if s.open.line != [] && !s.open.dropped then [s.open.line] else []
  {
    KeptConcat(s.closed, if s.open.line == [] then [] else [s.open]);
    KeptOne(s.open);
  }

  lemma {:induction false} ContentGrows(chunks: seq<seq<Byte>>, i: nat)
    requires i <= |chunks|
    ensures |Content(chunks[..i])| <= |Content(chunks)|
  {
    if i < |chunks| {
      ContentGrows(chunks[..|chunks| - 1], i);
      assert chunks[..|chunks| - 1][..i] == chunks[..i];
    } else {
      assert chunks[..i] == chunks;
    }
  }

  /** A line dropped earlier stays dropped; a chunk can only add the open line. */
  lemma {:induction false} DroppedStep(s: Scan, chunk: seq<Byte>)
    requires NEWLINE !in s.open.line && (s.open.dropped <==> |s.open.line| > MAX_LINE_BYTES)
    ensures var after := AfterChunk(s, chunk);
            AnyDropped(AllTags(after)) == (AnyDropped(AllTags(s)) || after.open.dropped)
  {
    var after := AfterChunk(s, chunk);
    var pieces := Lines.Split(s.open.line + chunk, NEWLINE);
    ChunkPieces(s.open.line, chunk);
    if |pieces| > 1 {
      var first := Tagged(pieces[0], s.open.dropped);
      assert first in after.closed;
      assert forall t :: t in after.closed && t.dropped ==> t in s.closed || t == first;
      if AnyDropped(AllTags(s)) {
        var t :| t in AllTags(s) && t.dropped;
        if t in s.closed { assert t in AllTags(after); } else { assert first in AllTags(after); }
      }
    }
    if after.open.dropped {
      assert after.open in AllTags(after);
    }
  }
}
