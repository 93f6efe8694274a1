/** Generating the operator documentation: every template line with the marker is replaced, in
    place, by all documentation blocks. */
module DocsSplice {

  type Line = string

  const MARKER: string := "{DOCS}"

  predicate MarkerAt(line: Line, i: nat) {
    i + |MARKER| <= |line| && line[i..i + |MARKER|] == MARKER
  }

  /** The marker occurs somewhere in the line. */
  predicate Marked(line: Line) {
    exists i | 0 <= i < |line| :: MarkerAt(line, i)
  }

  /** All blocks in order, each followed by an empty line. */
  function AllBlocks(blocks: seq<seq<Line>>): seq<Line> {
    if blocks == [] then [] else AllBlocks(blocks[..|blocks| - 1]) + blocks[|blocks| - 1] + ["\n"]
  }

  /** The template with every marked line replaced. */
  function Expand(lines: seq<Line>, blocks: seq<seq<Line>>): seq<Line> {
    if lines == [] then []
    else
      var last := lines[|lines| - 1];
      Expand(lines[..|lines| - 1], blocks) + if Marked(last) then AllBlocks(blocks) else [last]
  }

  function Delete<T>(s: seq<T>, at: nat): seq<T>
    requires at < |s|
  {
    s[..at] + s[at + 1..]
  }

  function Insert<T>(s: seq<T>, at: nat, x: T): seq<T>
    requires at <= |s|
  {
    s[..at] + [x] + s[at..]
  }

  lemma DeleteBetween<T>(a: seq<T>, x: T, b: seq<T>)
    ensures Delete(a + [x] + b, |a|) == a + b
  {
  }

  lemma SplitAt(done: seq<Line>, lines: seq<Line>, i: nat)
    requires i < |lines|
    ensures done + lines[i..] == done + [lines[i]] + lines[i + 1..]
  {
    assert lines[i..] == [lines[i]] + lines[i + 1..];
  }

  lemma ExpandStep(lines: seq<Line>, blocks: seq<seq<Line>>, i: nat)
    requires i < |lines|
    ensures Expand(lines[..i + 1], blocks)
            == Expand(lines[..i], blocks) + if Marked(lines[i]) then AllBlocks(blocks) else [lines[i]]
  {
    assert lines[..i + 1][..i] == lines[..i];
  }

  lemma BlocksStep(blocks: seq<seq<Line>>, k: nat)
    requires k < |blocks|
    ensures AllBlocks(blocks[..k + 1]) == AllBlocks(blocks[..k]) + blocks[k] + ["\n"]
  {
    assert blocks[..k + 1][..k] == blocks[..k];
  }

  /** Insert the lines of all blocks between done and rest, at a position that moves. */
  method InsertBlocks(index: nat, offset0: int, newLines0: seq<Line>, blocks: seq<seq<Line>>,
                      ghost done: seq<Line>, ghost rest: seq<Line>)
    returns (newLines: seq<Line>, offset: int)
    requires newLines0 == done + rest && index + offset0 == |done|
    ensures newLines == done + AllBlocks(blocks) + rest && offset == offset0 + |AllBlocks(blocks)|
  {
    newLines, offset := newLines0, offset0;
    for k := 0 to |blocks|
      invariant newLines == done + AllBlocks(blocks[..k]) + rest
      invariant offset == offset0 + |AllBlocks(blocks[..k])|
    {
      ghost var before := done + AllBlocks(blocks[..k]);
      var block := blocks[k];
      for j := 0 to |block|
        invariant newLines == before + block[..j] + rest
        invariant index + offset == |before| + j
      {
        newLines := Insert(newLines, index + offset, block[j]);
        offset := offset + 1;
        assert before + block[..j + 1] == before + block[..j] + [block[j]];
      }
      assert block[..|block|] == block;
      newLines := Insert(newLines, index + offset, "\n");
      offset := offset + 1;
      BlocksStep(blocks, k);
      assert before + block + ["\n"] == done + AllBlocks(blocks[..k + 1]);
    }
    assert blocks[..|blocks|] == blocks;
  }

  // ---- what the result is ----

  function Markers(lines: seq<Line>): nat {
    if lines == [] then 0 else Markers(lines[..|lines| - 1]) + if Marked(lines[|lines| - 1]) then 1 else 0
  }

  lemma {:induction false} ExpandSplits(a: seq<Line>, b: seq<Line>, blocks: seq<seq<Line>>)
    ensures Expand(a + b, blocks) == Expand(a, blocks) + Expand(b, blocks)
    decreases |b|
  {
    if b == [] {
      assert a + b == a;
    } else {
      var front := b[..|b| - 1];
      ExpandSplits(a, front, blocks);
      assert (a + b)[..|a + b| - 1] == a + front;
      assert (a + b)[|a + b| - 1] == b[|b| - 1];
    }
  }

  /** Its length counts the marked lines, and a template without marker is unchanged. */
  lemma {:induction false} ExpandSize(lines: seq<Line>, blocks: seq<seq<Line>>)
    ensures |Expand(lines, blocks)| == |lines| - Markers(lines) + Markers(lines) * |AllBlocks(blocks)|
    ensures Markers(lines) == 0 ==> Expand(lines, blocks) == lines
  {
    hide Marked; hide AllBlocks;
    if lines != [] {
      var front := lines[..|lines| - 1];
      ExpandSize(front, blocks);
      assert lines == front + [lines[|lines| - 1]];
      OneMore(Markers(front), |AllBlocks(blocks)|);
    }
  }

  lemma OneMore(n: nat, size: nat)
    ensures (n + 1) * size == n * size + size
  {
  }

  // ---- what the page is ----

  /** The line reads anything, the marker, anything. */
  ghost predicate HasMarker(line: Line) {
    exists before, after :: line == before + "{DOCS}" + after
  }

  /** The search finds the marker wherever it is, at either end of the line too. */
  lemma MarkedExactlyWhen(line: Line)
    ensures Marked(line) <==> HasMarker(line)
  {
    if Marked(line) {
      var i :| 0 <= i < |line| && MarkerAt(line, i);
      assert line == line[..i] + "{DOCS}" + line[i + 6..];
    }
    if before, after :| line == before + "{DOCS}" + after {
      assert line[|before|..|before| + 6] == "{DOCS}";
      assert MarkerAt(line, |before|);
    }
  }

  /** No line has the marker. */
  ghost predicate Plain(lines: seq<Line>) {
    forall line | line in lines :: !HasMarker(line)
  }

  /** The blocks one after another, a line break behind each. */
  function Joined(blocks: seq<seq<Line>>): seq<Line> {
    if blocks == [] then [] else blocks[0] + ["\n"] + Joined(blocks[1..])
  }

  /** The template read from the top, the blocks in the place of each line with the marker. */
  ghost function Page(lines: seq<Line>, blocks: seq<seq<Line>>): seq<Line> {
    if lines == [] then []
    else (if HasMarker(lines[0]) then Joined(blocks) else [lines[0]]) + Page(lines[1..], blocks)
  }

  lemma {:induction false} BlocksJoined(blocks: seq<seq<Line>>)
    ensures AllBlocks(blocks) == Joined(blocks)
  {
    if blocks != [] {
      BlocksSplit(blocks[0], blocks[1..]);
      assert [blocks[0]] + blocks[1..] == blocks;
      BlocksJoined(blocks[1..]);
    }
  }

  lemma {:induction false} BlocksSplit(first: seq<Line>, rest: seq<seq<Line>>)
    ensures AllBlocks([first] + rest) == first + ["\n"] + AllBlocks(rest)
    decreases |rest|
  {
    var all := [first] + rest;
    if rest == [] {
      assert all[..0] == [] && all == [first];
    } else {
      var front := rest[..|rest| - 1];
      BlocksSplit(first, front);
      assert all[..|all| - 1] == [first] + front && all[|all| - 1] == rest[|rest| - 1];
    }
  }

  lemma {:induction false} ExpandIsPage(lines: seq<Line>, blocks: seq<seq<Line>>)
    ensures Expand(lines, blocks) == Page(lines, blocks)
  {
    if lines != [] {
      var first, rest := lines[0], lines[1..];
      assert lines == [first] + rest && [first][..0] == [];
      ExpandSplits([first], rest, blocks);
      MarkedExactlyWhen(first);
      BlocksJoined(blocks);
      ExpandIsPage(rest, blocks);
    }
  }

  lemma {:induction false} PagePlain(lines: seq<Line>, blocks: seq<seq<Line>>)
    requires Plain(lines)
    ensures Page(lines, blocks) == lines
  {
    if lines != [] {
      assert lines[0] in lines && forall line | line in lines[1..] :: line in lines;
      PagePlain(lines[1..], blocks);
    }
  }

  /** One line with the marker: what is above, the blocks, what is below. */
  lemma {:induction false} PageSole(x: seq<Line>, before: Line, after: Line, y: seq<Line>, blocks: seq<seq<Line>>)
    requires Plain(x) && Plain(y)
    ensures Page(x + [before + "{DOCS}" + after] + y, blocks) == x + Joined(blocks) + y
    decreases |x|
  {
    var lines := x + [before + "{DOCS}" + after] + y;
    if x == [] {
      assert lines[0] == before + "{DOCS}" + after && lines[1..] == y;
      PagePlain(y, blocks);
    } else {
      assert lines[0] == x[0] && x[0] in x && lines[1..] == x[1..] + [before + "{DOCS}" + after] + y;
      assert forall line | line in x[1..] :: line in x;
      PageSole(x[1..], before, after, y, blocks);
    }
  }

  // ---- the splice ----

  /** The splice: delete each marked line from the copy and insert the blocks where it was,
      with an offset that tracks how far the copy has moved against the template. */
  method Splice(lines: seq<Line>, blocks: seq<seq<Line>>) returns (newLines: seq<Line>)
    ensures newLines == Expand(lines, blocks) == Page(lines, blocks)
    ensures forall x, before, after, y | lines == x + [before + "{DOCS}" + after] + y && Plain(x) && Plain(y) ::
              newLines == x + Joined(blocks) + y
  {
    newLines := lines;
    var offset: int := 0;
    for index := 0 to |lines|
      invariant newLines == Expand(lines[..index], blocks) + lines[index..]
      invariant index + offset == |Expand(lines[..index], blocks)|
    {
      ExpandStep(lines, blocks, index);
      SplitAt(Expand(lines[..index], blocks), lines, index);
      if Marked(lines[index]) {
        ghost var done := Expand(lines[..index], blocks);
        DeleteBetween(done, lines[index], lines[index + 1..]);
        newLines := Delete(newLines, index + offset);
        newLines, offset := InsertBlocks(index, offset, newLines, blocks, done, lines[index + 1..]);
        offset := offset - 1;
      }
    }
    assert lines[..|lines|] == lines;
    ExpandIsPage(lines, blocks);
    forall x, before, after, y | lines == x + [before + "{DOCS}" + after] + y && Plain(x) && Plain(y)
      ensures Page(lines, blocks) == x + Joined(blocks) + y
    {
      PageSole(x, before, after, y, blocks);
    }
  }
}
