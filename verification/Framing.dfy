/** Lines of text and the protocol's grammar: what a word is, which line opens a data set, which line
    ends one, and how a stream of elements is cut into blocks. */
module Framing {

  datatype Option<+T> = None | Some(value: T)

  type Line = string

  /** One command or one reply: its head line, then the data lines that belong to it. */
  type Block = seq<Line>

  const BLANKS: set<char> := {' ', '\t', '\n'}

  // ---------------------------------------------------------------- words

  function WordLength(s: string, delims: set<char>): (n: nat)
    ensures n <= |s|
    ensures forall i :: 0 <= i < n ==> s[i] !in delims
    ensures n < |s| ==> s[n] in delims
  {
    if s == "" || s[0] in delims then 0 else 1 + WordLength(s[1..], delims)
  }

  /** The words of s: its maximal runs without a delimiter, so there is never an empty word. */
  function SplitString(s: string, delims: set<char>): seq<string>
    decreases |s|
  {
    if s == "" then []
    else if s[0] in delims then SplitString(s[1..], delims)
    else
      var n := WordLength(s, delims);
      [s[..n]] + SplitString(s[n..], delims)
  }

  lemma {:induction false} SplitGivesWords(s: string, delims: set<char>, k: nat)
    requires k < |SplitString(s, delims)|
    ensures var w := SplitString(s, delims)[k];
            w != "" && forall i :: 0 <= i < |w| ==> w[i] !in delims && w[i] in s
    decreases |s|
  {
    if s[0] in delims {
      SplitGivesWords(s[1..], delims, k);
    } else if k > 0 {
      SplitGivesWords(s[WordLength(s, delims)..], delims, k - 1);
    }
  }

  /** w stands at index i of s, and is a whole word there. */
  predicate WordAt(s: string, i: nat, w: string, delims: set<char>) {
    && i + |w| <= |s| && s[i..i+|w|] == w && w != "" && (i + |w| < |s| ==> s[i+|w|] in delims)
    && forall k :: 0 <= k < |w| ==> w[k] !in delims
  }

  /** Nothing but delimiters before it: the first word. */
  ghost predicate FirstWord(s: string, w: string, delims: set<char>) {
    exists i :: WordAt(s, i, w, delims) && forall k :: 0 <= k < i ==> s[k] in delims
  }

  lemma WordAtTail(s: string, i: nat, w: string, delims: set<char>)
    requires 0 < i && s != ""
    ensures WordAt(s, i, w, delims) <==> WordAt(s[1..], i - 1, w, delims)
  {
    if i + |w| <= |s| {
      assert s[1..][i-1..i-1+|w|] == s[i..i+|w|];
    }
  }

  lemma FirstWordTail(s: string, w: string, delims: set<char>)
    requires s != "" && s[0] in delims
    ensures FirstWord(s, w, delims) <==> FirstWord(s[1..], w, delims)
  {
    if i: nat :| WordAt(s, i, w, delims) && forall k :: 0 <= k < i ==> s[k] in delims {
      assert i > 0 by { assert s[0..0+|w|][0] == s[0]; }
      WordAtTail(s, i, w, delims);
      assert forall k :: 0 <= k < i - 1 ==> s[1..][k] == s[k+1];
    }
    if i: nat :| WordAt(s[1..], i, w, delims) && forall k :: 0 <= k < i ==> s[1..][k] in delims {
      WordAtTail(s, i + 1, w, delims);
      forall k | 0 <= k < i + 1 ensures s[k] in delims {
        assert k > 0 ==> s[k] == s[1..][k-1];
      }
    }
  }

  lemma {:induction false} SplitFirstWord(s: string, delims: set<char>, w: string)
    ensures FirstWord(s, w, delims) <==> SplitString(s, delims) != [] && SplitString(s, delims)[0] == w
    decreases |s|
  {
    if s == "" {
    } else if s[0] in delims {
      FirstWordTail(s, w, delims);
      SplitFirstWord(s[1..], delims, w);
    } else {
      FirstWordFront(s, w, delims);
    }
  }

  lemma FirstWordFront(s: string, w: string, delims: set<char>)
    requires s != "" && s[0] !in delims
    ensures FirstWord(s, w, delims) <==> w == s[..WordLength(s, delims)]
  {
    var n := WordLength(s, delims);
    assert WordAt(s, 0, s[..n], delims);
    if i: nat :| WordAt(s, i, w, delims) && forall k :: 0 <= k < i ==> s[k] in delims {
      assert i == 0 && forall k :: 0 <= k < |w| ==> s[k] == w[k];
    }
  }

  /** A line without words; the protocol ends a data set with one. */
  predicate Blank(line: Line) {
    SplitString(line, BLANKS) == []
  }

  /** The last character that is not blank is a colon: a data set follows this line. */
  predicate Opens(line: Line)
    decreases |line|
  {
    line != "" &&
    if line[|line|-1] in BLANKS then Opens(line[..|line|-1]) else line[|line|-1] == ':'
  }

  predicate AllBlank(s: string) {
    forall i :: 0 <= i < |s| ==> s[i] in BLANKS
  }

  lemma {:induction false} BlankIffAllBlank(s: string)
    ensures Blank(s) <==> AllBlank(s)
    decreases |s|
  {
    if s != "" && s[0] in BLANKS {
      BlankIffAllBlank(s[1..]);
      assert s == [s[0]] + s[1..];
    }
  }

  lemma {:induction false} OpensAfter(a: string, b: string)
    ensures AllBlank(b) ==> Opens(a + b) == Opens(a)
    ensures !AllBlank(b) ==> Opens(a + b) == Opens(b)
    decreases |b|
  {
    if b == "" {
      assert a + b == a;
    } else {
      OpensAfter(a, b[..|b|-1]);
      assert (a + b)[..|a + b|-1] == a + b[..|b|-1];
      assert b == b[..|b|-1] + [b[|b|-1]];
    }
  }

  /** There is a last word and it ends in a colon. */
  predicate ColonEnded(words: seq<string>) {
    words != [] && var w := words[|words|-1]; w != "" && w[|w|-1] == ':'
  }

  lemma OpensIfWord(w: string)
    requires w != "" && w[|w|-1] !in BLANKS
    ensures Opens(w) == (w[|w|-1] == ':') && !AllBlank(w)
  {
  }

  /** A line opens a data set exactly when it has words and the last one ends in a colon. */
  lemma {:induction false} OpensByLastWord(s: string)
    ensures Opens(s) == ColonEnded(SplitString(s, BLANKS))
    decreases |s|
  {
    if s == "" {
    } else if s[0] in BLANKS {
      OpensByLastWord(s[1..]);
      OpensAfter([s[0]], s[1..]);
      BlankIffAllBlank(s[1..]);
      assert s == [s[0]] + s[1..];
      assert Opens([s[0]]) == Opens("") by { assert [s[0]][..0] == ""; }
    } else {
      var n := WordLength(s, BLANKS);
      var w, rest := s[..n], s[n..];
      OpensByLastWord(rest);
      OpensAfter(w, rest);
      BlankIffAllBlank(rest);
      OpensIfWord(w);
      assert s == w + rest;
      LastOfCons(w, SplitString(rest, BLANKS));
    }
  }

  lemma LastOfCons(w: string, words: seq<string>)
    ensures ColonEnded([w] + words) == if words == [] then ColonEnded([w]) else ColonEnded(words)
  {
    assert words != [] ==> ([w] + words)[|words|] == words[|words|-1];
  }

  /** The words with a space after each, then a newline: how a command line is rebuilt from its words. */
  function JoinWords(words: seq<string>): string {
    if words == [] then "\n" else words[0] + " " + JoinWords(words[1..])
  }

  /** Joining the words of a line keeps whether a data set follows. */
  lemma {:induction false} JoinKeepsOpens(words: seq<string>)
    requires forall k :: 0 <= k < |words| ==>
      words[k] != "" && forall i :: 0 <= i < |words[k]| ==> words[k][i] !in BLANKS
    ensures Opens(JoinWords(words)) == ColonEnded(words)
    ensures words != [] ==> !AllBlank(JoinWords(words))
  {
    if words == [] {
      assert AllBlank("\n");
      OpensAfter("", "\n");
      assert "" + "\n" == "\n";
    } else {
      var w, more := words[0], words[1..];
      JoinKeepsOpens(more);
      OpensIfWord(w);
      OpensAfter(w, " " + JoinWords(more));
      OpensAfter(" ", JoinWords(more));
      assert JoinWords(words) == w + (" " + JoinWords(more));
      assert JoinWords(words)[0] == w[0];
      LastOfCons(w, more);
      assert words == [w] + more;
      if more != [] {
        assert !AllBlank(" " + JoinWords(more)) by { NotAllBlankTail(JoinWords(more)); }
      }
    }
  }

  lemma NotAllBlankTail(s: string)
    requires !AllBlank(s)
    ensures !AllBlank(" " + s)
  {
    var i :| 0 <= i < |s| && s[i] !in BLANKS;
    assert (" " + s)[i+1] == s[i];
  }

  lemma RebuiltLineKeepsOpens(line: Line)
    ensures Opens(JoinWords(SplitString(line, BLANKS))) == Opens(line)
  {
    var words := SplitString(line, BLANKS);
    forall k | 0 <= k < |words|
      ensures words[k] != "" && forall i :: 0 <= i < |words[k]| ==> words[k][i] !in BLANKS
    {
      SplitGivesWords(line, BLANKS, k);
    }
    JoinKeepsOpens(words);
    OpensByLastWord(line);
  }

  // ---------------------------------------------------------------- streams cut into blocks

  function Flat<T>(blocks: seq<seq<T>>): seq<T> {
    if blocks == [] then [] else Flat(blocks[..|blocks|-1]) + blocks[|blocks|-1]
  }

  /** Reads xs one element at a time and closes the current block as soon as done holds of it: the closed
      blocks and the elements of the block still open. */
  function Cut<T>(xs: seq<T>, done: seq<T> -> bool): (seq<seq<T>>, seq<T>)
    decreases |xs|
  {
    if xs == [] then ([], []) else
      var (blocks, open) := Cut(xs[..|xs|-1], done);
      var b := open + [xs[|xs|-1]];
      if done(b) then (blocks + [b], []) else (blocks, b)
  }

  /** done holds of b and of no shorter non-empty beginning of it. */
  ghost predicate FirstDone<T>(b: seq<T>, done: seq<T> -> bool) {
    b != [] && done(b) && NeverDone(b[..|b|-1], done)
  }

  ghost predicate NeverDone<T>(b: seq<T>, done: seq<T> -> bool) {
    forall n :: 0 < n <= |b| ==> !done(b[..n])
  }

  /** What one more element does to a cut. */
  lemma CutOneMore<T>(xs: seq<T>, x: T, done: seq<T> -> bool)
    ensures var (blocks, open) := Cut(xs, done);
      Cut(xs + [x], done) == if done(open + [x]) then (blocks + [open + [x]], []) else (blocks, open + [x])
  {
    assert (xs + [x])[..|xs|] == xs;
  }

  /** Cutting undoes joining ... */
  lemma {:induction false} CutOfFlat<T>(blocks: seq<seq<T>>, open: seq<T>, done: seq<T> -> bool)
    requires forall b :: b in blocks ==> FirstDone(b, done)
    requires NeverDone(open, done)
    ensures Cut(Flat(blocks) + open, done) == (blocks, open)
    decreases |blocks|, |open|
  {
    if open != [] {
      var m := |open| - 1;
      assert forall n :: 0 < n <= m ==> open[..m][..n] == open[..n];
      CutOfFlat(blocks, open[..m], done);
      assert open[..m] + [open[m]] == open == open[..m + 1];
      CutOneMore(Flat(blocks) + open[..m], open[m], done);
      assert Flat(blocks) + open[..m] + [open[m]] == Flat(blocks) + open;
    } else if blocks != [] {
      var k := |blocks| - 1;
      var b := blocks[k];
      var n := |b| - 1;
      assert b in blocks && blocks[..k] + [b] == blocks;
      CutOfFlat(blocks[..k], b[..n], done);
      assert b[..n] + [b[n]] == b;
      CutOneMore(Flat(blocks[..k]) + b[..n], b[n], done);
      assert Flat(blocks[..k]) + b[..n] + [b[n]] == Flat(blocks) + open;
    }
  }

  /** ... and joining undoes cutting, on every stream. */
  lemma {:induction false} FlatOfCut<T>(xs: seq<T>, done: seq<T> -> bool)
    ensures var (blocks, open) := Cut(xs, done);
            Flat(blocks) + open == xs && forall b :: b in blocks ==> done(b)
    decreases |xs|
  {
    if xs != [] {
      FlatOfCut(xs[..|xs|-1], done);
      var (blocks, open) := Cut(xs[..|xs|-1], done);
      var b := open + [xs[|xs|-1]];
      assert (blocks + [b])[..|blocks|] == blocks;
      assert xs == xs[..|xs|-1] + [xs[|xs|-1]];
    }
  }

  lemma FlatAppend<T>(blocks: seq<seq<T>>, b: seq<T>)
    ensures Flat(blocks + [b]) == Flat(blocks) + b
  {
    assert (blocks + [b])[..|blocks|] == blocks;
  }

  // ---------------------------------------------------------------- protocol blocks

  /** A data set has been opened and not ended yet. */
  predicate Open(b: Block) {
    b != [] && Opens(b[0]) && forall j :: 1 <= j < |b| ==> !Blank(b[j])
  }

  /** A complete command or reply: one line, or a line that opens a data set, data lines, and the blank
      line that ends it, which comes last and only last. */
  predicate Whole(b: Block) {
    b != [] &&
    if Opens(b[0]) then |b| >= 2 && Open(b[..|b|-1]) && Blank(b[|b|-1]) else |b| == 1
  }

  /** What one more line does to a block. */
  lemma ExtendBlock(b: Block, line: Line)
    requires b == [] || Open(b)
    ensures b == [] ==> if Opens(line) then Open(b + [line]) else Whole(b + [line])
    ensures b != [] ==> if Blank(line) then Whole(b + [line]) else Open(b + [line])
  {
    assert (b + [line])[..|b|] == b;
  }

  lemma OpenIsNeverDone(b: Block)
    requires b == [] || Open(b)
    ensures NeverDone(b, Whole)
  {
    forall n | 0 < n <= |b| ensures !Whole(b[..n]) {
      assert Open(b[..n]);
    }
  }

  lemma WholeIsFirstDone(b: Block)
    requires Whole(b)
    ensures FirstDone(b, Whole)
  {
    if Opens(b[0]) {
      OpenIsNeverDone(b[..|b|-1]);
    }
  }

  /** The protocol reader recovers the blocks of a stream, and the block still open at its end. */
  lemma ProtocolRoundTrip(blocks: seq<Block>, open: Block)
    requires forall b :: b in blocks ==> Whole(b)
    requires open == [] || Open(open)
    ensures Cut(Flat(blocks) + open, Whole) == (blocks, open)
  {
    forall b | b in blocks ensures FirstDone(b, Whole) {
      WholeIsFirstDone(b);
    }
    OpenIsNeverDone(open);
    CutOfFlat(blocks, open, Whole);
  }

  // ---------------------------------------------------------------- lines in a byte stream

  predicate EndsLine(s: string) {
    s != "" && s[|s|-1] == '\n'
  }

  /** One line as it travels: no newline except the last character. */
  predicate Proper(line: Line) {
    EndsLine(line) && NoNewline(line[..|line|-1])
  }

  predicate NoNewline(s: string) {
    '\n' !in s
  }

  lemma NoNewlineNeverEnds(s: string)
    requires NoNewline(s)
    ensures NeverDone(s, EndsLine)
  {
    forall n | 0 < n <= |s| ensures !EndsLine(s[..n]) {
      assert s[..n][n-1] == s[n-1] && s[n-1] in s;
    }
  }

  /** Reading a byte stream line by line recovers its lines and the unfinished rest. */
  lemma LinesRoundTrip(lines: seq<Line>, rest: string)
    requires forall l :: l in lines ==> Proper(l)
    requires NoNewline(rest)
    ensures Cut(Flat(lines) + rest, EndsLine) == (lines, rest)
  {
    forall l | l in lines ensures FirstDone(l, EndsLine) {
      NoNewlineNeverEnds(l[..|l|-1]);
    }
    NoNewlineNeverEnds(rest);
    CutOfFlat(lines, rest, EndsLine);
  }

  /** One more byte ends a line or joins the rest. */
  lemma NextByte(stream: string, c: char, lines: seq<Line>, rest: string)
    requires Cut(stream, EndsLine) == (lines, rest) && NoNewline(rest)
    ensures Cut(stream + [c], EndsLine) == if c == '\n' then (lines + [rest + [c]], "") else (lines, rest + [c])
    ensures if c == '\n' then Proper(rest + [c]) else NoNewline(rest + [c])
  {
    CutOneMore(stream, c, EndsLine);
    assert (rest + [c])[..|rest|] == rest;
  }

  /** Collects bytes into lines (src/coreinstance.h). */
  class LineRecvQ {
    var readbuf: string

    constructor ()
      ensures readbuf == ""
    {
      readbuf := "";
    }

    /** However a stream is chopped into chunks, the lines that come out are those of the stream: the new
        buffer and lines are what cutting the old buffer followed by the chunk gives. */
    method NextLines(str: string) returns (lines: seq<Line>)
      requires NoNewline(readbuf)
      modifies this
      ensures NoNewline(readbuf)
      ensures forall l :: l in lines ==> Proper(l)
      ensures (lines, readbuf) == Cut(old(readbuf) + str, EndsLine)
    {
      hide Cut, Proper;
      lines := [];
      LinesRoundTrip([], readbuf);
      assert Flat<char>([]) + readbuf == readbuf + str[..0];
      for i := 0 to |str|
        invariant NoNewline(readbuf)
        invariant forall l :: l in lines ==> Proper(l)
        invariant (lines, readbuf) == Cut(old(readbuf) + str[..i], EndsLine)
      {
        NextByte(old(readbuf) + str[..i], str[i], lines, readbuf);
        assert old(readbuf) + str[..i] + [str[i]] == old(readbuf) + str[..i+1];
        readbuf := readbuf + [str[i]];
        if str[i] == '\n' {
          lines := lines + [readbuf];
          readbuf := "";
        }
      }
      assert str[..|str|] == str;
    }
  }
}
