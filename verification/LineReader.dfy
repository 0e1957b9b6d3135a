/**
 * The reader that notes a gateway response's model and cost on its way through
 * (modelReader, src/gateway/served-model.ts): lines over arbitrary chunks. Chunks are decoded text;
 * what one line names is given by the parameters of `Read`.
 */
module LineReader {
  import opened Wrappers

  /** What a frame names: a model, a cost, either or neither (namedModel, reportedCost). */
  datatype Named = Named(model: Option<string>, cost: Option<real>)

  datatype Served = Served(model: Option<string>, cost: Option<real>)

  const NEWLINE := '\n'

  /** JavaScript's split("\n"): always at least one piece. */
  function Split(text: string): (lines: seq<string>)
    ensures |lines| > 0
    decreases |text|
  {
    if text == "" then [""] else Before(text[0], Split(text[1..]))
  }

  /** `lines` with one character before them. */
  function Before(c: char, lines: seq<string>): (more: seq<string>)
    requires |lines| > 0
    ensures |more| > 0
  {
    if c == NEWLINE then [""] + lines else [[c] + lines[0]] + lines[1..]
  }

  function Note(served: Served, named: Named): Served {
    Served(if named.model.Some? then named.model else served.model,
           if named.cost.Some? then named.cost else served.cost)
  }

  /** What is served after reading `lines` in order. */
  function NoteAll(served: Served, lines: seq<string>, frame: string -> Named): Served
    decreases |lines|
  {
    if lines == [] then served else NoteAll(Note(served, frame(lines[0])), lines[1..], frame)
  }

  class ModelReader {
    const maxLine: nat
    const frame: string -> Named
    var pending: string
    var served: Served
    /** Every line read so far, and every chunk passed on. */
    ghost var read: seq<string>
    ghost var passed: seq<string>
    const first: Served

    constructor (maxLine: nat, frame: string -> Named, served: Served)
      ensures Valid() && this.maxLine == maxLine && this.frame == frame && this.first == served
      ensures pending == "" && read == [] && passed == []
    {
      this.maxLine, this.frame, this.served, this.first := maxLine, frame, served, served;
      pending, read, passed := "", [], [];
    }

    ghost predicate Valid()
      reads this
    {
      served == NoteAll(first, read, frame)
    }

    method Consume(text: string, end: bool)
      requires Valid()
      modifies this
      ensures Valid() && passed == old(passed)
      ensures var lines := Split(old(pending) + text);
              var last := lines[|lines| - 1];
              && read == old(read) + (if end then lines else lines[..|lines| - 1])
              && pending == if end || |last| > maxLine then "" else last
    {
      var lines := Split(pending + text);
      if end {
        pending := "";
      } else {
        pending := lines[|lines| - 1];
        lines := lines[..|lines| - 1];
      }
      ReadLines(lines);
      if |pending| > maxLine { pending := ""; }
    }

    /** The loop over the complete lines. */
    method ReadLines(lines: seq<string>)
      requires Valid()
      modifies this`served, this`read
      ensures Valid() && read == old(read) + lines
    {
      var i := 0;
      while i < |lines|
        invariant 0 <= i <= |lines|
        invariant read == old(read) + lines[..i] && Valid()
      {
        NoteOneMore(first, read, lines[i], frame);
        served := Note(served, frame(lines[i]));
        read := read + [lines[i]];
        i := i + 1;
      }
    }

    /** transform: the chunk passes unchanged, then its text is read. */
    method Transform(chunk: string)
      requires Valid()
      modifies this
      ensures Valid() && passed == old(passed) + [chunk]
      ensures var lines := Split(old(pending) + chunk);
              var last := lines[|lines| - 1];
              && read == old(read) + lines[..|lines| - 1]
              && pending == if |last| > maxLine then "" else last
    {
      Consume(chunk, false);
      passed := passed + [chunk];
    }

    method Flush()
      requires Valid()
      modifies this
      ensures Valid() && passed == old(passed) && pending == ""
      ensures read == old(read) + Split(old(pending))
    {
      assert old(pending) + "" == old(pending);
      Consume("", true);
    }
  }

  lemma {:induction false} NoteOneMore(served: Served, lines: seq<string>, line: string, frame: string -> Named)
    ensures NoteAll(served, lines + [line], frame) == Note(NoteAll(served, lines, frame), frame(line))
    decreases |lines|
  {
    if lines == [] {
      assert [line][1..] == [];
    } else {
      assert (lines + [line])[1..] == lines[1..] + [line];
      NoteOneMore(Note(served, frame(lines[0])), lines[1..], line, frame);
    }
  }

  // ---- The same lines however the text is cut ----

  function Joined(chunks: seq<string>): string {
    if chunks == [] then "" else chunks[0] + Joined(chunks[1..])
  }

  /** A line is never longer than the reader keeps. */
  predicate NoLongLine(lines: seq<string>, maxLine: nat) {
    forall i :: 0 <= i < |lines| ==> |lines[i]| <= maxLine
  }

  /** What a reader with `pending` text reads of `chunks` and the end of the stream. */
  function ReadOf(pending: string, chunks: seq<string>, maxLine: nat): (read: seq<string>)
    ensures |read| > 0
    decreases |chunks|
  {
    if chunks == [] then Split(pending)
    else
      var lines := Split(pending + chunks[0]);
      var last := lines[|lines| - 1];
      lines[..|lines| - 1] + ReadOf(if |last| > maxLine then "" else last, chunks[1..], maxLine)
  }

  lemma ReadOfNext(read: seq<string>, pending: string, chunks: seq<string>, i: nat, maxLine: nat)
    requires i < |chunks|
    ensures var lines := Split(pending + chunks[i]);
            var last := lines[|lines| - 1];
            read + ReadOf(pending, chunks[i..], maxLine) ==
            (read + lines[..|lines| - 1]) + ReadOf(if |last| > maxLine then "" else last, chunks[i + 1..], maxLine)
  {
    assert chunks[i..][0] == chunks[i] && chunks[i..][1..] == chunks[i + 1..];
  }

  /** A whole response: the chunks pass unchanged; the lines read are `ReadOf`; the model and cost
      noted are those of the last line naming each. */
  method ReadAll(reader: ModelReader, chunks: seq<string>)
    requires reader.Valid() && reader.pending == "" && reader.read == [] && reader.passed == []
    modifies reader
    ensures reader.passed == chunks
    ensures reader.read == ReadOf("", chunks, reader.maxLine)
    ensures reader.served == NoteAll(reader.first, ReadOf("", chunks, reader.maxLine), reader.frame)
  {
    var i := 0;
    assert chunks[0..] == chunks;
    assert [] + ReadOf("", chunks, reader.maxLine) == ReadOf("", chunks, reader.maxLine);
    while i < |chunks|
      invariant 0 <= i <= |chunks| && reader.Valid()
      invariant reader.passed == chunks[..i]
      invariant ReadOf("", chunks, reader.maxLine) == reader.read + ReadOf(reader.pending, chunks[i..], reader.maxLine)
    {
      ReadOfNext(reader.read, reader.pending, chunks, i, reader.maxLine);
      reader.Transform(chunks[i]);
      i := i + 1;
    }
    assert chunks[i..] == [] && chunks[..i] == chunks;
    reader.Flush();
  }

  function Init(lines: seq<string>): seq<string>
    requires lines != []
  {
    lines[..|lines| - 1]
  }

  function Last(lines: seq<string>): string
    requires lines != []
  {
    lines[|lines| - 1]
  }

  lemma NewlineBefore(lines: seq<string>, more: seq<string>)
    requires lines != []
    ensures Last([""] + lines) == Last(lines) && Init([""] + lines) == [""] + Init(lines)
    ensures [""] + (Init(lines) + more) == ([""] + Init(lines)) + more
  {
  }

  lemma LetterBefore(c: char, first: string, rest: seq<string>, more: seq<string>)
    requires c != NEWLINE && rest != []
    ensures Init([first] + rest) == [first] + Init(rest)
    ensures Before(c, [first] + Init(rest) + more) == [[c] + first] + Init(rest) + more
  {
    assert ([first] + Init(rest) + more)[1..] == Init(rest) + more;
    assert [[c] + first] + (Init(rest) + more) == [[c] + first] + Init(rest) + more;
  }

  lemma BeforeBoth(c: char, lines: seq<string>, more: seq<string>)
    requires more != [] && lines != [] && (c == NEWLINE || |lines| > 1)
    ensures Last(Before(c, lines)) == Last(lines)
    ensures Before(c, Init(lines) + more) == Init(Before(c, lines)) + more
  {
    if c == NEWLINE {
      NewlineBefore(lines, more);
    } else {
      assert lines == [lines[0]] + lines[1..];
      LetterBefore(c, lines[0], lines[1..], more);
      LetterBefore(c, [c] + lines[0], lines[1..], more);
    }
  }

  /** The last piece of what came so far is completed by what follows. */
  lemma {:induction false} SplitBoth(a: string, b: string)
    ensures Split(a + b) == Init(Split(a)) + Split(Last(Split(a)) + b)
    decreases |a|
  {
    if a == "" {
      assert a + b == b;
    } else {
      var rest := Split(a[1..]);
      assert (a + b)[1..] == a[1..] + b;
      SplitBoth(a[1..], b);
      if a[0] == NEWLINE || |rest| > 1 {
        BeforeBoth(a[0], rest, Split(Last(rest) + b));
      } else {
        LastOneGoesOn(a[0], rest[0], b);
        assert rest == [rest[0]] && Init(rest) == [];
      }
    }
  }

  lemma LastOneGoesOn(c: char, line: string, b: string)
    requires c != NEWLINE
    ensures Split([c] + line + b) == Before(c, Split(line + b))
  {
    assert ([c] + line + b)[1..] == line + b;
  }

  predicate Unbroken(line: string) {
    NEWLINE !in line
  }

  lemma {:induction false} NoNewlineInside(text: string, i: nat)
    requires i < |Split(text)|
    ensures Unbroken(Split(text)[i])
    decreases |text|
  {
    if text != "" {
      if text[0] == NEWLINE {
        if i > 0 {
          NoNewlineInside(text[1..], i - 1);
        }
      } else {
        NoNewlineInside(text[1..], i);
      }
    }
  }

  /** The lines with a newline between each two. */
  function WithNewlines(lines: seq<string>): string
    requires lines != []
    decreases |lines|
  {
    if |lines| == 1 then lines[0] else lines[0] + "\n" + WithNewlines(lines[1..])
  }

  lemma BeforeWithNewlines(c: char, lines: seq<string>)
    requires lines != []
    ensures WithNewlines(Before(c, lines)) == [c] + WithNewlines(lines)
  {
    if c == NEWLINE {
      assert Before(c, lines)[1..] == lines;
    } else {
      assert Before(c, lines)[1..] == lines[1..];
      if |lines| > 1 {
        assert ([c] + lines[0]) + "\n" + WithNewlines(lines[1..]) == [c] + (lines[0] + "\n" + WithNewlines(lines[1..]));
      }
    }
  }

  /** Splitting loses nothing: newlines between the lines, none of which holds one, give the text back. */
  lemma {:induction false} SplitGivesTextBack(text: string)
    ensures WithNewlines(Split(text)) == text
    ensures forall i :: 0 <= i < |Split(text)| ==> '\n' !in Split(text)[i]
    decreases |text|
  {
    if text != "" {
      SplitGivesTextBack(text[1..]);
      BeforeWithNewlines(text[0], Split(text[1..]));
    }
    forall i | 0 <= i < |Split(text)|
      ensures '\n' !in Split(text)[i]
    {
      NoNewlineInside(text, i);
    }
  }

  /** Text without a newline begins the first line of whatever continues it. */
  lemma {:induction false} BeginsFirstLine(line: string, more: string)
    requires Unbroken(line)
    ensures line <= Split(line + more)[0]
    ensures more == "" || more[0] == NEWLINE ==> Split(line + more)[0] == line
    decreases |line|
  {
    if line == "" {
      assert line + more == more;
    } else {
      assert (line + more)[1..] == line[1..] + more;
      assert forall c :: c in line[1..] ==> c in line;
      BeginsFirstLine(line[1..], more);
    }
  }

  /** With no line longer than the limit, a reader reads the lines of the whole text. */
  lemma {:induction false} LinesAreThoseOfTheText(pending: string, chunks: seq<string>, maxLine: nat)
    requires NoLongLine(Split(pending + Joined(chunks)), maxLine)
    ensures ReadOf(pending, chunks, maxLine) == Split(pending + Joined(chunks))
    decreases |chunks|
  {
    if chunks == [] {
      assert pending + "" == pending;
    } else {
      var more := Joined(chunks[1..]);
      var lines := Split(pending + chunks[0]);
      var last := lines[|lines| - 1];
      assert pending + Joined(chunks) == (pending + chunks[0]) + more;
      SplitBoth(pending + chunks[0], more);
      var whole := Split(pending + Joined(chunks));
      assert whole[|lines| - 1..] == Split(last + more);
      NoNewlineInside(pending + chunks[0], |lines| - 1);
      BeginsFirstLine(last, more);
      assert whole[|lines| - 1] == Split(last + more)[0];
      assert |last| <= maxLine;
      LinesAreThoseOfTheText(last, chunks[1..], maxLine);
    }
  }

  lemma LastGrows(c: char, lines: seq<string>)
    requires lines != []
    ensures |Last(Before(c, lines))| >= |Last(lines)|
  {
  }

  /** A character before the text leaves where it ends too long a line. */
  lemma EndsOneLater(text: string, end: nat)
    requires text != "" && end < |text|
    ensures |Last(Split(text[..end + 1]))| >= |Last(Split(text[1..][..end]))|
  {
    assert text[..end + 1][1..] == text[1..][..end];
    LastGrows(text[0], Split(text[1..][..end]));
  }

  /** Where a line longer than the limit ends. */
  lemma {:induction false} LongLineEnds(text: string, maxLine: nat) returns (end: nat)
    requires !NoLongLine(Split(text), maxLine)
    ensures end <= |text| && (end == |text| || text[end] == NEWLINE)
    ensures |Last(Split(text[..end]))| > maxLine
    decreases |text|
  {
    var rest := Split(text[1..]);
    if NoLongLine(rest, maxLine) {
      assert text[0] != NEWLINE;
      FirstLineEnds(text);
      end := |Split(text)[0]|;
    } else {
      end := LongLineEnds(text[1..], maxLine);
      EndsOneLater(text, end);
      end := end + 1;
    }
  }

  lemma {:induction false} FirstLineEnds(text: string)
    ensures var n := |Split(text)[0]|;
            n <= |text| && (n == |text| || text[n] == NEWLINE) && Split(text[..n]) == [Split(text)[0]]
    decreases |text|
  {
    if text != "" && text[0] != NEWLINE {
      FirstLineEnds(text[1..]);
      var n := |Split(text)[0]|;
      assert text[..n][1..] == text[1..][..n - 1];
    }
  }

  lemma OneChunkRead(b: string, maxLine: nat)
    ensures ReadOf("", [b], maxLine) == Init(Split(b)) + Split(if |Last(Split(b))| > maxLine then "" else Last(Split(b)))
  {
    assert [b][1..] == [] && "" + b == b;
  }

  /** What follows a line break, or nothing, begins with an empty line. */
  lemma FreshStartReadsEmpty(b: string, maxLine: nat)
    requires b == "" || b[0] == NEWLINE
    ensures ReadOf("", [b], maxLine)[0] == ""
  {
    OneChunkRead(b, maxLine);
    if b == "" {
      assert Split(b) == [""] && Init([""]) == [];
    } else {
      assert Init(Split(b))[0] == "";
    }
  }

  lemma JoinedTwo(a: string, b: string)
    ensures Joined([a, b]) == a + b
  {
    assert [a, b][1..] == [b] && [b][1..] == [] && b + "" == b;
    assert Joined([b]) == b + Joined([]);
  }

  /** Two chunks, cut where a line is already too long, are read without it. */
  lemma TwoChunksRead(a: string, b: string, maxLine: nat)
    requires |Last(Split(a))| > maxLine
    ensures ReadOf("", [a, b], maxLine) == Init(Split(a)) + ReadOf("", [b], maxLine)
  {
    assert [a, b][1..] == [b] && "" + a == a;
  }

  lemma LongLineSplit(a: string, b: string)
    requires b == "" || b[0] == NEWLINE
    ensures var n := |Split(a)| - 1;
            n < |Split(a + b)| && Split(a + b)[n] == Last(Split(a))
  {
    SplitBoth(a, b);
    LastGoesOn(a, b);
    assert |Init(Split(a))| == |Split(a)| - 1;
  }

  lemma LastGoesOn(a: string, b: string)
    requires b == "" || b[0] == NEWLINE
    ensures Split(Last(Split(a)) + b)[0] == Last(Split(a))
  {
    NoNewlineInside(a, |Split(a)| - 1);
    BeginsFirstLine(Last(Split(a)), b);
  }

  lemma LongLineRead(a: string, b: string, maxLine: nat)
    requires |Last(Split(a))| > maxLine && (b == "" || b[0] == NEWLINE)
    ensures var n := |Split(a)| - 1;
            n < |ReadOf("", [a, b], maxLine)| && ReadOf("", [a, b], maxLine)[n] == ""
  {
    FreshStartReadsEmpty(b, maxLine);
    TwoChunksRead(a, b, maxLine);
  }

  lemma LongLineIsLost(text: string, maxLine: nat) returns (chunks: seq<string>)
    requires !NoLongLine(Split(text), maxLine)
    ensures Joined(chunks) == text && ReadOf("", chunks, maxLine) != Split(text)
  {
    var end := LongLineEnds(text, maxLine);
    var a, b := text[..end], text[end..];
    chunks := [a, b];
    assert text == a + b;
    JoinedTwo(a, b);
    LongLineSplit(a, b);
    LongLineRead(a, b, maxLine);
  }

  /** A text's lines are read as they are however it is cut into chunks, if and only if none of them
      is longer than the limit. */
  lemma ChunksDoNotMatterExactlyWithoutLongLines(text: string, maxLine: nat)
    ensures (forall chunks :: Joined(chunks) == text ==> ReadOf("", chunks, maxLine) == Split(text))
            <==> NoLongLine(Split(text), maxLine)
  {
    if NoLongLine(Split(text), maxLine) {
      forall chunks | Joined(chunks) == text ensures ReadOf("", chunks, maxLine) == Split(text) {
        assert "" + Joined(chunks) == text;
        LinesAreThoseOfTheText("", chunks, maxLine);
      }
    } else {
      var chunks := LongLineIsLost(text, maxLine);
    }
  }

  predicate NamesModel(frame: string -> Named, line: string) {
    frame(line).model.Some?
  }

  predicate NamesCost(frame: string -> Named, line: string) {
    frame(line).cost.Some?
  }

  /** The last line that names a model says which is recorded; with none it stays as it was. So for the cost. */
  lemma {:induction false} LastNamedWins(served: Served, lines: seq<string>, frame: string -> Named, i: nat)
    ensures i < |lines| && NamesModel(frame, lines[i]) && (forall k :: i < k < |lines| ==> !NamesModel(frame, lines[k])) ==>
              NoteAll(served, lines, frame).model == frame(lines[i]).model
    ensures (forall k :: 0 <= k < |lines| ==> !NamesModel(frame, lines[k])) ==>
              NoteAll(served, lines, frame).model == served.model
    ensures i < |lines| && NamesCost(frame, lines[i]) && (forall k :: i < k < |lines| ==> !NamesCost(frame, lines[k])) ==>
              NoteAll(served, lines, frame).cost == frame(lines[i]).cost
    ensures (forall k :: 0 <= k < |lines| ==> !NamesCost(frame, lines[k])) ==>
              NoteAll(served, lines, frame).cost == served.cost
    decreases |lines|
  {
    if lines != [] {
      var n := |lines| - 1;
      assert lines == lines[..n] + [lines[n]];
      NoteOneMore(served, lines[..n], lines[n], frame);
      LastNamedWins(served, lines[..n], frame, i);
    }
  }
}
