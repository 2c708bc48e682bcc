/**
 * `paginate_message`: splitting a long message into chunks for the chat service, line by
 * line, and word by word inside a line that is longer than the limit. The word path is
 * modelled twice: as it is written, where a chunk can exceed the limit, and corrected,
 * where every chunk respects it. Both share the line path.
 */
module Pagination {
  import opened Text

  /** Which word path a line longer than the limit goes through. */
  datatype Mode = AsWritten | Corrected

  /** The loop state over lines: the chunks emitted so far and `current_chunk`. */
  datatype Acc = Acc(chunks: seq<string>, current: string)

  /** The loop state over the words of a long line, with `temp_line`. */
  datatype WordAcc = WordAcc(chunks: seq<string>, current: string, temp: string)

  /** `text += '\n' + x`, or `text = x` when `text` is empty. */
  function AddLine(text: string, x: string): string {
    if text != "" then text + "\n" + x else x
  }

  /** Emits the stripped current chunk, if there is one, and empties it. */
  function Flush(a: Acc): Acc {
    if a.current != "" then Acc(a.chunks + [Strip(a.current)], "") else a
  }

  /** One word of a long line, as the source handles it. */
  function WordStep(w: WordAcc, word: string, max: nat): WordAcc {
    if |w.temp| + |word| + 1 > max then
      if w.temp != "" then
        var current := AddLine(w.current, w.temp);
        if |current| > max then WordAcc(w.chunks + [Strip(current)], "", word)
        else WordAcc(w.chunks, current, word)
      else
        // a word that does not fit on its own: cut at the limit
        var f := Flush(Acc(w.chunks, w.current));
        WordAcc(f.chunks + [word[..max]], f.current, word[max..])
    else
      WordAcc(w.chunks, w.current, if w.temp != "" then w.temp + " " + word else word)
  }

  /** A word cut into pieces of at most `max` characters; only the last may be shorter. */
  function Pieces(word: string, max: nat): (p: seq<string>)
    requires max > 0
    ensures |p| >= 1
    ensures forall i :: 0 <= i < |p| ==> |p[i]| <= max
    decreases |word|
  {
    if |word| <= max then [word] else [word[..max]] + Pieces(word[max..], max)
  }

  /** Moves `temp_line` into the current chunk, emitting the chunk first when both do not fit together. */
  function MoveTemp(w: WordAcc, max: nat): WordAcc {
    if w.temp == "" then w
    else if w.current != "" && |w.current| + 1 + |w.temp| > max then
      WordAcc(w.chunks + [Strip(w.current)], w.temp, "")
    else WordAcc(w.chunks, AddLine(w.current, w.temp), "")
  }

  /** One word of a long line with the limit respected: chunks are emitted before they overflow, and long words are cut into as many pieces as needed. */
  function WordStepCorrected(w: WordAcc, word: string, max: nat): WordAcc
    requires max > 0
  {
    if |w.temp| + |word| + 1 <= max then
      WordAcc(w.chunks, w.current, if w.temp != "" then w.temp + " " + word else word)
    else
      var m := MoveTemp(w, max);
      if |word| <= max then m.(temp := word)
      else
        var f := Flush(Acc(m.chunks, m.current));
        var p := Pieces(word, max);
        WordAcc(f.chunks + p[..|p| - 1], "", p[|p| - 1])
  }

  function WordsFold(w: WordAcc, words: seq<string>, max: nat, mode: Mode): WordAcc
    requires mode == Corrected ==> max > 0
    decreases |words|
  {
    if words == [] then w
    else
      var prev := WordsFold(w, words[..|words| - 1], max, mode);
      var word := words[|words| - 1];
      if mode == AsWritten then WordStep(prev, word, max) else WordStepCorrected(prev, word, max)
  }

  /** A line longer than the limit, split at its spaces. */
  function LongLine(a: Acc, line: string, max: nat, mode: Mode): Acc
    requires mode == Corrected ==> max > 0
  {
    var w := WordsFold(WordAcc(a.chunks, a.current, ""), Split(line, ' '), max, mode);
    if mode == AsWritten then Acc(w.chunks, if w.temp != "" then AddLine(w.current, w.temp) else w.current)
    else var m := MoveTemp(w, max); Acc(m.chunks, m.current)
  }

  /** One line of the content. */
  function LineStep(a: Acc, line: string, max: nat, mode: Mode): Acc
    requires mode == Corrected ==> max > 0
  {
    if |a.current| + |line| + 1 > max then
      var f := Flush(a);
      if |line| > max then LongLine(f, line, max, mode) else Acc(f.chunks, line)
    else Acc(a.chunks, AddLine(a.current, line))
  }

  function LinesFold(lines: seq<string>, max: nat, mode: Mode): Acc
    requires mode == Corrected ==> max > 0
    decreases |lines|
  {
    if lines == [] then Acc([], "")
    else LineStep(LinesFold(lines[..|lines| - 1], max, mode), lines[|lines| - 1], max, mode)
  }

  function PaginateWith(content: string, max: nat, mode: Mode): seq<string>
    requires mode == Corrected ==> max > 0
  {
    if |content| <= max then [content]
    else Flush(LinesFold(Split(content, '\n'), max, mode)).chunks
  }

  /** `paginate_message(content, max_length)` as the source computes it. */
  function Paginate(content: string, max: nat): seq<string> {
    PaginateWith(content, max, AsWritten)
  }

  /** `paginate_message` with the word path corrected. */
  function PaginateCorrected(content: string, max: nat): seq<string>
    requires max > 0
  {
    PaginateWith(content, max, Corrected)
  }

  /** The source's loops: lines, and the words of each long line. */
  method PaginateMessage(content: string, maxLength: nat) returns (chunks: seq<string>)
    ensures chunks == Paginate(content, maxLength)
  {
    if |content| <= maxLength {
      return [content];
    }
    chunks := [];
    var current := "";
    var lines := Split(content, '\n');
    var i := 0;
    while i < |lines|
      invariant 0 <= i <= |lines|
      invariant Acc(chunks, current) == LinesFold(lines[..i], maxLength, AsWritten)
    {
      var line := lines[i];
      assert lines[..i + 1][..i] == lines[..i];
      if |current| + |line| + 1 > maxLength {
        if current != "" {
          chunks := chunks + [Strip(current)];
          current := "";
        }
        if |line| > maxLength {
          chunks, current := PaginateLongLine(chunks, current, line, maxLength);
        } else {
          current := line;
        }
      } else {
        if current != "" {
          current := current + "\n" + line;
        } else {
          current := line;
        }
      }
      i := i + 1;
    }
    assert lines[..i] == lines;
    if current != "" {
      chunks := chunks + [Strip(current)];
    }
  }

  /** The inner loop of `paginate_message`: the words of one line longer than the limit. */
  method PaginateLongLine(chunks0: seq<string>, current0: string, line: string, maxLength: nat)
    returns (chunks: seq<string>, current: string)
    ensures Acc(chunks, current) == LongLine(Acc(chunks0, current0), line, maxLength, AsWritten)
  {
    chunks, current := chunks0, current0;
    var words := Split(line, ' ');
    var temp := "";
    var start := WordAcc(chunks, current, "");
    var j := 0;
    while j < |words|
      invariant 0 <= j <= |words|
      invariant WordAcc(chunks, current, temp) == WordsFold(start, words[..j], maxLength, AsWritten)
    {
      var word := words[j];
      assert words[..j + 1][..j] == words[..j];
      if |temp| + |word| + 1 > maxLength {
        if temp != "" {
          if current != "" {
            current := current + "\n" + temp;
          } else {
            current := temp;
          }
          if |current| > maxLength {
            chunks := chunks + [Strip(current)];
            current := "";
          }
          temp := word;
        } else {
          if current != "" {
            chunks := chunks + [Strip(current)];
            current := "";
          }
          chunks := chunks + [word[..maxLength]];
          temp := word[maxLength..];
        }
      } else {
        if temp != "" {
          temp := temp + " " + word;
        } else {
          temp := word;
        }
      }
      j := j + 1;
    }
    assert words[..j] == words;
    if temp != "" {
      if current != "" {
        current := current + "\n" + temp;
      } else {
        current := temp;
      }
    }
  }

  // ---------------------------------------------------------------------------
  // Properties

  predicate Bounded(chunks: seq<string>, max: nat) {
    forall i :: 0 <= i < |chunks| ==> |chunks[i]| <= max
  }

  predicate LinesWithin(content: string, max: nat) {
    forall i :: 0 <= i < |Split(content, '\n')| ==> |Split(content, '\n')[i]| <= max
  }

  predicate AccWithin(a: Acc, max: nat) {
    Bounded(a.chunks, max) && |a.current| <= max
  }

  predicate WordAccWithin(w: WordAcc, max: nat) {
    Bounded(w.chunks, max) && |w.current| <= max && |w.temp| <= max
  }

  /** Content that fits is sent as it is, in one chunk. */
  lemma ShortContentIsOneChunk(content: string, max: nat)
    requires |content| <= max
    ensures Paginate(content, max) == [content]
  {
  }

  /** The corrected word path keeps every chunk, the current chunk and `temp_line` within the limit. */
  lemma {:induction false} WordsFoldCorrectedWithin(w: WordAcc, words: seq<string>, max: nat)
    requires max > 0 && WordAccWithin(w, max)
    ensures WordAccWithin(WordsFold(w, words, max, Corrected), max)
    decreases |words|
  {
    if words != [] {
      WordsFoldCorrectedWithin(w, words[..|words| - 1], max);
    }
  }

  /**
   * The line path keeps the limit. A long line keeps it too on the corrected word path;
   * on the path as written it does so only when no line is long.
   */
  lemma {:induction false} LinesFoldWithin(lines: seq<string>, max: nat, mode: Mode)
    requires mode == Corrected ==> max > 0
    requires mode == AsWritten ==> forall i :: 0 <= i < |lines| ==> |lines[i]| <= max
    ensures AccWithin(LinesFold(lines, max, mode), max)
    decreases |lines|
  {
    if lines != [] {
      var front := lines[..|lines| - 1];
      LinesFoldWithin(front, max, mode);
      var a := LinesFold(front, max, mode);
      var line := lines[|lines| - 1];
      if |a.current| + |line| + 1 > max && |line| > max {
        var f := Flush(a);
        WordsFoldCorrectedWithin(WordAcc(f.chunks, f.current, ""), Split(line, ' '), max);
      }
    }
  }

  /** When every line of the content fits, so does every chunk. */
  lemma PaginateBounded(content: string, max: nat)
    requires LinesWithin(content, max)
    ensures Bounded(Paginate(content, max), max)
  {
    if |content| > max {
      LinesFoldWithin(Split(content, '\n'), max, AsWritten);
    }
  }

  /** With the corrected word path every chunk fits, whatever the content. */
  lemma PaginateCorrectedBounded(content: string, max: nat)
    requires max > 0
    ensures Bounded(PaginateCorrected(content, max), max)
  {
    if |content| > max {
      LinesFoldWithin(Split(content, '\n'), max, Corrected);
    }
  }

  lemma {:induction false} LinesFoldModesAgree(lines: seq<string>, max: nat)
    requires max > 0
    requires forall i :: 0 <= i < |lines| ==> |lines[i]| <= max
    ensures LinesFold(lines, max, Corrected) == LinesFold(lines, max, AsWritten)
    decreases |lines|
  {
    if lines != [] {
      LinesFoldModesAgree(lines[..|lines| - 1], max);
    }
  }

  /** The correction only touches long lines: when every line fits, both paginations agree. */
  lemma CorrectedAgreesOnShortLines(content: string, max: nat)
    requires max > 0 && LinesWithin(content, max)
    ensures PaginateCorrected(content, max) == Paginate(content, max)
  {
    LinesFoldModesAgree(Split(content, '\n'), max);
  }

  /** A single word longer than the limit is cut: its first `max` characters form the first chunk. */
  lemma LongWordIsCut(word: string, max: nat)
    requires ' ' !in word && '\n' !in word && |word| > max
    ensures Paginate(word, max) == [word[..max], Strip(word[max..])]
  {
    SplitWithoutSep(word, '\n');
    SplitWithoutSep(word, ' ');
    var start := WordAcc([], "", "");
    assert [word][..0] == [];
    assert WordsFold(start, [word][..0], max, AsWritten) == start;
    assert WordStep(start, word, max) == WordAcc([word[..max]], "", word[max..]);
    var w := WordsFold(start, [word], max, AsWritten);
    assert w == WordAcc([word[..max]], "", word[max..]);
    assert LinesFold([word], max, AsWritten) == Acc([word[..max]], word[max..]);
  }

  /** `s.strip()` leaves a string that neither starts nor ends with a blank as it is. */
  lemma StripKeeps(s: string)
    requires |s| > 0 && !IsSpace(s[0]) && !IsSpace(s[|s| - 1])
    ensures Strip(s) == s
  {
  }

  /**
   * On the word path as written, two words that do not fit on one line come back joined
   * by a newline in a single chunk, longer than the limit: "aaaa bbbb" with a limit of 5
   * gives the one chunk "aaaa\nbbbb".
   */
  lemma OverlongChunkAsWritten(a: string, b: string, max: nat)
    requires |a| > 0 && |b| > 0 && ' ' !in a + b && '\n' !in a + b
    requires !IsSpace(a[0]) && !IsSpace(b[|b| - 1])
    requires |a| + 1 <= max && |b| <= max && |a| + 1 + |b| > max
    ensures Paginate(a + " " + b, max) == [a + "\n" + b]
    ensures |Paginate(a + " " + b, max)[0]| > max
  {
    var content := a + " " + b;
    assert '\n' !in content by {
      assert forall c :: c in content ==> c in a + b || c == ' ';
    }
    SplitWithoutSep(content, '\n');
    assert ' ' !in a && ' ' !in b by {
      assert forall c :: c in a || c in b ==> c in a + b;
    }
    SplitAtFirstSep(a, ' ', b);
    SplitWithoutSep(b, ' ');
    var words := [a, b];
    var start := WordAcc([], "", "");
    assert words[..1] == [a];
    assert [a][..0] == [];
    assert WordsFold(start, [a][..0], max, AsWritten) == start;
    assert WordsFold(start, words[..1], max, AsWritten) == WordAcc([], "", a);
    assert WordsFold(start, words, max, AsWritten) == WordAcc([], a, b);
    assert [content][..0] == [];
    assert LinesFold([content], max, AsWritten) == Acc([], a + "\n" + b);
    var joined := a + "\n" + b;
    assert joined[0] == a[0] && joined[|joined| - 1] == b[|b| - 1];
    StripKeeps(joined);
  }

  /** A line that fits, is not empty, and neither starts nor ends with a blank. */
  predicate PlainLine(line: string, max: nat) {
    0 < |line| <= max && !IsSpace(line[0]) && !IsSpace(line[|line| - 1])
  }

  /** One fitting line added after a non-empty chunk: joined with newlines, nothing moves. */
  lemma RejoinStep(a: Acc, line: string, max: nat)
    requires PlainLine(line, max)
    requires PlainLine(a.current, |a.current|)
    ensures var b := LineStep(a, line, max, AsWritten);
      && PlainLine(b.current, |b.current|)
      && Join(b.chunks + [b.current], '\n') == Join(a.chunks + [a.current], '\n') + "\n" + line
  {
    if |a.current| + |line| + 1 > max {
      StripKeeps(a.current);
      JoinSnoc(a.chunks + [a.current], line, '\n');
    } else {
      var joined := a.current + "\n" + line;
      assert joined[0] == a.current[0] && joined[|joined| - 1] == line[|line| - 1];
      if a.chunks != [] {
        JoinSnoc(a.chunks, joined, '\n');
        JoinSnoc(a.chunks, a.current, '\n');
      }
    }
  }

  lemma {:induction false} LinesFoldRejoins(lines: seq<string>, max: nat)
    requires |lines| > 0
    requires forall i :: 0 <= i < |lines| ==> PlainLine(lines[i], max)
    ensures var a := LinesFold(lines, max, AsWritten);
      && PlainLine(a.current, |a.current|)
      && Join(a.chunks + [a.current], '\n') == Join(lines, '\n')
    decreases |lines|
  {
    var front := lines[..|lines| - 1];
    var line := lines[|lines| - 1];
    assert lines == front + [line];
    if front != [] {
      LinesFoldRejoins(front, max);
      JoinSnoc(front, line, '\n');
      RejoinStep(LinesFold(front, max, AsWritten), line, max);
    }
  }

  /**
   * When every line fits, is not empty and carries no blanks at its ends, the chunks
   * joined with newlines give back the content: no line is lost, repeated or moved.
   */
  lemma PaginateRejoins(content: string, max: nat)
    requires forall i :: 0 <= i < |Split(content, '\n')| ==> PlainLine(Split(content, '\n')[i], max)
    ensures Join(Paginate(content, max), '\n') == content
  {
    if |content| > max {
      var lines := Split(content, '\n');
      LinesFoldRejoins(lines, max);
      var a := LinesFold(lines, max, AsWritten);
      StripKeeps(a.current);
      JoinSplit(content, '\n');
    }
  }
}
