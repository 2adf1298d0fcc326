/** Splitting a text into plain and highlighted pieces from the positions where
    a regular expression matched it. The positions are what the host engine's
    `matchAll` returns, given here as an input: each match is its start index
    and the length of the matched text. */
module Highlight {

  /** A piece of the output: text shown as is, or text shown highlighted. */
  datatype Piece = Plain(text: string) | Marked(text: string)

  /** One match: `match.index` and `match[0].length`. */
  datatype Match = Match(index: nat, length: nat)

  function End(m: Match): nat
  {
    m.index + m.length
  }

  /** String slicing with non-negative bounds: the end is clamped to the
      text, and the result is empty when the start is not below the end. */
  function Slice(s: string, from: nat, to: nat): (r: string)
    ensures from <= to <= |s| ==> r == s[from..to]
    ensures from < |s| && from < to ==> |r| > 0
    ensures |r| <= |s|
  {
    var hi := if to < |s| then to else |s|;
    if from < hi then s[from..hi] else ""
  }

  /** Every match lies inside the text. */
  predicate Within(text: string, matches: seq<Match>)
  {
    forall i :: 0 <= i < |matches| ==> End(matches[i]) <= |text|
  }

  /** The matches lie inside the text, in ascending order, without overlap, as
      `matchAll` yields them (empty matches included). */
  predicate Ordered(text: string, matches: seq<Match>)
  {
    Within(text, matches) &&
    forall i, j :: 0 <= i < j < |matches| ==> End(matches[i]) <= matches[j].index
  }

  /** The pieces' texts joined in order. */
  function Concat(pieces: seq<Piece>): string
  {
    if pieces == [] then "" else Concat(pieces[..|pieces| - 1]) + pieces[|pieces| - 1].text
  }

  /** The texts of the highlighted pieces, in order. */
  function MarkedTexts(pieces: seq<Piece>): seq<string>
  {
    if pieces == [] then []
    else
      var last := pieces[|pieces| - 1];
      MarkedTexts(pieces[..|pieces| - 1]) + (if last.Marked? then [last.text] else [])
  }

  /** Where each highlighted piece starts in the joined text, in order. */
  function MarkStarts(pieces: seq<Piece>): seq<nat>
  {
    if pieces == [] then []
    else
      var init := pieces[..|pieces| - 1];
      MarkStarts(init) + (if pieces[|pieces| - 1].Marked? then [|Concat(init)|] else [])
  }

  /** The start index of each match, in order. */
  function Starts(matches: seq<Match>): (r: seq<nat>)
    ensures |r| == |matches|
    ensures forall k :: 0 <= k < |r| ==> r[k] == matches[k].index
  {
    if matches == [] then [] else Starts(matches[..|matches| - 1]) + [matches[|matches| - 1].index]
  }

  /** No plain piece is empty. */
  predicate NoEmptyPlain(pieces: seq<Piece>)
  {
    forall i :: 0 <= i < |pieces| && pieces[i].Plain? ==> pieces[i].text != ""
  }

  /** The matched slice of the text for each match, in order. */
  function MatchedTexts(text: string, matches: seq<Match>): (r: seq<string>)
    ensures |r| == |matches|
    ensures forall k :: 0 <= k < |r| ==> r[k] == Slice(text, matches[k].index, End(matches[k]))
  {
    if matches == [] then []
    else
      var last := matches[|matches| - 1];
      MatchedTexts(text, matches[..|matches| - 1]) + [Slice(text, last.index, End(last))]
  }

  lemma AppendPiece(pieces: seq<Piece>, p: Piece)
    ensures Concat(pieces + [p]) == Concat(pieces) + p.text
    ensures MarkedTexts(pieces + [p]) == MarkedTexts(pieces) + (if p.Marked? then [p.text] else [])
    ensures MarkStarts(pieces + [p]) == MarkStarts(pieces) + (if p.Marked? then [|Concat(pieces)|] else [])
  {
    assert (pieces + [p])[..|pieces|] == pieces;
  }

  /** For matches inside the text, each matched slice is exactly the text
      between the match's start and end. */
  lemma MatchedTextsWithin(text: string, matches: seq<Match>)
    requires Within(text, matches)
    ensures forall k :: 0 <= k < |matches| ==>
              MatchedTexts(text, matches)[k] == text[matches[k].index..End(matches[k])]
  {
  }

  /** One turn of the segmentation loop: the plain gap before the match (if
      any) and the highlighted match itself. */
  function Turn(text: string, lastIndex: nat, m: Match): (added: seq<Piece>)
  {
    (if m.index > lastIndex then [Plain(Slice(text, lastIndex, m.index))] else [])
    + [Marked(Slice(text, m.index, End(m)))]
  }

  /** One turn adds exactly the match's slice to the highlighted texts. */
  lemma TurnMarks(text: string, pieces: seq<Piece>, lastIndex: nat, m: Match)
    ensures MarkedTexts(pieces + Turn(text, lastIndex, m))
            == MarkedTexts(pieces) + [Slice(text, m.index, End(m))]
  {
    var mark := Marked(Slice(text, m.index, End(m)));
    if m.index > lastIndex {
      var gap := Plain(Slice(text, lastIndex, m.index));
      assert pieces + Turn(text, lastIndex, m) == (pieces + [gap]) + [mark];
      AppendPiece(pieces, gap);
      AppendPiece(pieces + [gap], mark);
    } else {
      AppendPiece(pieces, mark);
    }
  }

  /** The gap piece of a turn is pushed only when it is not empty. */
  lemma TurnPlain(text: string, pieces: seq<Piece>, lastIndex: nat, m: Match)
    requires lastIndex <= |text| && End(m) <= |text| && NoEmptyPlain(pieces)
    ensures NoEmptyPlain(pieces + Turn(text, lastIndex, m))
  {
    var mark := Marked(Slice(text, m.index, End(m)));
    if m.index > lastIndex {
      var gap := Plain(Slice(text, lastIndex, m.index));
      assert pieces + Turn(text, lastIndex, m) == (pieces + [gap]) + [mark];
      AppendNonEmptyPlain(pieces, gap.text);
    }
  }

  /** For a match at or after the cursor, a turn extends the joined text to
      the match's end, and its highlighted piece starts at the match's index. */
  lemma TurnJoin(text: string, pieces: seq<Piece>, lastIndex: nat, m: Match)
    requires lastIndex <= m.index && End(m) <= |text| && Concat(pieces) == text[..lastIndex]
    ensures Concat(pieces + Turn(text, lastIndex, m)) == text[..End(m)]
    ensures MarkStarts(pieces + Turn(text, lastIndex, m)) == MarkStarts(pieces) + [m.index]
  {
    var mark := Marked(Slice(text, m.index, End(m)));
    if m.index > lastIndex {
      var gap := Plain(Slice(text, lastIndex, m.index));
      assert pieces + Turn(text, lastIndex, m) == (pieces + [gap]) + [mark];
      AppendPiece(pieces, gap);
      assert Concat(pieces + [gap]) == text[..m.index] by {
        assert text[..lastIndex] + text[lastIndex..m.index] == text[..m.index];
      }
      AppendPiece(pieces + [gap], mark);
      assert text[..m.index] + text[m.index..End(m)] == text[..End(m)];
    } else {
      AppendPiece(pieces, mark);
      assert text[..lastIndex] + text[lastIndex..End(m)] == text[..End(m)];
    }
  }

  /** The pieces the component renders for `text`. With no expression, or
      when disabled, or when nothing matched, the text is one plain piece;
      otherwise the text is split at the matches. */
  method Segment(text: string, hasRegex: bool, disabled: bool, matches: seq<Match>)
    returns (pieces: seq<Piece>)
    ensures !hasRegex || disabled || |matches| == 0 ==> pieces == [Plain(text)]
    ensures hasRegex && !disabled && |matches| > 0 ==>
              MarkedTexts(pieces) == MatchedTexts(text, matches)
    ensures hasRegex && !disabled && |matches| > 0 && Within(text, matches) ==>
              NoEmptyPlain(pieces)
    ensures Ordered(text, matches) ==> Concat(pieces) == text
    ensures hasRegex && !disabled && Ordered(text, matches) ==> MarkStarts(pieces) == Starts(matches)
  {
    if !hasRegex || disabled || |matches| == 0 {
      pieces := [Plain(text)];
      assert Concat(pieces) == Concat([]) + text;
      assert MarkStarts(pieces) == [];
      return;
    }
    pieces := SplitAtMatches(text, matches);
  }

  /** What the segmentation loop has built after the first `i` matches, with
      `lastIndex` the end of the last match handled. */
  predicate Progress(text: string, matches: seq<Match>, i: nat, pieces: seq<Piece>, lastIndex: nat)
    requires i <= |matches|
  {
    lastIndex == (if i == 0 then 0 else End(matches[i - 1])) &&
    MarkedTexts(pieces) == MatchedTexts(text, matches[..i]) &&
    (Within(text, matches) ==> lastIndex <= |text| && NoEmptyPlain(pieces)) &&
    (Ordered(text, matches) ==> Concat(pieces) == text[..lastIndex] && MarkStarts(pieces) == Starts(matches[..i]))
  }

  lemma ProgressStep(text: string, matches: seq<Match>, i: nat, pieces: seq<Piece>, lastIndex: nat)
    requires i < |matches| && Progress(text, matches, i, pieces, lastIndex)
    ensures Progress(text, matches, i + 1, pieces + Turn(text, lastIndex, matches[i]), End(matches[i]))
    ensures Ordered(text, matches) ==> lastIndex <= matches[i].index <= End(matches[i])
  {
    var m := matches[i];
    TurnMarks(text, pieces, lastIndex, m);
    if Within(text, matches) {
      TurnPlain(text, pieces, lastIndex, m);
    }
    if Ordered(text, matches) {
      if i > 0 {
        assert End(matches[i - 1]) <= m.index;
      }
      TurnJoin(text, pieces, lastIndex, m);
    }
    assert matches[..i + 1][..i] == matches[..i];
    assert MatchedTexts(text, matches[..i + 1])
           == MatchedTexts(text, matches[..i]) + [Slice(text, m.index, End(m))];
    assert Starts(matches[..i + 1]) == Starts(matches[..i]) + [m.index];
  }

  lemma AppendNonEmptyPlain(pieces: seq<Piece>, t: string)
    requires NoEmptyPlain(pieces) && t != ""
    ensures NoEmptyPlain(pieces + [Plain(t)])
  {
  }

  /** The trailing plain piece after the last match, when there is text left. */
  function Tail(text: string, pieces: seq<Piece>, lastIndex: nat): seq<Piece>
  {
    if lastIndex < |text| then pieces + [Plain(Slice(text, lastIndex, |text|))] else pieces
  }

  /** The trailing piece adds no highlighted piece. */
  lemma FinishMarks(text: string, pieces: seq<Piece>, lastIndex: nat)
    ensures MarkedTexts(Tail(text, pieces, lastIndex)) == MarkedTexts(pieces)
    ensures MarkStarts(Tail(text, pieces, lastIndex)) == MarkStarts(pieces)
  {
    if lastIndex < |text| {
      AppendPiece(pieces, Plain(Slice(text, lastIndex, |text|)));
    }
  }

  /** The trailing piece, pushed only when text is left, is not empty. */
  lemma FinishPlain(text: string, pieces: seq<Piece>, lastIndex: nat)
    requires NoEmptyPlain(pieces)
    ensures NoEmptyPlain(Tail(text, pieces, lastIndex))
  {
    if lastIndex < |text| {
      AppendNonEmptyPlain(pieces, Slice(text, lastIndex, |text|));
    }
  }

  /** The trailing piece completes the text. */
  lemma FinishConcat(text: string, pieces: seq<Piece>, lastIndex: nat)
    requires lastIndex <= |text| && Concat(pieces) == text[..lastIndex]
    ensures Concat(Tail(text, pieces, lastIndex)) == text
  {
    if lastIndex < |text| {
      var tail := Slice(text, lastIndex, |text|);
      AppendPiece(pieces, Plain(tail));
      assert tail == text[lastIndex..];
      assert text[..lastIndex] + text[lastIndex..] == text;
    } else {
      assert text[..lastIndex] == text;
    }
  }

  /** After the loop, the trailing piece completes the output. */
  lemma Finish(text: string, matches: seq<Match>, pieces: seq<Piece>, lastIndex: nat)
    requires Progress(text, matches, |matches|, pieces, lastIndex)
    ensures var out := Tail(text, pieces, lastIndex);
            MarkedTexts(out) == MatchedTexts(text, matches) &&
            (Within(text, matches) ==> NoEmptyPlain(out)) &&
            (Ordered(text, matches) ==> Concat(out) == text && MarkStarts(out) == Starts(matches))
  {
    assert matches[..|matches|] == matches;
    FinishMarks(text, pieces, lastIndex);
    if Within(text, matches) {
      FinishPlain(text, pieces, lastIndex);
    }
    if Ordered(text, matches) {
      FinishConcat(text, pieces, lastIndex);
    }
  }

  /** One turn of the loop: the plain text between the cursor and the match,
      when the match starts after the cursor, then the highlighted match. */
  method PushTurn(text: string, pieces: seq<Piece>, lastIndex: nat, m: Match)
    returns (next: seq<Piece>)
    ensures next == pieces + Turn(text, lastIndex, m)
  {
    var start := m.index;
    var end := start + m.length;
    next := pieces;
    if start > lastIndex {
      next := next + [Plain(Slice(text, lastIndex, start))];
    }
    next := next + [Marked(Slice(text, start, end))];
  }

  /** After the loop: the plain text after the last match, when there is any. */
  method PushTail(text: string, pieces: seq<Piece>, lastIndex: nat) returns (out: seq<Piece>)
    ensures out == Tail(text, pieces, lastIndex)
  {
    out := pieces;
    if lastIndex < |text| {
      out := out + [Plain(Slice(text, lastIndex, |text|))];
    }
  }

  /** The segmentation loop: each match contributes a highlighted piece,
      preceded by the plain text between it and the previous match when there
      is any, and the plain text after the last match closes the list when
      there is any. */
  method SplitAtMatches(text: string, matches: seq<Match>) returns (pieces: seq<Piece>)
    ensures MarkedTexts(pieces) == MatchedTexts(text, matches)
    ensures Within(text, matches) ==> NoEmptyPlain(pieces)
    ensures Ordered(text, matches) ==> Concat(pieces) == text
    ensures Ordered(text, matches) ==> MarkStarts(pieces) == Starts(matches)
  {
    pieces := [];
    var lastIndex: nat := 0;
    var i := 0;
    while i < |matches|
      invariant 0 <= i <= |matches|
      invariant Progress(text, matches, i, pieces, lastIndex)
    {
      ProgressStep(text, matches, i, pieces, lastIndex);
      pieces := PushTurn(text, pieces, lastIndex, matches[i]);
      lastIndex := End(matches[i]);
      i := i + 1;
    }
    Finish(text, matches, pieces, lastIndex);
    pieces := PushTail(text, pieces, lastIndex);
  }
}
