/** The break-point selector of the title wrapper (`_find_best_break_point`):
    given a line buffer that overflowed, choose where to split it. */
module BreakPoint {
  import opened Wrappers
  import opened CharClass
  import opened Kinsoku

  /** A surviving split position and its score (the source's `(pos, score)`). */
  datatype Candidate = Candidate(pos: nat, score: int)

  /** `full_text[next_char_idx]`, or `None` where the source uses `""`. */
  function NextChar(text: string, idx: nat): (r: Option<char>)
    ensures r.Some? <==> idx < |text|
    ensures r.Some? ==> r.value == text[idx]
  {
    if idx < |text| then Some(text[idx]) else None
  }

  /** The character that would start the next line if the buffer were split
      after its first `p` characters. */
  function Starter(line: string, next: Option<char>, p: nat): Option<char>
    requires 1 <= p <= |line|
  {
    if p < |line| then Some(line[p]) else next
  }

  predicate StartAllowed(o: Option<char>) {
    o.None? || !LineStartProhibited(o.value)
  }

  /** A split after `p` characters survives both prohibition tables. */
  predicate Admissible(line: string, next: Option<char>, p: nat) {
    && 1 <= p <= |line|
    && StartAllowed(Starter(line, next, p))
    && !LineEndProhibited(line[p - 1])
  }

  /** Class of a possibly missing character; the source's `""` is "other". */
  function TypeOf(o: Option<char>): CharType {
    if o.None? then Other else GetCharType(o.value)
  }

  /** The script-transition part of a candidate's score. */
  function PairScore(endType: CharType, startType: CharType): int {
    (if endType == Kanji && startType == Kanji then -100 else 0)
    + (if endType == Katakana && startType == Katakana then -50 else 0)
    + (if endType == Alpha && startType == Alpha then -50 else 0)
    + (if endType == Hiragana && startType == Kanji then 30 else 0)
    + (if endType != startType then 10 else 0)
  }

  /** Score of splitting after `p` characters: the transition score plus `p`. */
  function Score(line: string, next: Option<char>, p: nat): int
    requires 1 <= p <= |line|
  {
    PairScore(GetCharType(line[p - 1]), TypeOf(Starter(line, next, p))) + p
  }

  /** The transition score lies between -100 (inside a kanji run) and 40
      (hiragana followed by kanji); it is negative exactly for a break inside
      a run of kanji, katakana or ASCII letters, and a break between two
      different classes scores at least 10. */
  lemma PairScoreRange(e: CharType, s: CharType)
    ensures -100 <= PairScore(e, s) <= 40
    ensures PairScore(e, s) == 40 <==> e == Hiragana && s == Kanji
    ensures PairScore(e, s) < 0 <==> e == s && e in {Kanji, Katakana, Alpha}
    ensures e != s ==> PairScore(e, s) >= 10
  {
  }

  /** The candidates among positions `|line|` down to `k + 1`, in the order
      the source's loop appends them (highest position first). */
  function CandidatesAbove(line: string, next: Option<char>, k: nat): seq<Candidate>
    decreases |line| - k
  {
    if k >= |line| then []
    else
      CandidatesAbove(line, next, k + 1)
      + (if Admissible(line, next, k + 1) then [Candidate(k + 1, Score(line, next, k + 1))] else [])
  }

  function Candidates(line: string, next: Option<char>): seq<Candidate> {
    CandidatesAbove(line, next, 0)
  }

  /** The candidate list holds exactly the admissible positions above `k`,
      each with its score, in strictly decreasing position. */
  lemma CandidatesAboveExact(line: string, next: Option<char>, k: nat)
    ensures forall j :: 0 <= j < |CandidatesAbove(line, next, k)| ==>
              var c := CandidatesAbove(line, next, k)[j];
              k < c.pos && Admissible(line, next, c.pos) && c.score == Score(line, next, c.pos)
    ensures forall i, j :: 0 <= i < j < |CandidatesAbove(line, next, k)| ==>
              CandidatesAbove(line, next, k)[i].pos > CandidatesAbove(line, next, k)[j].pos
    ensures forall p: nat :: k < p && Admissible(line, next, p) ==>
              Candidate(p, Score(line, next, p)) in CandidatesAbove(line, next, k)
  {
    CandidatesAboveSound(line, next, k);
    CandidatesAboveOrdered(line, next, k);
    CandidatesAboveComplete(line, next, k);
  }

  /** Every listed candidate is an admissible position above `k` with its
      score. */
  lemma {:induction false} CandidatesAboveSound(line: string, next: Option<char>, k: nat)
    ensures forall j :: 0 <= j < |CandidatesAbove(line, next, k)| ==>
              var c := CandidatesAbove(line, next, k)[j];
              k < c.pos && Admissible(line, next, c.pos) && c.score == Score(line, next, c.pos)
    decreases |line| - k
  {
    if k < |line| {
      var rest := CandidatesAbove(line, next, k + 1);
      CandidatesAboveSound(line, next, k + 1);
      if Admissible(line, next, k + 1) {
        assert CandidatesAbove(line, next, k) == rest + [Candidate(k + 1, Score(line, next, k + 1))];
      } else {
        assert CandidatesAbove(line, next, k) == rest;
      }
    }
  }

  /** The candidates come in strictly decreasing position. */
  lemma {:induction false} CandidatesAboveOrdered(line: string, next: Option<char>, k: nat)
    ensures forall i, j :: 0 <= i < j < |CandidatesAbove(line, next, k)| ==>
              CandidatesAbove(line, next, k)[i].pos > CandidatesAbove(line, next, k)[j].pos
    decreases |line| - k
  {
    if k < |line| && Admissible(line, next, k + 1) {
      var rest := CandidatesAbove(line, next, k + 1);
      var cs := rest + [Candidate(k + 1, Score(line, next, k + 1))];
      CandidatesAboveOrdered(line, next, k + 1);
      CandidatesAboveSound(line, next, k + 1);
      assert CandidatesAbove(line, next, k) == cs;
      forall i, j | 0 <= i < j < |cs|
        ensures cs[i].pos > cs[j].pos
      {
        assert cs[i] == rest[i];
        if j < |rest| {
          assert cs[j] == rest[j];
        }
      }
    } else if k < |line| {
      CandidatesAboveOrdered(line, next, k + 1);
    }
  }

  /** Every admissible position above `k` is listed with its score. */
  lemma {:induction false} CandidatesAboveComplete(line: string, next: Option<char>, k: nat)
    ensures forall p: nat :: k < p && Admissible(line, next, p) ==>
              Candidate(p, Score(line, next, p)) in CandidatesAbove(line, next, k)
    decreases |line| - k
  {
    if k < |line| {
      var rest := CandidatesAbove(line, next, k + 1);
      CandidatesAboveComplete(line, next, k + 1);
      if Admissible(line, next, k + 1) {
        assert CandidatesAbove(line, next, k) == rest + [Candidate(k + 1, Score(line, next, k + 1))];
      } else {
        assert CandidatesAbove(line, next, k) == rest;
      }
    }
  }

  /** Index of the first maximum-score candidate: Python's `max(..., key=)`
      replaces its current best only on a strictly greater key. */
  function ArgMaxFirst(cs: seq<Candidate>): (i: nat)
    requires |cs| > 0
    ensures i < |cs|
    ensures forall j :: 0 <= j < |cs| ==> cs[j].score <= cs[i].score
    ensures forall j :: 0 <= j < i ==> cs[j].score < cs[i].score
  {
    if |cs| == 1 then 0
    else
      var m := ArgMaxFirst(cs[..|cs| - 1]);
      if cs[|cs| - 1].score > cs[m].score then |cs| - 1 else m
  }

  /** The split position the source returns for buffer `line` when `next`
      would overflow it. */
  function BreakPointOf(line: string, next: Option<char>): nat {
    if line == [] then 0
    else
      var cs := Candidates(line, next);
      if cs == [] then |line| else cs[ArgMaxFirst(cs)].pos
  }

  /** What the selector promises: 0 for an empty buffer; otherwise, when no
      position survives the tables, the whole buffer; else a surviving
      position whose score no other surviving position beats, the largest
      such position on a tie. */
  ghost predicate IsBestBreak(line: string, next: Option<char>, r: nat) {
    if line == [] then r == 0
    else if !exists p: nat :: Admissible(line, next, p) then r == |line|
    else
      && Admissible(line, next, r)
      && forall q: nat :: Admissible(line, next, q) ==>
           Score(line, next, q) < Score(line, next, r)
           || (Score(line, next, q) == Score(line, next, r) && q <= r)
  }

  /** `BreakPointOf` meets the selector's promise, and its result lies in
      0..|line|, at least 1 for a non-empty buffer. */
  lemma BreakPointIsBest(line: string, next: Option<char>)
    ensures IsBestBreak(line, next, BreakPointOf(line, next))
    ensures line == [] <==> BreakPointOf(line, next) == 0
    ensures BreakPointOf(line, next) <= |line|
  {
    if line != [] {
      if Candidates(line, next) == [] {
        NoCandidateMeansNoSplit(line, next);
      } else {
        FirstMaxIsBest(line, next);
      }
    }
  }

  /** An empty candidate list means no position survives the tables. */
  lemma NoCandidateMeansNoSplit(line: string, next: Option<char>)
    requires Candidates(line, next) == []
    ensures forall p: nat :: !Admissible(line, next, p)
  {
    CandidatesAboveComplete(line, next, 0);
  }

  /** The first maximum of a non-empty candidate list is a surviving
      position that every other surviving position scores below, or ties
      at a position no larger. */
  lemma FirstMaxIsBest(line: string, next: Option<char>)
    requires Candidates(line, next) != []
    ensures var cs := Candidates(line, next);
      var r := cs[ArgMaxFirst(cs)].pos;
      Admissible(line, next, r) &&
      forall q: nat :: Admissible(line, next, q) ==>
        Score(line, next, q) < Score(line, next, r)
        || (Score(line, next, q) == Score(line, next, r) && q <= r)
  {
    var cs := Candidates(line, next);
    CandidatesAboveExact(line, next, 0);
    var r := cs[ArgMaxFirst(cs)].pos;
    forall q: nat | Admissible(line, next, q)
      ensures Score(line, next, q) < Score(line, next, r)
              || (Score(line, next, q) == Score(line, next, r) && q <= r)
    {
      assert Candidate(q, Score(line, next, q)) in cs;
      var j :| 0 <= j < |cs| && cs[j] == Candidate(q, Score(line, next, q));
      FirstMaxIsLatest(cs, j);
    }
  }

  /** In a list of strictly decreasing positions, the first maximum by score
      beats every other entry, or ties it at a position no smaller. */
  lemma FirstMaxIsLatest(cs: seq<Candidate>, j: nat)
    requires j < |cs|
    requires forall a, b :: 0 <= a < b < |cs| ==> cs[a].pos > cs[b].pos
    ensures cs[j].score < cs[ArgMaxFirst(cs)].score
            || (cs[j].score == cs[ArgMaxFirst(cs)].score && cs[j].pos <= cs[ArgMaxFirst(cs)].pos)
  {
    var i := ArgMaxFirst(cs);
    if i < j {
      assert cs[i].pos > cs[j].pos;
    }
  }

  /** The promise pins the position down: it holds of `r` exactly when `r`
      is the position the selector returns. */
  lemma BestBreakUnique(line: string, next: Option<char>, r: nat)
    ensures IsBestBreak(line, next, r) <==> r == BreakPointOf(line, next)
  {
    BreakPointIsBest(line, next);
    var b := BreakPointOf(line, next);
    if IsBestBreak(line, next, r) && line != [] && exists p :: Admissible(line, next, p) {
      assert Score(line, next, r) <= Score(line, next, b);
      assert Score(line, next, b) <= Score(line, next, r);
    }
  }

  /** A break inside a kanji compound (kanji on both sides) is never chosen
      while a buffer of at most 110 characters offers a surviving break
      between two different classes. */
  lemma NoCompoundSplitWhenBoundaryExists(line: string, next: Option<char>, q: nat)
    requires |line| <= 110
    requires Admissible(line, next, q)
    requires GetCharType(line[q - 1]) != TypeOf(Starter(line, next, q))
    ensures var r := BreakPointOf(line, next);
            1 <= r <= |line| && !(GetCharType(line[r - 1]) == Kanji && TypeOf(Starter(line, next, r)) == Kanji)
  {
    BreakPointIsBest(line, next);
    var r := BreakPointOf(line, next);
    PairScoreRange(GetCharType(line[q - 1]), TypeOf(Starter(line, next, q)));
    assert Score(line, next, q) <= Score(line, next, r);
  }

  /** `_find_best_break_point(current_line, full_text, next_char_idx)`: the
      loop over positions `len(current_line)` down to 1 collects the
      surviving candidates, then the first maximum by score is taken. */
  method FindBestBreakPoint(currentLine: string, fullText: string, nextCharIdx: nat)
    returns (pos: nat)
    ensures pos == BreakPointOf(currentLine, NextChar(fullText, nextCharIdx))
    ensures IsBestBreak(currentLine, NextChar(fullText, nextCharIdx), pos)
  {
    var nextChar := NextChar(fullText, nextCharIdx);
    BreakPointIsBest(currentLine, nextChar);
    if currentLine == [] {
      return 0;
    }
    var candidates := CollectCandidates(currentLine, nextChar);
    if candidates == [] {
      return |currentLine|;
    }
    var best := FirstMaxIndex(candidates);
    pos := candidates[best].pos;
  }

  /** The candidate loop: positions from `len(current_line)` down to 1,
      skipping those the tables forbid. */
  method CollectCandidates(currentLine: string, nextChar: Option<char>)
    returns (candidates: seq<Candidate>)
    ensures candidates == Candidates(currentLine, nextChar)
  {
    candidates := [];
    var p := |currentLine|;
    while p > 0
      invariant 0 <= p <= |currentLine|
      invariant candidates == CandidatesAbove(currentLine, nextChar, p)
    {
      var newLineStart := if p < |currentLine| then Some(currentLine[p]) else nextChar;
      var lineEnd := currentLine[p - 1];
      assert newLineStart == Starter(currentLine, nextChar, p);
      if StartAllowed(newLineStart) && !LineEndProhibited(lineEnd) {
        var score := ScoreBreak(GetCharType(lineEnd), TypeOf(newLineStart), p);
        assert Admissible(currentLine, nextChar, p) && score == Score(currentLine, nextChar, p);
        candidates := candidates + [Candidate(p, score)];
      } else {
        assert !Admissible(currentLine, nextChar, p);
      }
      p := p - 1;
    }
  }

  /** The score computation for one candidate, adjusted term by term. */
  method ScoreBreak(endType: CharType, startType: CharType, pos: nat) returns (score: int)
    ensures score == PairScore(endType, startType) + pos
  {
    score := 0;
    if endType == Kanji && startType == Kanji {
      score := score - 100;
    }
    if endType == Katakana && startType == Katakana {
      score := score - 50;
    }
    if endType == Alpha && startType == Alpha {
      score := score - 50;
    }
    if endType == Hiragana && startType == Kanji {
      score := score + 30;
    }
    if endType != startType {
      score := score + 10;
    }
    score := score + pos;
  }

  /** `max(break_candidates, key=score)`: a scan that replaces the best only
      on a strictly greater score, so the first maximum wins. */
  method FirstMaxIndex(candidates: seq<Candidate>) returns (best: nat)
    requires candidates != []
    ensures best == ArgMaxFirst(candidates)
  {
    best := 0;
    for i := 1 to |candidates|
      invariant best == ArgMaxFirst(candidates[..i])
    {
      assert candidates[..i + 1][..i] == candidates[..i];
      if candidates[i].score > candidates[best].score {
        best := i;
      }
    }
    assert candidates[..|candidates|] == candidates;
  }
}
