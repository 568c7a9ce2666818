/** The greedy line wrapper of the title (`_wrap_text`): walks the title one
    character at a time against a width measurement and asks the break-point
    selector where to split a line that overflows. */
module LineWrap {
  import opened Wrappers
  import opened CharClass
  import opened Kinsoku
  import opened BreakPoint

  /** The wrapper's two loop variables: the lines emitted so far and the
      line buffer `current_line`. */
  datatype WrapState = WrapState(lines: seq<string>, current: string)

  /** The lines joined back together. */
  function Concat(lines: seq<string>): string {
    if lines == [] then [] else Concat(lines[..|lines| - 1]) + lines[|lines| - 1]
  }

  /** One iteration of the wrapper's loop, for the character at index `i`. */
  function Step(st: WrapState, text: string, i: nat, width: string -> int, maxWidth: int): WrapState
    requires i < |text|
  {
    var ch := text[i];
    if width(st.current + [ch]) <= maxWidth then
      WrapState(st.lines, st.current + [ch])
    else if st.current != [] then
      var p := BreakPointOf(st.current, NextChar(text, i));
      if 0 < p < |st.current| then
        WrapState(st.lines + [st.current[..p]], st.current[p..] + [ch])
      else
        WrapState(st.lines + [st.current], [ch])
    else
      WrapState(st.lines, [ch])
  }

  /** The loop state after the first `k` characters. */
  function StateAfter(text: string, k: nat, width: string -> int, maxWidth: int): WrapState
    requires k <= |text|
  {
    if k == 0 then WrapState([], [])
    else Step(StateAfter(text, k - 1, width, maxWidth), text, k - 1, width, maxWidth)
  }

  /** What `_wrap_text` returns: the emitted lines plus a non-empty final
      buffer, or `[text]` when that leaves nothing. */
  function Wrap(text: string, width: string -> int, maxWidth: int): seq<string> {
    var st := StateAfter(text, |text|, width, maxWidth);
    var lines := if st.current != [] then st.lines + [st.current] else st.lines;
    if lines == [] then [text] else lines
  }

  /** The loop invariant: the emitted lines followed by the buffer spell the
      title read so far; no emitted line is empty, and the buffer is empty
      only before the first character. */
  ghost predicate Spells(st: WrapState, text: string, k: nat)
    requires k <= |text|
  {
    && Concat(st.lines) + st.current == text[..k]
    && (forall j :: 0 <= j < |st.lines| ==> st.lines[j] != [])
    && (st.current == [] <==> k == 0)
  }

  /** One step keeps the invariant. */
  lemma StepKeepsSpelling(st: WrapState, text: string, i: nat, width: string -> int, maxWidth: int)
    requires i < |text| && Spells(st, text, i)
    ensures Spells(Step(st, text, i, width, maxWidth), text, i + 1)
  {
    var ch := text[i];
    var next := Step(st, text, i, width, maxWidth);
    if width(st.current + [ch]) <= maxWidth {
      assert next == WrapState(st.lines, st.current + [ch]);
      AppendKeepsSpelling(st, text, i);
    } else if st.current != [] {
      var p := BreakPointOf(st.current, NextChar(text, i));
      if 0 < p < |st.current| {
        assert next == WrapState(st.lines + [st.current[..p]], st.current[p..] + [ch]);
        EmitKeepsSpelling(st, text, i, st.current[..p], st.current[p..]);
      } else {
        assert next == WrapState(st.lines + [st.current], [] + [ch]);
        EmitKeepsSpelling(st, text, i, st.current, []);
      }
    } else {
      assert next == WrapState(st.lines, st.current + [ch]);
      AppendKeepsSpelling(st, text, i);
    }
  }

  /** Appending the new character to the buffer keeps the invariant. */
  lemma AppendKeepsSpelling(st: WrapState, text: string, i: nat)
    requires i < |text| && Spells(st, text, i)
    ensures Spells(WrapState(st.lines, st.current + [text[i]]), text, i + 1)
  {
    assert text[..i + 1] == text[..i] + [text[i]];
  }

  /** Emitting a non-empty front of the buffer and re-seeding with the rest
      plus the new character keeps the invariant. */
  lemma EmitKeepsSpelling(st: WrapState, text: string, i: nat, emitted: string, rest: string)
    requires i < |text| && Spells(st, text, i)
    requires emitted != [] && emitted + rest == st.current
    ensures Spells(WrapState(st.lines + [emitted], rest + [text[i]]), text, i + 1)
  {
    assert text[..i + 1] == text[..i] + [text[i]];
    assert (st.lines + [emitted])[..|st.lines|] == st.lines;
    assert Concat(st.lines + [emitted]) == Concat(st.lines) + emitted;
  }

  lemma {:induction false} StateAfterInvariant(text: string, k: nat, width: string -> int, maxWidth: int)
    requires k <= |text|
    ensures Spells(StateAfter(text, k, width, maxWidth), text, k)
  {
    if k > 0 {
      StateAfterInvariant(text, k - 1, width, maxWidth);
      StepKeepsSpelling(StateAfter(text, k - 1, width, maxWidth), text, k - 1, width, maxWidth);
    }
  }

  /** Wrapping loses and adds nothing: the lines concatenate to the title. */
  lemma WrapLossless(text: string, width: string -> int, maxWidth: int)
    ensures Concat(Wrap(text, width, maxWidth)) == text
  {
    StateAfterInvariant(text, |text|, width, maxWidth);
    var st := StateAfter(text, |text|, width, maxWidth);
    assert text[..|text|] == text;
    if st.current != [] {
      assert (st.lines + [st.current])[..|st.lines|] == st.lines;
    } else {
      assert Concat([text]) == Concat([]) + text;
    }
  }

  /** The result is never empty: `[""]` for the empty title, and otherwise
      at most one line per character, none of them empty. */
  lemma WrapShape(text: string, width: string -> int, maxWidth: int)
    ensures text == [] ==> Wrap(text, width, maxWidth) == [[]]
    ensures text != [] ==> 1 <= |Wrap(text, width, maxWidth)| <= |text|
    ensures text != [] ==> forall j :: 0 <= j < |Wrap(text, width, maxWidth)| ==> Wrap(text, width, maxWidth)[j] != []
  {
    StateAfterInvariant(text, |text|, width, maxWidth);
    var lines := Wrap(text, width, maxWidth);
    WrapLossless(text, width, maxWidth);
    if text != [] {
      ConcatLength(lines);
    }
  }

  /** A concatenation of non-empty strings is at least as long as their
      number. */
  lemma {:induction false} ConcatLength(lines: seq<string>)
    requires forall j :: 0 <= j < |lines| ==> lines[j] != []
    ensures |Concat(lines)| >= |lines|
  {
    if lines != [] {
      ConcatLength(lines[..|lines| - 1]);
    }
  }

  /** A step that emits no line from a non-empty buffer appended the
      character, and only because the extended buffer measured within the
      maximum width. */
  lemma StepAppendsOnlyWhenFits(st: WrapState, text: string, i: nat, width: string -> int, maxWidth: int)
    requires i < |text| && st.current != []
    requires Step(st, text, i, width, maxWidth).lines == st.lines
    ensures width(st.current + [text[i]]) <= maxWidth
    ensures Step(st, text, i, width, maxWidth).current == st.current + [text[i]]
  {
  }

  /** When a step breaks a non-empty buffer and some split position survives
      the tables, the emitted line does not end with a character barred from
      line ends, and the next line does not start with one barred from line
      starts. */
  lemma StepRespectsKinsoku(st: WrapState, text: string, i: nat, width: string -> int, maxWidth: int)
    requires i < |text| && st.current != []
    requires width(st.current + [text[i]]) > maxWidth
    requires exists p: nat :: Admissible(st.current, NextChar(text, i), p)
    ensures var next := Step(st, text, i, width, maxWidth);
            && |next.lines| == |st.lines| + 1
            && var emitted := next.lines[|st.lines|];
            && emitted != [] && next.current != []
            && !LineEndProhibited(emitted[|emitted| - 1])
            && !LineStartProhibited(next.current[0])
  {
    BreakPointIsBest(st.current, NextChar(text, i));
  }

  /** A title whose every prefix fits the width is kept on one line. */
  lemma FittingTitleStaysWhole(text: string, width: string -> int, maxWidth: int)
    requires text != []
    requires forall k :: 1 <= k <= |text| ==> width(text[..k]) <= maxWidth
    ensures Wrap(text, width, maxWidth) == [text]
  {
    FittingPrefix(text, |text|, width, maxWidth);
    assert text[..|text|] == text;
  }

  lemma {:induction false} FittingPrefix(text: string, k: nat, width: string -> int, maxWidth: int)
    requires k <= |text|
    requires forall j :: 1 <= j <= k ==> width(text[..j]) <= maxWidth
    ensures StateAfter(text, k, width, maxWidth) == WrapState([], text[..k])
  {
    if k > 0 {
      FittingPrefix(text, k - 1, width, maxWidth);
      assert text[..k - 1] + [text[k - 1]] == text[..k];
    }
  }

  /** `_wrap_text(text, font, max_width, draw)`, with the font and the
      drawing context folded into the measurement `width`. */
  method WrapText(text: string, width: string -> int, maxWidth: int) returns (lines: seq<string>)
    ensures lines == Wrap(text, width, maxWidth)
    ensures Concat(lines) == text
  {
    lines := [];
    var currentLine: string := [];
    var i := 0;
    while i < |text|
      invariant 0 <= i <= |text|
      invariant WrapState(lines, currentLine) == StateAfter(text, i, width, maxWidth)
    {
      ghost var before := WrapState(lines, currentLine);
      var ch := text[i];
      var testLine := currentLine + [ch];
      if width(testLine) <= maxWidth {
        currentLine := testLine;
      } else if currentLine != [] {
        var breakPos := FindBestBreakPoint(currentLine, text, i);
        if 0 < breakPos < |currentLine| {
          lines := lines + [currentLine[..breakPos]];
          currentLine := currentLine[breakPos..] + [ch];
        } else {
          lines := lines + [currentLine];
          currentLine := [ch];
        }
      } else {
        currentLine := [ch];
      }
      assert WrapState(lines, currentLine) == Step(before, text, i, width, maxWidth);
      i := i + 1;
    }
    assert WrapState(lines, currentLine) == StateAfter(text, |text|, width, maxWidth);
    if currentLine != [] {
      lines := lines + [currentLine];
    }
    if lines == [] {
      lines := [text];
    }
    WrapLossless(text, width, maxWidth);
  }

  /** A proportional measure: hiragana 1 unit wide, everything else 5. */
  function ProportionalWidth(s: string): int
    decreases |s|
  {
    if s == [] then 0
    else ProportionalWidth(s[..|s| - 1]) + (if IsHiragana(s[|s| - 1]) then 1 else 5)
  }

  /** The wrapper does not keep every line within `maxWidth`: the buffer
      re-seeded after a split is never measured, so with a proportional
      measure "あ漢字" and a budget of 6 the line "漢字", two characters 10
      wide, comes out. */
  lemma WidthBoundNotGuaranteed()
    ensures Wrap("あ漢字", ProportionalWidth, 6) == ["あ", "漢字"]
    ensures ProportionalWidth("漢字") > 6
  {
    ProportionalSteps("あ漢字");
    ProportionalExample();
  }

  /** The loop state of the proportional example after its last character:
      the overflow at '字' splits "あ漢" after the hiragana. */
  lemma ProportionalSteps(text: string)
    requires text == "あ漢字"
    ensures StateAfter(text, 3, ProportionalWidth, 6) == WrapState(["あ"], "漢字")
  {
    var st2 := StateAfter(text, 2, ProportionalWidth, 6);
    ProportionalFirstSteps(text);
    assert ProportionalWidth(st2.current + [text[2]]) > 6 by {
      assert st2.current + [text[2]] == "あ漢字";
      ProportionalExample();
    }
    assert BreakPointOf(st2.current, NextChar(text, 2)) == 1 by {
      assert NextChar(text, 2) == Some('字');
      BreakAfterKanaExample();
    }
    StepSplits(st2, text, 2, ProportionalWidth, 6);
    assert st2.current[..1] == "あ" && st2.current[1..] + [text[2]] == "漢字";
  }

  /** The first two characters of the proportional example fit. */
  lemma ProportionalFirstSteps(text: string)
    requires text == "あ漢字"
    ensures StateAfter(text, 2, ProportionalWidth, 6) == WrapState([], "あ漢")
  {
    var st0 := StateAfter(text, 0, ProportionalWidth, 6);
    assert ProportionalWidth(st0.current + [text[0]]) <= 6 by {
      assert st0.current + [text[0]] == "あ";
      ProportionalExample();
    }
    StepFits(st0, text, 0, ProportionalWidth, 6);
    var st1 := StateAfter(text, 1, ProportionalWidth, 6);
    assert st1.current == "あ";
    assert ProportionalWidth(st1.current + [text[1]]) <= 6 by {
      assert st1.current + [text[1]] == "あ漢";
      ProportionalExample();
    }
    StepFits(st1, text, 1, ProportionalWidth, 6);
  }

  /** A character that fits is appended to the buffer. */
  lemma StepFits(st: WrapState, text: string, i: nat, width: string -> int, maxWidth: int)
    requires i < |text| && width(st.current + [text[i]]) <= maxWidth
    ensures Step(st, text, i, width, maxWidth) == WrapState(st.lines, st.current + [text[i]])
  {
  }

  /** An overflowing character splits a non-empty buffer at an inner
      break point. */
  lemma StepSplits(st: WrapState, text: string, i: nat, width: string -> int, maxWidth: int)
    requires i < |text| && width(st.current + [text[i]]) > maxWidth && st.current != []
    requires 0 < BreakPointOf(st.current, NextChar(text, i)) < |st.current|
    ensures var p := BreakPointOf(st.current, NextChar(text, i));
      Step(st, text, i, width, maxWidth) == WrapState(st.lines + [st.current[..p]], st.current[p..] + [text[i]])
  {
  }

  lemma ProportionalExample()
    ensures ProportionalWidth("あ") == 1
    ensures ProportionalWidth("あ漢") == 6
    ensures ProportionalWidth("あ漢字") == 11
    ensures ProportionalWidth("漢字") == 10
  {
    assert "あ漢字"[..2] == "あ漢";
    assert "あ漢"[..1] == "あ";
    assert "漢字"[..1] == "漢";
  }

  lemma BreakAfterKanaExample()
    ensures BreakPointOf("あ漢", Some('字')) == 1
  {
    var line := "あ漢";
    var next := Some('字');
    assert CandidatesAbove(line, next, 2) == [];
    assert Admissible(line, next, 2) && Score(line, next, 2) == -98;
    assert Admissible(line, next, 1) && Score(line, next, 1) == 41;
    assert Candidates(line, next) == [Candidate(2, -98), Candidate(1, 41)];
  }

  /** A monospaced measure: every character 5 units wide. */
  function MonospacedWidth(s: string): int {
    5 * |s|
  }

  /** The kinsoku tables are not kept on every line: when no split position
      survives them, the whole buffer is emitted and the overflowing
      character, here the prohibited line starter 'ー', opens the next
      line. */
  lemma KinsokuNotGuaranteed()
    ensures Wrap("漢ーー", MonospacedWidth, 10) == ["漢ー", "ー"]
    ensures LineStartProhibited('ー')
  {
    MonospacedSteps();
    assert "ー"[0] == 'ー';
  }

  /** The loop state of the monospaced example after each character. */
  lemma MonospacedSteps()
    ensures StateAfter("漢ーー", 3, MonospacedWidth, 10) == WrapState(["漢ー"], "ー")
  {
    var text := "漢ーー";
    assert StateAfter(text, 1, MonospacedWidth, 10) == WrapState([], "漢") by {
      assert [] + [text[0]] == "漢";
    }
    assert StateAfter(text, 2, MonospacedWidth, 10) == WrapState([], "漢ー") by {
      assert "漢" + [text[1]] == "漢ー";
    }
    assert StateAfter(text, 3, MonospacedWidth, 10) == WrapState(["漢ー"], "ー") by {
      NoSplitBeforeProlongedSound();
      assert NextChar(text, 2) == Some('ー');
      assert |"漢ー" + [text[2]]| == 3;
    }
  }

  lemma NoSplitBeforeProlongedSound()
    ensures BreakPointOf("漢ー", Some('ー')) == 2
  {
    var line := "漢ー";
    var next := Some('ー');
    assert !Admissible(line, next, 2);
    assert !Admissible(line, next, 1);
    assert Candidates(line, next) == [];
  }
}
