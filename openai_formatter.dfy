/** The deterministic parts of `format_article`: choosing the system prompt
    for a mode, and splitting the model's reply into a title and a body.
    The API call between the two is not modelled. */
module OpenAIFormatter {
  import opened Wrappers
  import opened Config
  import opened PyStr

  // ---------------------------------------------------------------------
  // Prompt selection
  // ---------------------------------------------------------------------

  /** The prompt texts of the `prompts` package, whose wording is not part
      of this model. */
  datatype PromptTexts = PromptTexts(
    markdownRules: string,
    empathyEssay: string,
    knowhowBusiness: string,
    rewrite: string)

  /** `MODE_PROMPTS`: mode name to prompt. */
  function ModePrompts(p: PromptTexts): map<string, string> {
    map[DefaultMode := p.empathyEssay, KnowhowMode := p.knowhowBusiness, RewriteMode := p.rewrite]
  }

  /** `MODE_PROMPTS.get(mode, EMPATHY_ESSAY_PROMPT)`. */
  function ModePrompt(p: PromptTexts, mode: string): string {
    var prompts := ModePrompts(p);
    if mode in prompts then prompts[mode] else p.empathyEssay
  }

  /** `NOTE_MARKDOWN_RULES + "\n\n" + mode_prompt`. */
  function SystemPrompt(p: PromptTexts, mode: string): string {
    p.markdownRules + "\n\n" + ModePrompt(p, mode)
  }

  /** Each known mode gets its own prompt and any other mode the
      empathy/essay prompt; the system prompt is the shared rules, a blank
      line, then the mode's prompt. */
  lemma PromptSelection(p: PromptTexts, mode: string)
    ensures mode == DefaultMode ==> ModePrompt(p, mode) == p.empathyEssay
    ensures mode == KnowhowMode ==> ModePrompt(p, mode) == p.knowhowBusiness
    ensures mode == RewriteMode ==> ModePrompt(p, mode) == p.rewrite
    ensures mode != DefaultMode && mode != KnowhowMode && mode != RewriteMode ==>
      ModePrompt(p, mode) == p.empathyEssay
    ensures var n := |p.markdownRules|;
      var sp := SystemPrompt(p, mode);
      |sp| == n + 2 + |ModePrompt(p, mode)| &&
      sp[..n] == p.markdownRules && sp[n..n + 2] == "\n\n" && sp[n + 2..] == ModePrompt(p, mode)
  {
    assert DefaultMode != KnowhowMode && DefaultMode != RewriteMode && KnowhowMode != RewriteMode;
  }

  // ---------------------------------------------------------------------
  // Title / body split
  // ---------------------------------------------------------------------

  /** The title used when none can be extracted. */
  const FallbackTitle: string := "新しい記事"

  datatype Article = Article(title: string, body: string)

  /** A line that `strip` empties (`StripSpec`): all whitespace. */
  predicate Blank(line: string) {
    AllSpace(line)
  }

  /** The index of the first line at or after `from` that is not blank. */
  function FirstNonBlankFrom(lines: seq<string>, from: nat): (r: Option<nat>)
    requires from <= |lines|
    ensures r.Some? ==> from <= r.value < |lines| && !Blank(lines[r.value])
    ensures r.Some? ==> forall j :: from <= j < r.value ==> Blank(lines[j])
    ensures r.None? ==> forall j :: from <= j < |lines| ==> Blank(lines[j])
    decreases |lines| - from
  {
    if from == |lines| then None
    else if !Blank(lines[from]) then Some(from)
    else FirstNonBlankFrom(lines, from + 1)
  }

  /** The index of the first line that is not blank. */
  function FirstNonBlank(lines: seq<string>): Option<nat> {
    FirstNonBlankFrom(lines, 0)
  }

  /** A non-blank line with only blank lines before it is the first one. */
  lemma {:induction false} FirstNonBlankAt(lines: seq<string>, from: nat, i: nat)
    requires from <= i < |lines| && !Blank(lines[i])
    requires forall j :: from <= j < i ==> Blank(lines[j])
    ensures FirstNonBlankFrom(lines, from) == Some(i)
    decreases i - from
  {
    if from < i {
      FirstNonBlankAt(lines, from + 1, i);
    }
  }

  /** `stripped.lstrip("#").strip()` for the line `stripped` came from. */
  function TitleOf(line: string): string {
    Strip(LStripHash(Strip(line)))
  }

  /** The title and the index of the first body line, before the fallback
      (lines 73-81). */
  function TitleAndBodyStart(lines: seq<string>): (string, nat) {
    match FirstNonBlank(lines)
    case Some(i) => (TitleOf(lines[i]), i + 1)
    case None => ("", 0)
  }

  /** The reply split into title and body: the first non-blank line of the
      stripped reply, without its heading marks, is the title and the
      stripped remainder is the body; with no usable title, the fallback
      title and the reply verbatim. */
  function SplitTitleBody(reply: string): Article {
    var lines := Split(Strip(reply));
    var (title, bodyStart) := TitleAndBodyStart(lines);
    if title == [] then Article(FallbackTitle, reply)
    else Article(title, Strip(Join(lines[bodyStart..])))
  }

  /** With every line blank there is no title and the body starts at 0. */
  lemma NoTitleWhenAllBlank(lines: seq<string>)
    ensures (forall j :: 0 <= j < |lines| ==> Blank(lines[j])) ==> TitleAndBodyStart(lines) == ("", 0)
  {
    if FirstNonBlank(lines).Some? {
      var i := FirstNonBlank(lines).value;
      assert !Blank(lines[i]);
    }
  }

  /** Lines 73-81: the `for ... break` search for the title line. */
  method FindTitleLine(lines: seq<string>) returns (title: string, bodyStartIndex: nat)
    ensures (title, bodyStartIndex) == TitleAndBodyStart(lines)
  {
    title := "";
    bodyStartIndex := 0;
    NoTitleWhenAllBlank(lines);
    for i := 0 to |lines|
      invariant title == "" && bodyStartIndex == 0
      invariant forall j :: 0 <= j < i ==> Blank(lines[j])
    {
      var stripped := Strip(lines[i]);
      assert stripped != [] <==> !Blank(lines[i]) by { StripEmpty(lines[i]); }
      if stripped != [] {
        assert TitleAndBodyStart(lines) == (TitleOf(lines[i]), i + 1) by {
          FirstNonBlankAt(lines, 0, i);
        }
        title := Strip(LStripHash(stripped));
        bodyStartIndex := i + 1;
        break;
      }
    }
  }

  /** Lines 70-90 of `format_article`, after the reply has arrived. */
  method SplitReply(formattedContent: string) returns (title: string, body: string)
    ensures Article(title, body) == SplitTitleBody(formattedContent)
  {
    var lines := Split(Strip(formattedContent));
    var bodyStartIndex;
    title, bodyStartIndex := FindTitleLine(lines);
    body := Strip(Join(lines[bodyStartIndex..]));
    if title == [] {
      title := FallbackTitle;
      body := formattedContent;
    }
  }

  // ---------------------------------------------------------------------
  // Properties of the split
  // ---------------------------------------------------------------------

  /** Only '#'s, then only whitespace. */
  predicate HashesThenSpaces(t: string) {
    (forall i :: 0 <= i < |t| ==> t[i] == '#' || IsSpace(t[i])) &&
    (forall i, j :: 0 <= i < j < |t| && IsSpace(t[i]) ==> IsSpace(t[j]))
  }

  /** The text after the first newline of `s`, or "" when there is none. */
  function AfterFirstLine(s: string): string {
    var k := NewlineIndex(s);
    if k < |s| then s[k + 1..] else ""
  }

  /** The stripped reply's first line is never blank unless the whole reply
      is, so the search for a non-blank line always stops at line 0 and
      never drops a line. */
  lemma TitleLineIsFirst(reply: string)
    requires !AllSpace(reply)
    ensures var s := Strip(reply);
      FirstNonBlank(Split(s)) == Some(0) && Split(s)[0] == s[..NewlineIndex(s)]
  {
    var s := Strip(reply);
    StripSpec(reply);
    assert s != [] && !IsSpace(s[0]);
    var k := NewlineIndex(s);
    assert k > 0;
    var lines := Split(s);
    assert lines[0] == s[..k];
    assert !Blank(lines[0]) by {
      assert lines[0][0] == s[0];
    }
    FirstNonBlankAt(lines, 0, 0);
  }

  /** The split in terms of the stripped reply alone: the title comes from
      its first line and the body is the rest after the first newline. */
  lemma SplitTitleBodyFirstLine(reply: string)
    ensures var s := Strip(reply);
      var line := s[..NewlineIndex(s)];
      SplitTitleBody(reply) ==
        if TitleOf(line) == [] then Article(FallbackTitle, reply)
        else Article(TitleOf(line), Strip(AfterFirstLine(s)))
  {
    var s := Strip(reply);
    var k := NewlineIndex(s);
    var lines := Split(s);
    if AllSpace(reply) {
      StripEmpty(reply);
      assert s == [] && k == 0;
      assert lines == [""];
      assert Blank(lines[0]);
      assert FirstNonBlank(lines) == None;
    } else {
      TitleLineIsFirst(reply);
      assert TitleAndBodyStart(lines) == (TitleOf(s[..k]), 1);
      if k < |s| {
        assert lines[1..] == Split(s[k + 1..]);
        JoinSplit(s[k + 1..]);
      } else {
        assert lines[1..] == [];
      }
    }
  }

  /** The extracted title is empty exactly when the line, after its leading
      whitespace, is a run of '#'s followed only by whitespace. */
  lemma TitleOfEmpty(line: string)
    ensures TitleOf(line) == [] <==> HashesThenSpaces(LStrip(line))
  {
    var u := LStrip(line);
    var t := RStrip(u);
    var w := LStripHash(t);
    StripEmpty(w);
    if w != [] {
      assert w[|w| - 1] == t[|t| - 1];
    }
    assert AllSpace(w) <==> w == [];
    assert w == [] <==> forall i :: 0 <= i < |t| ==> t[i] == '#' by {
      if w != [] {
        assert w[0] == t[|t| - |w|];
      }
    }
    assert u == t + u[|t|..];
    if HashesThenSpaces(u) && t != [] {
      assert !IsSpace(u[|t| - 1]);
    }
    if forall i :: 0 <= i < |t| ==> t[i] == '#' {
      forall i, j | 0 <= i < j < |u| && IsSpace(u[i]) ensures IsSpace(u[j]) {
        assert i >= |t|;
      }
    }
  }

  /** When the fallback applies: the title falls back to "新しい記事" and
      the body to the reply verbatim exactly when the stripped reply's first
      line is '#'s and whitespace only (which includes a blank reply);
      otherwise the title is that line without its heading marks and the
      body is the rest of the stripped reply, stripped. */
  lemma SplitTitleBodySpec(reply: string)
    ensures var s := Strip(reply);
      var line := s[..NewlineIndex(s)];
      (HashesThenSpaces(line) ==> SplitTitleBody(reply) == Article(FallbackTitle, reply)) &&
      (!HashesThenSpaces(line) ==>
        TitleOf(line) != [] &&
        SplitTitleBody(reply) == Article(TitleOf(line), Strip(AfterFirstLine(s))))
    ensures AllSpace(reply) ==> SplitTitleBody(reply) == Article(FallbackTitle, reply)
  {
    var s := Strip(reply);
    var line := s[..NewlineIndex(s)];
    SplitTitleBodyFirstLine(reply);
    StripSpec(reply);
    if line != [] {
      assert line[0] == s[0];
    }
    assert LStrip(line) == line;
    TitleOfEmpty(line);
    if AllSpace(reply) {
      StripEmpty(reply);
      assert line == [];
    }
  }

  lemma TitleOfNoNewline(line: string)
    requires NoNewline(line)
    ensures NoNewline(TitleOf(line))
  {
    var t := Strip(line);
    StripSpec(line);
    SliceNoNewline(line, SpaceEnd(line, 0), SpaceEnd(line, 0) + |t|);
    var w := LStripHash(t);
    SliceNoNewline(t, HashEnd(t, 0), |t|);
    StripSpec(w);
    SliceNoNewline(w, SpaceEnd(w, 0), SpaceEnd(w, 0) + |Strip(w)|);
  }

  /** A piece of a line without a newline has none either. */
  lemma SliceNoNewline(s: string, i: nat, j: nat)
    requires i <= j <= |s| && NoNewline(s)
    ensures NoNewline(s[i..j])
  {
    assert forall k :: 0 <= k < j - i ==> s[i..j][k] == s[i + k];
  }

  /** The fallback title is a clean one-line title. */
  lemma FallbackTitleWellFormed()
    ensures var t := FallbackTitle;
      t != [] && !IsSpace(t[0]) && !IsSpace(t[|t| - 1]) && NoNewline(t)
  {
  }

  /** The returned title is never empty, neither starts nor ends with
      whitespace, and holds no newline. */
  lemma TitleWellFormed(reply: string)
    ensures var t := SplitTitleBody(reply).title;
      t != [] && !IsSpace(t[0]) && !IsSpace(t[|t| - 1]) && NoNewline(t)
  {
    var lines := Split(Strip(reply));
    var title := TitleAndBodyStart(lines).0;
    if title != [] {
      var i := FirstNonBlank(lines).value;
      assert title == TitleOf(lines[i]);
      StripSpec(LStripHash(Strip(lines[i])));
      TitleOfNoNewline(lines[i]);
    } else {
      FallbackTitleWellFormed();
    }
  }
}
