# notion2note title layout, Notion projections and reply splitter — a Dafny model

The pipeline reads "ready" articles from a Notion database. For each one it asks an LLM to format the article, renders a 1280×670 header image with the title on it, and posts the result to note.com.

This project models the deterministic core of that pipeline and proves properties of it. The model covers three parts.

- **Title layout engine** (`src/core/image_generator.py`). This part has:
  - the character classifier;
  - the two kinsoku (Japanese line-break) tables;
  - the scored break-point selector;
  - the greedy line wrapper;
  - the font-size step function;
  - the centring arithmetic that places each wrapped line;
  - the fallback gradient background.

  Pillow's `textbbox` is a parameter `textbbox: (int, string) -> BBox` (font size, text). The wrapper receives it as a width measure `string -> int`.
- **Notion projections** (`src/core/notion_client.py`). These are `_extract_title`, `_extract_mode` and `_extract_content`, over a decoded JSON page.
  - Every `.get`, `[0]`, iteration and `str()` behaves as the Python operation does.
  - A record of the wrong shape therefore yields the exception Python raises: `AttributeError`, `TypeError` or `KeyError`.
- **Reply handling** (`src/openai_formatter.py`). This is the mode → prompt fallback, and the split of the model's reply into a title and a body.

Modules, one per file:

- `Wrappers`: `Option`, `Result`.
- `Config`: the constants of `src/config.py`.
- `CharClass`, `Kinsoku`, `BreakPoint`, `LineWrap`, `TitleLayout` and `Gradient`: the image generator.
- `PyJson` and `NotionClient`: the Notion helpers.
- `PyStr` and `OpenAIFormatter`: the reply splitter.

Loops stay loops:

- `FindBestBreakPoint`, `WrapText`, `AddTitleText`/`DrawLines`, `CreateGradientBackground` and `FindTitleLine` are methods with loop invariants.
- Each is proved equal to a specification function.
- The lemmas state their properties about that function.

## Model

| member | source | states |
|---|---|---|
| CharClass.GetCharType | src/core/image_generator.py:217-250 | Total. The class is kanji exactly for U+4E00–9FFF or U+3400–4DBF, hiragana exactly for U+3040–309F, katakana exactly for U+30A0–30FF, alpha exactly for ASCII letters, digit exactly for the ASCII and fullwidth digits, ¹²³ and ①–⑨, and "other" exactly when none applies. |
| CharClass.DigitExamples | src/core/image_generator.py:247-248 | '7', '７', '①' and '²' are digits, as `isdigit` says. The circled ten '⑩' is "other", and the kanji numeral '三' is kanji. |
| Kinsoku.TablesShape | src/core/image_generator.py:198-214 | No character is in both tables. Every member of either table is hiragana, katakana or "other", never kanji, alpha or digit. The tables include the ASCII characters `]`, `(` and `[`. |
| BreakPoint.NextChar | src/core/image_generator.py:266 | The overflowing character is present exactly when the index is inside the text, and is then the text's character at that index. |
| BreakPoint.PairScoreRange | src/core/image_generator.py:290-315 | The pair part of a score lies in −100..40. It is 40 exactly for hiragana→kanji, and negative exactly for kanji/kanji, katakana/katakana and alpha/alpha. A change of class gives at least +10. |
| BreakPoint.CandidatesAboveExact | src/core/image_generator.py:269-319 | The candidate list holds exactly the positions that pass both tables, each with its score. The list is in strictly decreasing position order. |
| BreakPoint.CandidatesAboveSound | src/core/image_generator.py:269-319 | Every listed candidate lies above the loop's current position, passes both tables and carries its score. |
| BreakPoint.CandidatesAboveOrdered | src/core/image_generator.py:270-319 | The loop counts down, so the candidates come in strictly decreasing position. |
| BreakPoint.CandidatesAboveComplete | src/core/image_generator.py:269-319 | Every position above the loop's current position that passes both tables is listed with its score. |
| BreakPoint.ArgMaxFirst | src/core/image_generator.py:325-326 | `max` with a key returns an index whose score no candidate beats. Every earlier candidate scores strictly less, so the first maximum is kept. |
| BreakPoint.FirstMaxIsLatest | src/core/image_generator.py:325-326 | The list runs from high to low position, so any candidate at a larger position than the first maximum scores strictly less. A candidate that ties the first maximum sits at a smaller position. |
| BreakPoint.BreakPointIsBest | src/core/image_generator.py:253-327 | The result is 0 exactly for an empty buffer, and it never exceeds the buffer length. With no admissible position it is the buffer length. Otherwise it is an admissible position that no other admissible position out-scores, the largest one on a tie. |
| BreakPoint.NoCandidateMeansNoSplit | src/core/image_generator.py:321-323 | An empty candidate list means that no position passes both tables. |
| BreakPoint.FirstMaxIsBest | src/core/image_generator.py:325-327 | With candidates present, the first maximum is a position that passes both tables. Every other such position scores below it, or ties it at a position no larger. |
| BreakPoint.BestBreakUnique | src/core/image_generator.py:253-327 | The selector's result is the only position with that best-break property, in both directions. |
| BreakPoint.NoCompoundSplitWhenBoundaryExists | src/core/image_generator.py:296-298 | For buffers of at most 110 characters: when some admissible split falls between two different classes, the chosen split is never between two kanji. |
| BreakPoint.CollectCandidates | src/core/image_generator.py:269-319 | The loop over positions from the buffer length down to 1 collects exactly the specified candidate list: every position that passes both tables, with its score. |
| BreakPoint.ScoreBreak | src/core/image_generator.py:289-317 | The chain of score adjustments adds up to the pair score of the two classes plus the position. |
| BreakPoint.FirstMaxIndex | src/core/image_generator.py:325-326 | The scan returns the first candidate of greatest score, the one `max` with a key keeps. |
| BreakPoint.FindBestBreakPoint | src/core/image_generator.py:253-327 | The method, a loop building candidates followed by a first-maximum scan, returns the selector's value and so has the best-break property. |
| LineWrap.StepFits | src/core/image_generator.py:170-172 | A character whose addition measures at most `max_width` is appended to the buffer, and nothing else changes. |
| LineWrap.StepSplits | src/core/image_generator.py:175-183 | On overflow with a non-empty buffer and an inner break point, the front of the buffer up to that point is emitted. The rest plus the character becomes the new buffer. |
| LineWrap.StepKeepsSpelling | src/core/image_generator.py:164-190 | One loop iteration keeps the invariant: the emitted lines plus the buffer spell the text read so far. No emitted line is empty, and the buffer is non-empty after the first character. |
| LineWrap.AppendKeepsSpelling | src/core/image_generator.py:170-190 | Adding the character to the buffer keeps the invariant. This covers the fitting case and the lone character that overflows an empty buffer. |
| LineWrap.EmitKeepsSpelling | src/core/image_generator.py:178-187 | Emitting a non-empty front of the buffer and re-seeding the buffer with the rest plus the character keeps the invariant. |
| LineWrap.StateAfterInvariant | src/core/image_generator.py:160-190 | The invariant holds after every prefix of the text. |
| LineWrap.WrapLossless | src/core/image_generator.py:155-195 | Concatenating the returned lines gives back the title exactly. |
| LineWrap.WrapShape | src/core/image_generator.py:192-195 | The empty title gives `[""]`. Otherwise the result has between 1 and `len(title)` lines, none of them empty. |
| LineWrap.StepAppendsOnlyWhenFits | src/core/image_generator.py:166-172 | A character is added to a non-empty buffer without a break only if the buffer plus that character measures at most `max_width`. |
| LineWrap.StepRespectsKinsoku | src/core/image_generator.py:173-187 | On overflow, when some split passes both tables: the emitted line does not end with a line-end-prohibited character, and the next buffer does not start with a line-start-prohibited one. |
| LineWrap.FittingTitleStaysWhole | src/core/image_generator.py:164-195 | A title whose every prefix fits is returned as one line. |
| LineWrap.WrapText | src/core/image_generator.py:155-195 | The `while` loop returns the specified wrapping, and its lines concatenate back to the title. |
| LineWrap.WidthBoundNotGuaranteed | src/core/image_generator.py:176-183 | Take a proportional measure (hiragana 1 unit wide, all else 5), the title "あ漢字" and a budget of 6. The result is ["あ", "漢字"], whose second line is two characters and 10 wide: the re-seeded buffer is never re-measured. |
| LineWrap.KinsokuNotGuaranteed | src/core/image_generator.py:184-187 | With 5 units per character and a budget of 10, "漢ーー" wraps to ["漢ー", "ー"]. The second line starts with the prohibited starter 'ー' because no split position survived the tables. |
| LineWrap.NoSplitBeforeProlongedSound | src/core/image_generator.py:321-323 | For the buffer "漢ー" before 'ー', no position survives the tables, so the selector returns the buffer length, 2. |
| TitleLayout.FontSize | src/core/image_generator.py:138-152 | The font size is always one of 120, 100, 85, 70, 60, 50. |
| TitleLayout.FontSizeMonotone | src/core/image_generator.py:138-152 | The size never grows with the title length. It drops strictly from length 10→11, 15→16, 20→21, 25→26 and 30→31, so those tier boundaries are inclusive. |
| TitleLayout.SampleTitleSizes | src/core/image_generator.py:395-399 | The three sample titles, of 6, 15 and 21 code points, get 120, 100 and 70. |
| TitleLayout.Heights | src/core/image_generator.py:112-115 | `line_heights` has one entry per line, and entry k is that line's bounding-box height. |
| TitleLayout.MeasureHeights | src/core/image_generator.py:112-115 | The loop that appends one bounding-box height per wrapped line yields exactly `Heights` of the lines. |
| TitleLayout.Widths | src/core/image_generator.py:125-126 | There is one width per line, and width k is that line's bounding-box width. |
| TitleLayout.PlaceFromAt | src/core/image_generator.py:123-135 | Closed form of the drawing loop: line j is drawn at x = (1280 − width)//2 and y = start_y + the sum of the earlier heights + 20 per earlier line. |
| TitleLayout.PlaceGeometry | src/core/image_generator.py:117-135 | There is one draw per line, in order and with the line's text. Each line is horizontally centred within half a pixel (0 ≤ 1280 − w − 2x ≤ 1). The first is at `start_y = (670 − total_height)//2`. Line k+1 is at y_k + h_k + 20. The block spans exactly `sum(heights) + 20·(n−1)` and is vertically centred within half a pixel. |
| TitleLayout.TitleGeometry | src/core/image_generator.py:100-135 | For any title: the wrapped lines are non-empty in number and concatenate to the title, and there is one draw per wrapped line carrying that line's text. |
| TitleLayout.EmptyTitleLayout | src/core/image_generator.py:109-135 | The empty title draws exactly one empty line, at x = (1280 − w)//2 and y = (670 − h)//2. |
| TitleLayout.AddTitleText | src/core/image_generator.py:95-135 | The method (size, wrap, the heights loop, total height and start, then the drawing loop) produces the specified draws. |
| TitleLayout.DrawLines | src/core/image_generator.py:122-135 | The drawing loop, which advances `current_y` by each line's height plus 20, produces the placement specified from `start_y`. |
| Gradient.GradientEnds | src/core/image_generator.py:76-92 | Row 0 is (102, 126, 234). The last row is (117, 75, 162), one short of the end colour in red. |
| Gradient.GradientMonotone | src/core/image_generator.py:76-92 | Going down the image, red never decreases and green and blue never increase. Every channel stays between its start and end values. |
| Gradient.CreateGradientBackground | src/core/image_generator.py:76-92 | Returns a fresh 670-row image whose row y has the colour `START + ((END − START)·y) // 670` per channel. |
| PyJson.Get | src/core/notion_client.py:79 | `.get` succeeds exactly on a dict. It returns the stored value for a present key and the default otherwise. |
| PyJson.First | src/core/notion_client.py:98 | `x[0]` of a truthy value: the first item of a list, or the first character of a string. A dict gives `KeyError` and a number or boolean gives `TypeError`. |
| PyJson.NatToDecimal | src/core/notion_client.py:86 | `str(n)` of a natural number is a non-empty run of decimal digits with no leading zero except "0". |
| PyJson.IntToDecimal | src/core/notion_client.py:86 | `str(n)` starts with '-' exactly for negative n. |
| PyJson.NatToDecimalRoundTrip | src/core/notion_client.py:86 | Reading the decimal spelling back gives the number. |
| PyJson.IntToDecimalRoundTrip | src/core/notion_client.py:86 | `str(n)` is a well-formed signed decimal whose value is n, so different IDs give different titles. |
| PyJson.Str | src/core/notion_client.py:86 | `str()` succeeds on every scalar. It gives the decimal spelling for a number and the string itself for a string. |
| NotionClient.ExtractTitle | src/core/notion_client.py:77-100 | A page that is not a dict raises `AttributeError`. |
| NotionClient.ExtractMode | src/core/notion_client.py:103-123 | A page that is not a dict raises `AttributeError`. |
| NotionClient.ExtractContent | src/core/notion_client.py:126-142 | A page that is not a dict raises `AttributeError`. |
| NotionClient.TitleFromUniqueId | src/core/notion_client.py:79-86 | When `properties.ID.unique_id.number` exists and is not None, the title is `str()` of it (its decimal spelling for an integer), whatever else the page holds. |
| NotionClient.TitleFromIdNumber | src/core/notion_client.py:88-91 | When the ID property gives no `unique_id` number but has a non-None `number`, the title is `str()` of it. This includes a truthy `unique_id` whose number is None. |
| NotionClient.TitleFromNamesAt | src/core/notion_client.py:94-98 | The name search skips properties whose title list is absent or falsy, and stops at the first one with a non-empty list. |
| NotionClient.TitleFromTitleProperty | src/core/notion_client.py:93-100 | Without an ID number, the title comes from the first of "タイトル", "Title", "name" with a non-empty title list: its first element's `plain_text`, or "" if that is absent, or `AttributeError` if the element is not a dict. Later names are not consulted. |
| NotionClient.TitleEmptyWhenNoSource | src/core/notion_client.py:93-100 | With no ID number and all three title lists empty, the title is "". |
| NotionClient.ModeFromSelect | src/core/notion_client.py:111-116 | A truthy `select` decides the mode: its `name`, returned unchecked against the known modes, or "共感・エッセイ型" if it has none. |
| NotionClient.ModeFromMultiSelect | src/core/notion_client.py:118-121 | Without a truthy `select`, the first `multi_select` option's `name` is the mode, or the default mode if it has none. |
| NotionClient.ModeDefault | src/core/notion_client.py:123 | With neither a truthy `select` nor a truthy `multi_select`, or with no mode property, the mode is "共感・エッセイ型". |
| NotionClient.PlainTextsJoin | src/core/notion_client.py:140 | The comprehension succeeds exactly when every element is a dict, and otherwise raises `AttributeError`. When every element's `plain_text` is absent or a string, the join is their in-order concatenation, with "" for absent. A non-string `plain_text` raises `TypeError`. |
| NotionClient.JoinPlainTextSpec | src/core/notion_client.py:138-140 | Over a non-empty rich-text list, the same three outcomes: the concatenation, `AttributeError` or `TypeError`. |
| NotionClient.ContentFromNamesAt | src/core/notion_client.py:134-140 | The name search skips properties whose `rich_text` is absent or falsy, and joins the first truthy one. |
| NotionClient.ContentFromProperty | src/core/notion_client.py:133-142 | The content is the in-order concatenation of the `plain_text` fields of the first of "文章のネタ", "テキスト", "Content", "content" with a non-empty `rich_text` list. |
| NotionClient.ContentEmptyWhenNoSource | src/core/notion_client.py:134-142 | With all four `rich_text` lists absent or empty, the content is "". |
| NotionClient.PropertyOfShaped | src/core/notion_client.py:79 | On a Notion-shaped page, every `properties.get(name, {})` is a property object. |
| NotionClient.TitleFromNamesTotal | src/core/notion_client.py:94-100 | On a Notion-shaped page, the title search never raises and yields a string. |
| NotionClient.ContentFromNamesTotal | src/core/notion_client.py:134-142 | On a Notion-shaped page, the content search never raises. |
| NotionClient.ExtractorsTotal | src/core/notion_client.py:77-142 | On a page of the shape the Notion API returns, none of the three helpers raises, and title and mode are strings. |
| NotionClient.TitleTotal | src/core/notion_client.py:77-100 | On a Notion-shaped page, `_extract_title` does not raise and returns a string. |
| NotionClient.ModeTotal | src/core/notion_client.py:103-123 | On a Notion-shaped page, `_extract_mode` does not raise and returns a string. |
| PyStr.SpaceEnd | src/openai_formatter.py:70 | The first non-whitespace index at or after i: everything skipped is whitespace, and the stopping character is not. |
| PyStr.SpaceStart | src/openai_formatter.py:70 | Where the trailing whitespace run ending at j begins: everything after it is whitespace, and the character before it is not. |
| PyStr.StripSpec | src/openai_formatter.py:70 | `strip()` keeps one contiguous piece with only whitespace cut on either side. The piece neither starts nor ends with whitespace, and it is empty exactly for all-whitespace input. |
| PyStr.StripEmpty | src/openai_formatter.py:76-77 | `line.strip()` is falsy exactly when the line is all whitespace. |
| PyStr.StripIdempotent | src/openai_formatter.py:79 | Stripping a stripped string changes nothing. |
| PyStr.HashEnd | src/openai_formatter.py:79 | `lstrip("#")` drops exactly the leading run of '#'. |
| PyStr.NewlineIndex | src/openai_formatter.py:70 | The first '\n', or the length when there is none. |
| PyStr.Split | src/openai_formatter.py:70 | `split("\n")` gives at least one piece, and no piece contains '\n'. |
| PyStr.JoinSplit | src/openai_formatter.py:70 | `"\n".join(s.split("\n")) == s`. |
| PyStr.SplitJoin | src/openai_formatter.py:70 | Splitting the join of newline-free pieces gives the pieces back. |
| OpenAIFormatter.PromptSelection | src/openai_formatter.py:30-33 | Each of the three modes gets its own prompt, and any other mode gets the empathy/essay prompt. The system prompt is the markdown rules, then "\n\n", then the mode's prompt. |
| OpenAIFormatter.FirstNonBlankFrom | src/openai_formatter.py:75-81 | The search returns the first index whose stripped line is non-empty, with every line before it blank, or none when all lines are blank. |
| OpenAIFormatter.FirstNonBlankAt | src/openai_formatter.py:75-81 | A non-blank line preceded only by blank lines is the one the search finds. |
| OpenAIFormatter.NoTitleWhenAllBlank | src/openai_formatter.py:73-81 | When every line is blank, the search finds no title and leaves the body start at 0. |
| OpenAIFormatter.FindTitleLine | src/openai_formatter.py:73-81 | The `for … break` loop yields the title of the first non-blank line and the index after it, or ("", 0). |
| OpenAIFormatter.SplitReply | src/openai_formatter.py:69-90 | The method returns the specified (title, body). |
| OpenAIFormatter.TitleLineIsFirst | src/openai_formatter.py:70-81 | Unless the reply is all whitespace, the first line of the stripped reply is non-blank, so the search stops at line 0 and never skips a line. |
| OpenAIFormatter.SplitTitleBodyFirstLine | src/openai_formatter.py:69-90 | The split in terms of the stripped reply s alone. The title is s's first line with heading marks and whitespace removed. The body is the text after s's first newline, stripped, or "" with no newline. The result is ("新しい記事", reply) if that title is empty. |
| OpenAIFormatter.TitleOfEmpty | src/openai_formatter.py:79 | The extracted title is empty exactly when the line, after leading whitespace, is a run of '#' followed only by whitespace. |
| OpenAIFormatter.SplitTitleBodySpec | src/openai_formatter.py:69-90 | The fallback ("新しい記事", the reply verbatim) applies exactly when the stripped reply's first line is '#'s then whitespace, which includes a blank reply. Otherwise the title is that line's non-empty extracted title and the body is the stripped rest. The fallback is the fixed title, not the first line that the comment at line 85 mentions. |
| OpenAIFormatter.TitleOfNoNewline | src/openai_formatter.py:79 | A title extracted from a newline-free line has no newline. |
| OpenAIFormatter.FallbackTitleWellFormed | src/openai_formatter.py:87 | "新しい記事" is non-empty, has no surrounding whitespace and has no newline. |
| OpenAIFormatter.TitleWellFormed | src/openai_formatter.py:70-90 | The returned title is never empty, neither starts nor ends with whitespace, and contains no newline. |

## Behaviour worth knowing

These facts about the code are proved in the model.

- **Width bound.** The `_wrap_text` docstring (src/core/image_generator.py:157) says the lines are wrapped to fit within `max_width`. The buffer re-seeded after a split is never measured again, so a line of several characters can exceed the budget (`LineWrap.WidthBoundNotGuaranteed`).
- **Kinsoku on every line.** The same docstring names the Japanese line-breaking rules (禁則処理). When no split position passes both tables, the whole buffer is emitted. The overflowing character then opens the next line even if it is a prohibited line starter (`LineWrap.KinsokuNotGuaranteed`).
- **Third sample title.** The `__main__` block labels its third sample title "Test for 熟語" (src/core/image_generator.py:398). The title has 21 code points, and `_calculate_font_size` gives it 70 (`TitleLayout.SampleTitleSizes`).
- **ASCII in the tables.** The line-start table holds the ASCII `]` and the line-end table holds the ASCII `(` and `[`, beside their fullwidth forms (`Kinsoku.TablesShape`).
- **Blank lines before the title.** The comment "First non-empty line is the title" (src/openai_formatter.py:72) heads a search that can skip blank lines. The reply is stripped before it is split, so its first line is blank only when the whole reply is whitespace, and the search always stops at line 0 (`OpenAIFormatter.TitleLineIsFirst`).
- **The fallback condition.** The fallback title applies exactly when the stripped reply's first line is a run of '#' followed only by whitespace (`OpenAIFormatter.TitleOfEmpty`, `OpenAIFormatter.SplitTitleBodySpec`). A line such as "# #" is not such a run and yields the title "#".
- **The fallback title.** The comment at src/openai_formatter.py:85 says the first line is used as the title when extraction fails. The code uses the fixed title "新しい記事" and the unstripped reply as the body instead (`OpenAIFormatter.SplitTitleBodySpec`).

## Left out

- Pillow drawing and I/O are not modelled: `Image.new`, `draw.text`, `draw.line` and `image.save`. The draws are returned as a sequence of `(x, y, text)` records, and the gradient image as its column of row colours, since every scanline is uniform.
- `textbbox` is a parameter. Glyph metrics depend on the font file.
- `_get_font` and `_get_font_for_title` are not modelled. The font fallback chain probes the filesystem, and `_get_font_for_title` ignores its title.
- `_has_japanese` is not modelled. No modelled operation calls it.
- `_load_background_image` and `create_header_image` are not modelled. They probe files, decode and resize an image, and save the result.
- Gradient.CreateGradientBackground: the floating-point ratio `y / 670` is replaced by the exact rational. `int()` truncation becomes floor division, which agrees because every value is positive. Float rounding of the product is not modelled.
- CharClass.GetCharType: "digit" covers the ASCII and fullwidth digits, '¹', '²', '³' and '①' to '⑨'. Python's `isdigit` also accepts characters that this model classifies as "other". They include the superscripts '⁰' and '⁴' to '⁹', the subscripts '₀' to '₉', the digits '⑴' to '⑼', '⒈' to '⒐', '⓪', '⓵' to '⓽', '⓿', '❶' to '❾', '➀' to '➈' and '➊' to '➒', the digit-with-full-stop and digit-with-comma forms U+1F100 to U+1F10A, and the digits of other scripts (decimal ones such as Arabic-Indic, Devanagari and Thai, and non-decimal ones such as Ethiopic ፩ to ፱). A title rarely holds these, and the full Unicode table makes every proof about scores much more expensive.
- NotionClient.ExtractTitle: JSON numbers are integers only, so `str()` of a float ID is not modelled.
- NotionClient.ExtractTitle: `str()` of a list or dict (Python's `repr`) is not modelled. It yields the distinguished error `ReprNotModelled`.
- NotionClient.ExtractContent: iterating a dict or string `rich_text` raises `AttributeError` whatever the element order, so dict key order is not modelled.
- `fetch_ready_articles`, `mark_as_done` and `get_notion_headers` are not modelled. They are HTTP calls and environment reads.
- `format_article` outside lines 30–33 and 69–90 is not modelled: the environment lookups, the OpenAI client call, the user-message template and the logging.
- The reply is taken to be a string. A `None` content from the API, which would raise on `.strip()`, is not modelled.
- `src/prompts/base.py` and the three mode prompt modules are not part of this model. Their texts are the parameter `PromptTexts`.
- `src/core/note_poster.py`, `src/main.py` and `src/utils/logger.py` are not modelled. They are browser automation, orchestration and logging.
- No width bound or every-line kinsoku guarantee is stated for the wrapper. The code does not provide either one; see "Behaviour worth knowing".
