/** The Python `str` methods the reply splitter uses: `strip`, `lstrip`
    of a character, `split("\n")` and `"\n".join`. Strings are sequences
    of code points, as Python's are. */
module PyStr {

  /** `c.isspace()`: the characters Python's argument-less `strip` removes. */
  predicate IsSpace(c: char) {
    ('\t' <= c <= '\r') || ('\U{1C}' <= c <= '\U{1F}') || c == ' ' ||
    c == '\U{85}' || c == '\U{A0}' || c == '\U{1680}' ||
    ('\U{2000}' <= c <= '\U{200A}') || c == '\U{2028}' || c == '\U{2029}' ||
    c == '\U{202F}' || c == '\U{205F}' || c == '\U{3000}'
  }

  predicate AllSpace(s: string) {
    forall i :: 0 <= i < |s| ==> IsSpace(s[i])
  }

  /** The index of the first non-whitespace character of `s` at or after
      `i`, or `|s|`. */
  function SpaceEnd(s: string, i: nat): (k: nat)
    requires i <= |s|
    ensures i <= k <= |s|
    ensures forall j :: i <= j < k ==> IsSpace(s[j])
    ensures k < |s| ==> !IsSpace(s[k])
    decreases |s| - i
  {
    if i < |s| && IsSpace(s[i]) then SpaceEnd(s, i + 1) else i
  }

  /** The index where the whitespace run ending at `j` begins. */
  function SpaceStart(s: string, j: nat): (k: nat)
    requires j <= |s|
    ensures k <= j
    ensures forall i :: k <= i < j ==> IsSpace(s[i])
    ensures k > 0 ==> !IsSpace(s[k - 1])
    decreases j
  {
    if j > 0 && IsSpace(s[j - 1]) then SpaceStart(s, j - 1) else j
  }

  /** `s.lstrip()`: the suffix left after dropping the leading whitespace. */
  function LStrip(s: string): string {
    s[SpaceEnd(s, 0)..]
  }

  /** `s.rstrip()`: the prefix left after dropping the trailing whitespace. */
  function RStrip(s: string): string {
    s[..SpaceStart(s, |s|)]
  }

  /** `s.strip()`. */
  function Strip(s: string): string {
    RStrip(LStrip(s))
  }

  /** `strip` keeps the piece of `s` between its leading and its trailing
      whitespace: a contiguous piece, with only whitespace cut on either
      side, that neither starts nor ends with whitespace and is empty
      exactly when `s` is all whitespace. */
  lemma StripSpec(s: string)
    ensures var a := SpaceEnd(s, 0);
      var r := Strip(s);
      a + |r| <= |s| && r == s[a..a + |r|] &&
      AllSpace(s[..a]) && AllSpace(s[a + |r|..])
    ensures var r := Strip(s);
      r != [] ==> !IsSpace(r[0]) && !IsSpace(r[|r| - 1])
    ensures Strip(s) == [] <==> AllSpace(s)
  {
    var a := SpaceEnd(s, 0);
    var l := LStrip(s);
    var b := SpaceStart(l, |l|);
    var r := Strip(s);
    assert l == s[a..] && r == l[..b] && |r| == b;
    assert r == s[a..a + |r|];
    assert AllSpace(s[a + |r|..]) by {
      assert forall i :: a + b <= i < |s| ==> s[i] == l[i - a];
    }
    assert AllSpace(s) ==> a == |s|;
    if r != [] {
      assert r[0] == s[a];
    }
  }

  /** `strip` empties exactly the all-whitespace strings. */
  lemma StripEmpty(s: string)
    ensures Strip(s) == [] <==> AllSpace(s)
  {
    StripSpec(s);
  }

  /** `strip` removes nothing from a string it returned. */
  lemma StripIdempotent(s: string)
    ensures Strip(Strip(s)) == Strip(s)
  {
    var r := Strip(s);
    StripSpec(s);
    if r != [] {
      assert LStrip(r) == r;
      assert RStrip(r) == r;
    }
  }

  /** The index of the first character of `s` at or after `i` that is not
      '#', or `|s|`. */
  function HashEnd(s: string, i: nat): (k: nat)
    requires i <= |s|
    ensures i <= k <= |s|
    ensures forall j :: i <= j < k ==> s[j] == '#'
    ensures k < |s| ==> s[k] != '#'
    decreases |s| - i
  {
    if i < |s| && s[i] == '#' then HashEnd(s, i + 1) else i
  }

  /** `s.lstrip("#")`: the suffix left after dropping the leading '#'s. */
  function LStripHash(s: string): string {
    s[HashEnd(s, 0)..]
  }

  /** The index of the first '\n' in `s`, or `|s|` when there is none. */
  function NewlineIndex(s: string): (k: nat)
    ensures k <= |s|
    ensures forall i :: 0 <= i < k ==> s[i] != '\n'
    ensures k < |s| ==> s[k] == '\n'
    decreases |s|
  {
    if s == [] then 0
    else if s[0] == '\n' then 0
    else 1 + NewlineIndex(s[1..])
  }

  predicate NoNewline(s: string) {
    forall i :: 0 <= i < |s| ==> s[i] != '\n'
  }

  /** `s.split("\n")`. */
  function Split(s: string): (parts: seq<string>)
    ensures |parts| >= 1
    ensures forall j :: 0 <= j < |parts| ==> NoNewline(parts[j])
    decreases |s|
  {
    var k := NewlineIndex(s);
    if k == |s| then [s] else [s[..k]] + Split(s[k + 1..])
  }

  /** `"\n".join(parts)`. */
  function Join(parts: seq<string>): string
    decreases |parts|
  {
    if parts == [] then ""
    else if |parts| == 1 then parts[0]
    else parts[0] + "\n" + Join(parts[1..])
  }

  /** Joining the pieces of a split gives the string back. */
  lemma {:induction false} JoinSplit(s: string)
    ensures Join(Split(s)) == s
    decreases |s|
  {
    var k := NewlineIndex(s);
    if k < |s| {
      var rest := Split(s[k + 1..]);
      JoinSplit(s[k + 1..]);
      var parts := [s[..k]] + rest;
      assert Split(s) == parts;
      assert parts[0] == s[..k] && parts[1..] == rest;
      assert Join(parts) == s[..k] + "\n" + Join(rest);
      assert s == s[..k] + "\n" + s[k + 1..];
    }
  }

  /** Splitting a join of newline-free pieces gives the pieces back. */
  lemma {:induction false} SplitJoin(parts: seq<string>)
    requires |parts| >= 1
    requires forall j :: 0 <= j < |parts| ==> NoNewline(parts[j])
    ensures Split(Join(parts)) == parts
    decreases |parts|
  {
    var s := Join(parts);
    if |parts| == 1 {
      assert NewlineIndex(s) == |s|;
    } else {
      var p, tail := parts[0], Join(parts[1..]);
      SplitJoin(parts[1..]);
      assert s == p + "\n" + tail;
      assert forall i :: 0 <= i < |p| ==> s[i] == p[i];
      NewlineIndexAt(s, |p|);
      assert s[..|p|] == p && s[|p| + 1..] == tail;
      assert Split(s) == [p] + Split(tail);
      assert parts == [p] + parts[1..];
    }
  }

  lemma NewlineIndexAt(s: string, k: nat)
    requires k < |s| && s[k] == '\n'
    requires forall i :: 0 <= i < k ==> s[i] != '\n'
    ensures NewlineIndex(s) == k
  {
  }
}
