/**
 The script that writes image tags into a values file and reads them back: a machine over
 lines, with the regular expressions written out as functions on a line.
 */
module Tags {
  import opened Wrappers

  // ---- characters ----

  predicate IsSpace(c: char) { c == ' ' || '\t' <= c <= '\r' || '\U{1C}' <= c <= '\U{1F}' }

  predicate IsKeyChar(c: char) {
    'A' <= c <= 'Z' || 'a' <= c <= 'z' || '0' <= c <= '9' || c == '_' || c == '.' || c == '-'
  }

  /** Only whitespace in this stretch. */
  predicate Spaces(s: string, from: nat, to: nat)
    requires to <= |s|
  {
    forall i | from <= i < to :: IsSpace(s[i])
  }

  /** No quote in this stretch. */
  predicate NoQuotes(s: string, from: nat, to: nat)
    requires to <= |s|
  {
    forall i | from <= i < to :: s[i] != '"'
  }

  /** Where the next quote is, or the length. */
  function NextQuote(s: string, from: nat): (q: nat)
    requires from <= |s|
    ensures from <= q <= |s| && NoQuotes(s, from, q) && (q < |s| ==> s[q] == '"')
    decreases |s| - from
  {
    if from == |s| || s[from] == '"' then from else NextQuote(s, from + 1)
  }

  /** Where the whitespace that starts here ends. */
  function SkipSpaces(s: string, from: nat): (w: nat)
    requires from <= |s|
    ensures from <= w <= |s| && Spaces(s, from, w) && (w < |s| ==> !IsSpace(s[w]))
    decreases |s| - from
  {
    if from == |s| || !IsSpace(s[from]) then from else SkipSpaces(s, from + 1)
  }

  // ---- lines ----

  const IMAGE := "image:"
  const REPOSITORY := "    repository:"
  const TAG := "    tag:"

  predicate StartsWith(line: string, prefix: string) { prefix <= line }

  predicate IsImageLine(line: string) { StartsWith(line, IMAGE) && Spaces(line, |IMAGE|, |line|) }

  predicate IsTopLine(line: string) { line != "" && !IsSpace(line[0]) && !StartsWith(line, IMAGE) }

  function KeyLength(s: string): (n: nat)
    ensures n <= |s|
  {
    if s == "" || !IsKeyChar(s[0]) then 0 else KeyLength(s[1..]) + 1
  }

  /** The key of a line indented by two, if it is one. */
  function KeyOfLine(line: string): Option<string> {
    if !StartsWith(line, "  ") then None
    else
      var rest := line[2..];
      var n := KeyLength(rest);
      if n > 0 && n < |rest| && rest[n] == ':' && Spaces(rest, n + 1, |rest|) then Some(rest[..n]) else None
  }

  /** One way the tag pattern can match: spaces, an opening quote or not, what is captured, a closing quote or not, spaces. */
  datatype Match = Match(spaces: nat, open: nat, length: nat, close: nat) {
    function From(): nat { spaces + open }

    function To(): nat { spaces + open + length }
  }

  predicate Matches(rest: string, m: Match) {
    && m.open <= 1 && m.close <= 1 && m.length >= 1 && m.To() + m.close <= |rest|
    && Spaces(rest, 0, m.spaces) && Spaces(rest, m.To() + m.close, |rest|)
    && NoQuotes(rest, m.From(), m.To())
    && (m.open == 1 ==> rest[m.spaces] == '"') && (m.close == 1 ==> rest[m.To()] == '"')
  }

  /** The order in which a greedy pattern tries: more spaces first, then the quote, then more characters. */
  predicate TriedBefore(m: Match, n: Match) {
    m.spaces > n.spaces || (m.spaces == n.spaces && (m.open > n.open || (m.open == n.open && m.length >= n.length)))
  }

  /**
   How the tag pattern matches what follows `tag:`. Whitespace and an opening quote are
   skipped greedily; without a closing quote the value runs to the end of the line, the
   line end included; of whitespace only, the last character is the value.
   */
  function FirstMatch(rest: string): Option<Match> {
    var w := SkipSpaces(rest, 0);
    if w == |rest| then if rest == "" then None else Some(Match(w - 1, 0, 1, 0))
    else
      var open := if rest[w] == '"' then 1 else 0;
      var p := w + open;
      var q := NextQuote(rest, p);
      if p == |rest| then if w == 0 then None else Some(Match(w - 1, 0, 1, 1))
      else if q == |rest| then Some(Match(w, open, q - p, 0))
      else if q > p && Spaces(rest, q + 1, |rest|) then Some(Match(w, open, q - p, 1))
      else None
  }

  lemma LastSpaceMatches(rest: string, w: nat, close: nat)
    requires 0 < w <= |rest| && Spaces(rest, 0, w) && close <= 1 && w + close == |rest|
    requires close == 1 ==> rest[w] == '"'
    ensures Matches(rest, Match(w - 1, 0, 1, close))
  {
  }

  lemma FirstMatchMatches(rest: string)
    ensures FirstMatch(rest).Some? ==> Matches(rest, FirstMatch(rest).value)
  {
    var w := SkipSpaces(rest, 0);
    if w == |rest| {
      if w > 0 {
        LastSpaceMatches(rest, w, 0);
      }
    } else {
      var p := if rest[w] == '"' then w + 1 else w;
      if p == |rest| {
        if w > 0 {
          LastSpaceMatches(rest, w, 1);
        }
      } else {
        assert rest[w] != '"' ==> NextQuote(rest, w) > w;
      }
    }
  }

  /** A match is found if there is one, and the one found is tried before any other. */
  lemma FirstMatchIsFirst(rest: string, m: Match)
    requires Matches(rest, m)
    ensures FirstMatch(rest).Some? && TriedBefore(FirstMatch(rest).value, m)
  {
    var w := SkipSpaces(rest, 0);
    assert m.spaces <= w;
    if w < |rest| {
      var p := if rest[w] == '"' then w + 1 else w;
      var q := NextQuote(rest, p);
      if m.spaces < w {
        assert IsSpace(rest[m.spaces]);
      }
    }
  }

  /** The value captured. */
  function ReadTag(rest: string): Option<string> {
    FirstMatchMatches(rest);
    var m := FirstMatch(rest);
    if m.None? then None else Some(rest[m.value.From()..m.value.To()])
  }

  // ---- the machine ----

  datatype Cursor = Cursor(inImage: bool, key: Option<string>)

  const START := Cursor(false, None)

  function Advance(c: Cursor, line: string): Cursor {
    if IsImageLine(line) then Cursor(true, None)
    else if !c.inImage then c
    else if IsTopLine(line) then Cursor(false, None)
    else if KeyOfLine(line).Some? then Cursor(true, KeyOfLine(line))
    else c
  }

  /** A line under a key, that is neither the key nor the end of the section. */
  predicate IsBody(c: Cursor, line: string) {
    c.inImage && c.key.Some? && !IsImageLine(line) && !IsTopLine(line) && KeyOfLine(line).None?
  }

  datatype Image = Image(repository: string, tag: string)

  type Updates = map<string, Image>

  function RepositoryLine(i: Image): string { REPOSITORY + " " + i.repository + "\n" }

  function TagLine(i: Image): string { TAG + " \"" + i.tag + "\"\n" }

  function Rewrite(c: Cursor, line: string, updates: Updates): string {
    if !IsBody(c, line) || c.key.value !in updates then line
    else if StartsWith(line, REPOSITORY) then RepositoryLine(updates[c.key.value])
    else if StartsWith(line, TAG) then TagLine(updates[c.key.value])
    else line
  }

  function CursorAt(lines: seq<string>, i: nat): Cursor
    requires i <= |lines|
  {
    if i == 0 then START else Advance(CursorAt(lines, i - 1), lines[i - 1])
  }

  function Update(lines: seq<string>, updates: Updates): (r: seq<string>)
    ensures |r| == |lines|
  {
    seq(|lines|, i requires 0 <= i < |lines| => Rewrite(CursorAt(lines, i), lines[i], updates))
  }

  /** What one line adds to the tags. */
  function ReadLine(c: Cursor, line: string, tags: map<string, string>): map<string, string> {
    if IsBody(c, line) && StartsWith(line, TAG) && ReadTag(line[|TAG|..]).Some?
    then tags[c.key.value := ReadTag(line[|TAG|..]).value]
    else tags
  }

  function ReadUpTo(lines: seq<string>, i: nat): map<string, string>
    requires i <= |lines|
  {
    if i == 0 then map[] else ReadLine(CursorAt(lines, i - 1), lines[i - 1], ReadUpTo(lines, i - 1))
  }

  function Read(lines: seq<string>): map<string, string> { ReadUpTo(lines, |lines|) }

  // ---- the two loops ----

  lemma StartCursor(lines: seq<string>)
    ensures CursorAt(lines, 0) == START
  {
  }

  lemma OneLineOn(lines: seq<string>, updates: Updates, i: nat)
    requires i < |lines|
    ensures CursorAt(lines, i + 1) == Advance(CursorAt(lines, i), lines[i])
    ensures Update(lines, updates)[i] == Rewrite(CursorAt(lines, i), lines[i], updates)
  {
  }

  method UpdateValues(lines: array<string>, updates: Updates)
    modifies lines
    ensures lines[..] == Update(old(lines[..]), updates)
  {
    hide IsImageLine, IsTopLine, KeyOfLine, RepositoryLine, TagLine, StartsWith, Update, CursorAt;
    ghost var was := lines[..];
    ghost var after := Update(was, updates);
    var inImage, currentKey := false, None;
    StartCursor(was);
    for i := 0 to lines.Length
      invariant Cursor(inImage, currentKey) == CursorAt(was, i)
      invariant forall j :: 0 <= j < i ==> lines[j] == after[j]
      invariant forall j :: i <= j < lines.Length ==> lines[j] == was[j]
    {
      var line := lines[i];
      OneLineOn(was, updates, i);
      if IsImageLine(line) {
        inImage, currentKey := true, None;
        continue;
      }
      if inImage {
        if IsTopLine(line) {
          inImage, currentKey := false, None;
          continue;
        }
        var key := KeyOfLine(line);
        if key.Some? {
          currentKey := key;
          continue;
        }
        if currentKey.Some? && currentKey.value in updates {
          var image := updates[currentKey.value];
          if StartsWith(line, REPOSITORY) {
            lines[i] := RepositoryLine(image);
          } else if StartsWith(line, TAG) {
            lines[i] := TagLine(image);
          }
        }
      }
    }
  }

  method ReadValuesTags(lines: seq<string>) returns (tags: map<string, string>)
    ensures tags == Read(lines)
  {
    tags := map[];
    var inImage, currentKey := false, None;
    for i := 0 to |lines|
      invariant Cursor(inImage, currentKey) == CursorAt(lines, i)
      invariant tags == ReadUpTo(lines, i)
    {
      var line := lines[i];
      if IsImageLine(line) {
        inImage, currentKey := true, None;
        continue;
      }
      if inImage {
        if IsTopLine(line) {
          inImage, currentKey := false, None;
          continue;
        }
        var key := KeyOfLine(line);
        if key.Some? {
          currentKey := key;
          continue;
        }
        if currentKey.Some? && StartsWith(line, TAG) {
          var tag := ReadTag(line[|TAG|..]);
          if tag.Some? {
            tags := tags[currentKey.value := tag.value];
          }
        }
      }
    }
  }

  // ---- one line ----

  /** The canonical tag line reads back as its tag exactly if the tag is neither empty nor holds a quote. */
  lemma TagLineReads(i: Image)
    ensures ReadTag(TagLine(i)[|TAG|..]) == Some(i.tag) <==> i.tag != "" && '"' !in i.tag
  {
    var rest := " \"" + i.tag + "\"\n";
    assert TagLine(i)[|TAG|..] == rest;
    var end := 2 + |i.tag|;
    assert rest[0] == ' ' && rest[1] == '"' && rest[end] == '"' && rest[end + 1] == '\n' && |rest| == end + 2;
    assert rest[2..end] == i.tag;
    var q := NextQuote(rest, 2);
    assert SkipSpaces(rest, 0) == 1;
    if '"' in i.tag {
      var j :| 0 <= j < |i.tag| && i.tag[j] == '"';
      assert rest[2 + j] == '"';
      assert q < end && !Spaces(rest, q + 1, |rest|);
    } else {
      assert forall j :: 2 <= j < end ==> rest[j] == i.tag[j - 2];
      assert q == end;
    }
  }

  // ---- the whole file ----

  /** A rewritten line is still a line under the key, so the machine goes on as before. */
  lemma RewrittenSame(c: Cursor, line: string, updates: Updates)
    ensures var r := Rewrite(c, line, updates);
      && Advance(c, r) == Advance(c, line) && (IsBody(c, r) <==> IsBody(c, line))
      && Rewrite(c, r, updates) == r
  {
    var r := Rewrite(c, line, updates);
    if r != line {
      assert r[0] == ' ' && r[2] == ' ';
      assert r[2..][0] == ' ';
      assert KeyOfLine(r).None?;
      if !StartsWith(line, REPOSITORY) {
        assert r[4] == 't';
      }
    }
  }

  lemma {:induction false} CursorSame(lines: seq<string>, updates: Updates, i: nat)
    requires i <= |lines|
    ensures CursorAt(Update(lines, updates), i) == CursorAt(lines, i)
  {
    hide Rewrite, Advance, IsBody;
    if i > 0 {
      CursorSame(lines, updates, i - 1);
      RewrittenSame(CursorAt(lines, i - 1), lines[i - 1], updates);
    }
  }

  /** Updating twice is updating once. */
  lemma UpdateIdempotent(lines: seq<string>, updates: Updates)
    ensures Update(Update(lines, updates), updates) == Update(lines, updates)
  {
    forall i | 0 <= i < |lines|
      ensures Update(Update(lines, updates), updates)[i] == Update(lines, updates)[i]
    {
      CursorSame(lines, updates, i);
      RewrittenSame(CursorAt(lines, i), lines[i], updates);
    }
  }

  /** Only the repository and tag lines of updated keys, in the image section, change. */
  lemma ChangedLines(lines: seq<string>, updates: Updates, i: nat)
    requires i < |lines| && Update(lines, updates)[i] != lines[i]
    ensures var c := CursorAt(lines, i);
      && c.inImage && c.key.Some? && c.key.value in updates && IsBody(c, lines[i])
      && (StartsWith(lines[i], REPOSITORY) || StartsWith(lines[i], TAG))
  {
  }

  // ---- which lines are under a key ----

  /** Line `s` opens the image section and line `i` is still in it. */
  ghost predicate InSection(lines: seq<string>, s: nat, i: nat)
    requires i <= |lines|
  {
    s < i && IsImageLine(lines[s]) && forall m :: s < m < i ==> !IsTopLine(lines[m])
  }

  /** Line `j` names the key, and up to line `i` no line opens a section or names another. */
  ghost predicate KeyHolds(lines: seq<string>, j: nat, i: nat, key: string)
    requires i <= |lines|
  {
    && j < i && KeyOfLine(lines[j]) == Some(key)
    && forall m :: j < m < i ==> !IsImageLine(lines[m]) && KeyOfLine(lines[m]).None?
  }

  /** Line `i` is in the image section, under this key. */
  ghost predicate Under(lines: seq<string>, i: nat, key: string)
    requires i <= |lines|
  {
    exists s, j | 0 <= s < j < i :: InSection(lines, s, i) && KeyHolds(lines, j, i, key)
  }

  lemma LineKinds(line: string)
    ensures IsImageLine(line) ==> !IsTopLine(line) && KeyOfLine(line).None?
    ensures IsTopLine(line) ==> KeyOfLine(line).None?
  {
  }

  /** The flag is on exactly in the image section. */
  lemma {:induction false} FlagMeans(lines: seq<string>, i: nat)
    requires i <= |lines|
    ensures CursorAt(lines, i).inImage <==> exists s :: 0 <= s < i && InSection(lines, s, i)
  {
    hide IsImageLine, IsTopLine, KeyOfLine;
    if i > 0 {
      FlagMeans(lines, i - 1);
      LineKinds(lines[i - 1]);
      var c := CursorAt(lines, i - 1);
      if IsImageLine(lines[i - 1]) {
        assert InSection(lines, i - 1, i);
      } else if c.inImage && !IsTopLine(lines[i - 1]) {
        var s :| 0 <= s < i - 1 && InSection(lines, s, i - 1);
        assert InSection(lines, s, i);
      } else {
        forall s | 0 <= s < i ensures !InSection(lines, s, i) {
          assert s < i - 1 && InSection(lines, s, i) ==> InSection(lines, s, i - 1);
        }
      }
    }
  }

  /** The two flags of the loop say exactly under which key a line is. */
  lemma {:induction false} CursorMeans(lines: seq<string>, i: nat, key: string)
    requires i <= |lines|
    ensures CursorAt(lines, i) == Cursor(true, Some(key)) <==> Under(lines, i, key)
  {
    hide IsImageLine, IsTopLine, KeyOfLine;
    if i > 0 {
      CursorMeans(lines, i - 1, key);
      FlagMeans(lines, i - 1);
      var line := lines[i - 1];
      LineKinds(line);
      if CursorAt(lines, i) == Cursor(true, Some(key)) {
        if KeyOfLine(line).Some? {
          var s :| 0 <= s < i - 1 && InSection(lines, s, i - 1);
          assert InSection(lines, s, i) && KeyHolds(lines, i - 1, i, key);
        } else {
          var s, j :| 0 <= s < j < i - 1 && InSection(lines, s, i - 1) && KeyHolds(lines, j, i - 1, key);
          assert InSection(lines, s, i) && KeyHolds(lines, j, i, key);
        }
      }
      if Under(lines, i, key) {
        var s, j :| 0 <= s < j < i && InSection(lines, s, i) && KeyHolds(lines, j, i, key);
        assert s < i - 1 && InSection(lines, s, i - 1);
        if j < i - 1 {
          assert KeyHolds(lines, j, i - 1, key);
        }
      }
    }
  }

  /** A line indented by four is neither a section, nor a key, nor the end of one. */
  lemma IndentedByFour(line: string)
    requires StartsWith(line, "    ")
    ensures !IsImageLine(line) && !IsTopLine(line) && KeyOfLine(line).None?
  {
    assert line[0] == ' ' && line[2..][0] == line[2] == ' ';
  }

  /**
   Under an updated key each repository line becomes the repository of that key and each
   tag line its tag, quoted; a line that is neither, or is under no updated key, stays.
   */
  lemma LinesWritten(lines: seq<string>, updates: Updates, i: nat)
    requires i < |lines|
    ensures forall key :: Under(lines, i, key) && key in updates ==>
      Update(lines, updates)[i] ==
        if StartsWith(lines[i], "    repository:") then "    repository: " + updates[key].repository + "\n"
        else if StartsWith(lines[i], "    tag:") then "    tag: \"" + updates[key].tag + "\"\n"
        else lines[i]
    ensures (forall key :: key in updates ==> !Under(lines, i, key)) ==> Update(lines, updates)[i] == lines[i]
  {
    hide IsImageLine, IsTopLine, KeyOfLine, Under;
    var c, line := CursorAt(lines, i), lines[i];
    if StartsWith(line, REPOSITORY) || StartsWith(line, TAG) {
      assert line[..4] == "    ";
      IndentedByFour(line);
    }
    forall key ensures c == Cursor(true, Some(key)) <==> Under(lines, i, key) {
      CursorMeans(lines, i, key);
    }
    assert REPOSITORY + " " == "    repository: " && TAG + " \"" == "    tag: \"";
  }

  /** The line is a tag line of this key. */
  predicate IsTagOf(c: Cursor, line: string, key: string) {
    IsBody(c, line) && c.key == Some(key) && StartsWith(line, TAG)
  }

  predicate HasTagLine(lines: seq<string>, upTo: nat, key: string)
    requires upTo <= |lines|
  {
    exists i | 0 <= i < upTo :: IsTagOf(CursorAt(lines, i), lines[i], key)
  }

  predicate GoodTag(i: Image) { i.tag != "" && '"' !in i.tag }

  /** What one key reads as after the update, from what it read as before. */
  ghost predicate ReadsBack(key: string, updates: Updates, hasTag: bool, before: map<string, string>, after: map<string, string>) {
    if key in updates
    then (key in after <==> hasTag) && (hasTag ==> after[key] == updates[key].tag)
    else (key in after <==> key in before) && (key in before ==> after[key] == before[key])
  }

  lemma LineReadsBack(c: Cursor, line: string, updates: Updates, key: string, hasTag: bool,
                      before: map<string, string>, after: map<string, string>)
    requires key in updates ==> GoodTag(updates[key])
    requires ReadsBack(key, updates, hasTag, before, after)
    ensures ReadsBack(key, updates, hasTag || IsTagOf(c, line, key),
                      ReadLine(c, line, before), ReadLine(c, Rewrite(c, line, updates), after))
  {
    var r := Rewrite(c, line, updates);
    RewrittenSame(c, line, updates);
    if c.key == Some(key) && IsBody(c, line) && key in updates {
      if StartsWith(line, REPOSITORY) {
        assert r[4] == 'r' && line[4] == 'r';
      } else if StartsWith(line, TAG) {
        TagLineReads(updates[key]);
        assert StartsWith(r, TAG);
      }
    }
  }

  lemma NothingRead(key: string, updates: Updates)
    ensures ReadsBack(key, updates, false, map[], map[])
  {
  }

  lemma {:induction false} ReadsBackUpTo(lines: seq<string>, updates: Updates, i: nat, key: string)
    requires i <= |lines| && (key in updates ==> GoodTag(updates[key]))
    ensures ReadsBack(key, updates, HasTagLine(lines, i, key), ReadUpTo(lines, i), ReadUpTo(Update(lines, updates), i))
  {
    hide Rewrite, Advance, IsBody, ReadLine, ReadsBack, IsTagOf, GoodTag, CursorAt;
    if i == 0 {
      NothingRead(key, updates);
    } else {
      ReadsBackUpTo(lines, updates, i - 1, key);
      CursorSame(lines, updates, i - 1);
      var c := CursorAt(lines, i - 1);
      LineReadsBack(c, lines[i - 1], updates, key, HasTagLine(lines, i - 1, key),
                    ReadUpTo(lines, i - 1), ReadUpTo(Update(lines, updates), i - 1));
      assert HasTagLine(lines, i, key) <==> HasTagLine(lines, i - 1, key) || IsTagOf(c, lines[i - 1], key);
    }
  }

  /**
   Reading after the update: a key that was updated and has a tag line reads as its new
   tag, without one it is not read; every other key reads as before.
   */
  lemma UpdateReadsBack(lines: seq<string>, updates: Updates, key: string)
    requires key in updates ==> GoodTag(updates[key])
    ensures ReadsBack(key, updates, HasTagLine(lines, |lines|, key), Read(lines), Read(Update(lines, updates)))
  {
    ReadsBackUpTo(lines, updates, |lines|, key);
  }

  // ---- text ----

  /** Universal newlines. */
  function Translate(text: string): string {
    if text == "" then ""
    else if text[0] == '\r' then
      if |text| > 1 && text[1] == '\n' then "\n" + Translate(text[2..]) else "\n" + Translate(text[1..])
    else [text[0]] + Translate(text[1..])
  }

  function LineEnd(text: string, from: nat): (n: nat)
    requires from < |text|
    ensures from < n <= |text|
    ensures forall i :: from <= i < n - 1 ==> text[i] != '\n'
    ensures n < |text| ==> text[n - 1] == '\n'
    decreases |text| - from
  {
    if text[from] == '\n' || from + 1 == |text| then from + 1 else LineEnd(text, from + 1)
  }

  /** Each line with its end; the last may have none. */
  function SplitLines(text: string): seq<string> {
    if text == "" then [] else [text[..LineEnd(text, 0)]] + SplitLines(text[LineEnd(text, 0)..])
  }

  function ReadLines(text: string): seq<string> { SplitLines(Translate(text)) }

  function Join(lines: seq<string>): string {
    if lines == [] then "" else lines[0] + Join(lines[1..])
  }

  predicate NoCR(s: string) { '\r' !in s }

  /** One line: not empty, no line end before its last character. */
  predicate IsLine(line: string) {
    line != "" && NoCR(line) && forall i | 0 <= i < |line| - 1 :: line[i] != '\n'
  }

  predicate Ended(line: string) { line != "" && line[|line| - 1] == '\n' }

  ghost predicate AreLines(lines: seq<string>) {
    && (forall i :: 0 <= i < |lines| ==> IsLine(lines[i]))
    && (forall i :: 0 <= i < |lines| - 1 ==> Ended(lines[i]))
  }

  lemma {:induction false} TranslatedNoCR(text: string)
    ensures NoCR(Translate(text))
    decreases |text|
  {
    if text != "" {
      if text[0] == '\r' && |text| > 1 && text[1] == '\n' {
        TranslatedNoCR(text[2..]);
      } else {
        TranslatedNoCR(text[1..]);
      }
    }
  }

  lemma {:induction false} TranslateNothing(text: string)
    requires NoCR(text)
    ensures Translate(text) == text
  {
    if text != "" {
      assert text[0] in text;
      TranslateNothing(text[1..]);
    }
  }

  lemma {:induction false} SplitIsLines(text: string)
    requires NoCR(text)
    ensures AreLines(SplitLines(text))
    decreases |text|
  {
    if text != "" {
      var n := LineEnd(text, 0);
      SplitIsLines(text[n..]);
      var rest := SplitLines(text[n..]);
      var lines := SplitLines(text);
      assert lines == [text[..n]] + rest;
      assert IsLine(text[..n]);
      forall i | 0 <= i < |lines| ensures IsLine(lines[i]) {
        assert i > 0 ==> lines[i] == rest[i - 1];
      }
      forall i | 0 <= i < |lines| - 1 ensures Ended(lines[i]) {
        assert i > 0 ==> lines[i] == rest[i - 1];
      }
    }
  }

  lemma LineEndAt(line: string, rest: string)
    requires IsLine(line) && (rest != "" ==> Ended(line))
    ensures LineEnd(line + rest, 0) == |line|
  {
    var text := line + rest;
    assert forall i :: 0 <= i < |line| ==> text[i] == line[i];
  }

  lemma {:induction false} SplitJoined(lines: seq<string>)
    requires AreLines(lines)
    ensures SplitLines(Join(lines)) == lines && NoCR(Join(lines))
  {
    if lines != [] {
      var line, rest := lines[0], lines[1..];
      SplitJoined(rest);
      assert IsLine(line);
      assert rest != [] ==> Ended(line);
      LineEndAt(line, Join(rest));
      assert (line + Join(rest))[..|line|] == line && (line + Join(rest))[|line|..] == Join(rest);
      assert lines == [line] + rest;
    }
  }

  predicate OneLine(s: string) { '\n' !in s && '\r' !in s }

  ghost predicate PlainUpdates(updates: Updates) {
    forall k :: k in updates ==> OneLine(updates[k].repository) && OneLine(updates[k].tag)
  }

  lemma WrittenLine(prefix: string, value: string, end: string)
    requires OneLine(prefix) && OneLine(value) && |end| >= 1 && end[|end| - 1] == '\n' && OneLine(end[..|end| - 1])
    ensures IsLine(prefix + value + end) && Ended(prefix + value + end)
  {
    var r := prefix + value + end;
    forall i | 0 <= i < |r| ensures r[i] != '\r' && (i < |r| - 1 ==> r[i] != '\n') {
      var e := i - |prefix| - |value|;
      assert if i < |prefix| then r[i] in prefix else if e < 0 then r[i] in value
             else e == |end| - 1 || r[i] in end[..|end| - 1];
    }
  }

  lemma RewrittenLine(c: Cursor, line: string, updates: Updates)
    requires IsLine(line) && PlainUpdates(updates)
    ensures IsLine(Rewrite(c, line, updates)) && (Ended(line) ==> Ended(Rewrite(c, line, updates)))
  {
    if Rewrite(c, line, updates) != line {
      var image := updates[c.key.value];
      WrittenLine(REPOSITORY + " ", image.repository, "\n");
      WrittenLine(TAG + " \"", image.tag, "\"\n");
      hide IsBody, StartsWith, IsLine;
    }
  }

  lemma UpdateKeepsLines(lines: seq<string>, updates: Updates)
    requires AreLines(lines) && PlainUpdates(updates)
    ensures AreLines(Update(lines, updates))
  {
    hide Rewrite, CursorAt, IsLine, Ended, PlainUpdates;
    forall i | 0 <= i < |lines|
      ensures IsLine(Update(lines, updates)[i]) && (i < |lines| - 1 ==> Ended(Update(lines, updates)[i]))
    {
      assert IsLine(lines[i]);
      RewrittenLine(CursorAt(lines, i), lines[i], updates);
    }
  }

  /** The file written back. */
  function UpdateText(text: string, updates: Updates): string { Join(Update(ReadLines(text), updates)) }

  /**
   Round trip over the file: for tags without quotes or line ends and repositories without
   line ends, the file read after the update has as many lines, gives every updated key
   that has a tag line its new tag and all others their old reading, and a second update
   writes the same text.
   */
  lemma UpdatedFileReadsBack(text: string, updates: Updates, key: string)
    requires PlainUpdates(updates) && (key in updates ==> GoodTag(updates[key]))
    ensures var lines, after := ReadLines(text), ReadLines(UpdateText(text, updates));
      && after == Update(lines, updates) && |after| == |lines|
      && ReadsBack(key, updates, HasTagLine(lines, |lines|, key), Read(lines), Read(after))
      && UpdateText(UpdateText(text, updates), updates) == UpdateText(text, updates)
  {
    var lines := ReadLines(text);
    TranslatedNoCR(text);
    SplitIsLines(Translate(text));
    UpdateKeepsLines(lines, updates);
    SplitJoined(Update(lines, updates));
    TranslateNothing(UpdateText(text, updates));
    UpdateReadsBack(lines, updates, key);
    UpdateIdempotent(lines, updates);
  }
}
