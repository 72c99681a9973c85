/**
 * The outline decoder: `markdown_to_sheets`, `_parse_sheet_block`,
 * `_parse_md_items`, `_parse_title_meta` and `_apply_block_meta`. Each
 * regular expression the source applies is written out as a string function
 * with Python's semantics for it; each loop is a method proved equal to a
 * function that states what the loop computes.
 */
module MarkdownDecode {
  import opened Wrappers
  import opened Text
  import opened Seqs
  import opened Model

  // ---------------------------------------------------------------------
  // The line patterns
  // ---------------------------------------------------------------------

  /** What `(.+)$` or `(.*)$` can capture from `rest`: Python's `$` matches
      at the end or just before a final newline, and `.` never matches a
      newline. */
  function LineBody(rest: string): (r: Option<string>)
    ensures r.Some? ==> '\n' !in r.value && StartsWith(rest, r.value)
    ensures '\n' !in rest ==> r == Some(rest)
  {
    var body := if rest != [] && rest[|rest| - 1] == '\n' then rest[..|rest| - 1] else rest;
    if '\n' in body then None else Some(body)
  }

  /** `re.match(r'^(\s*)- (.+)$', line)`: the length of group 1 and group 2.
      The dash is not whitespace, so `\s*` stops exactly at the first
      non-whitespace character. */
  function ItemMatch(line: string): (r: Option<(nat, string)>)
    ensures r.Some? ==> r.value.0 == LeadingSpaces(line) && MatchAt(line, r.value.0, "- ")
    ensures r.Some? ==> r.value.1 != [] && '\n' !in r.value.1
    ensures r.None? && MatchAt(line, LeadingSpaces(line), "- ") ==>
      var rest := line[LeadingSpaces(line) + 2..]; LineBody(rest).None? || LineBody(rest) == Some([])
  {
    var n := LeadingSpaces(line);
    if MatchAt(line, n, "- ") then
      match LineBody(line[n + 2..])
      case Some(body) => if body != [] then Some((n, body)) else None
      case None => None
    else None
  }

  /** `re.match(r'^(\s*)- ', line)`: the indent of a bullet line. */
  function BulletIndent(line: string): (r: Option<nat>)
    ensures r.Some? <==> MatchAt(line, LeadingSpaces(line), "- ")
    ensures r.Some? ==> r.value == LeadingSpaces(line)
  {
    var n := LeadingSpaces(line);
    if MatchAt(line, n, "- ") then Some(n) else None
  }

  /** `re.match(r'^(\s*)> (.*)$', line)`: the indent and the quoted text. */
  function QuoteMatch(line: string): (r: Option<(nat, string)>)
    ensures r.Some? ==> r.value.0 == LeadingSpaces(line) && MatchAt(line, r.value.0, "> ")
    ensures r.Some? ==> '\n' !in r.value.1
    ensures MatchAt(line, LeadingSpaces(line), "> ") && '\n' !in line ==>
      r == Some((LeadingSpaces(line), line[LeadingSpaces(line) + 2..]))
  {
    var n := LeadingSpaces(line);
    if MatchAt(line, n, "> ") then
      match LineBody(line[n + 2..])
      case Some(body) => Some((n, body))
      case None => None
    else None
  }

  /** A line made of whitespace only: one `strip()` reduces to nothing
      (BlankStrip). */
  predicate Blank(line: string) {
    LeadingSpaces(line) == |line|
  }

  lemma BlankStrip(line: string)
    ensures Blank(line) <==> Strip(line) == ""
  {
    LStripShape(line);
    LeadingSpacesShape(line);
    var r := LStrip(line);
    if Blank(line) {
      assert line[..LeadingSpaces(line)] == line;
    }
    if Strip(line) == "" {
      RStripShape(r);
      assert r[|RStrip(r)|..] == r;
      assert line[..|line| - |r|] == line;
    }
  }

  // ---------------------------------------------------------------------
  // Inline metadata: `_parse_title_meta`
  // ---------------------------------------------------------------------

  /** The literal start of `\{key:`. */
  function TagOpen(key: string): string {
    "{" + key + ":"
  }

  /** Where `\{key:\s*([^}]+)\}` matches at `p`, the index of its closing
      brace: the first `}` after the opening, with at least one character
      between them. */
  function TagAt(t: string, open: string, p: nat): (r: Option<nat>)
    ensures r.Some? ==> p + |open| < r.value < |t|
  {
    if MatchAt(t, p, open) then
      var q := p + |open|;
      var j := IndexOf(t[q..], '}');
      if j > 0 then Some(q + j) else None
    else None
  }

  /** A match is an opening followed, after at least one character, by the
      first closing brace; no match at an opening means there is no closing
      brace after it, or one right after it. */
  lemma TagAtShape(t: string, open: string, p: nat)
    ensures TagAt(t, open, p).Some? ==> MatchAt(t, p, open)
    ensures TagAt(t, open, p).Some?
      ==> t[TagAt(t, open, p).value] == '}' && '}' !in t[p + |open|..TagAt(t, open, p).value]
    ensures MatchAt(t, p, open) && TagAt(t, open, p).None?
      ==> '}' !in t[p + |open|..] || (p + |open| < |t| && t[p + |open|] == '}')
  {
    if MatchAt(t, p, open) {
      IndexOfShape(t[p + |open|..], '}');
    }
  }

  /** `re.search` for the tag from position `p` on: the leftmost start and
      the index of the closing brace. */
  function SearchTag(t: string, open: string, p: nat): (r: Option<(nat, nat)>)
    ensures r.Some? ==> p <= r.value.0 && TagAt(t, open, r.value.0) == Some(r.value.1)
    decreases |t| - p
  {
    if p >= |t| then None
    else
      match TagAt(t, open, p)
      case Some(e) => Some((p, e))
      case None => SearchTag(t, open, p + 1)
  }

  /** The search finds the leftmost match, and finds one whenever there is
      one. */
  lemma {:induction false} SearchTagLeftmost(t: string, open: string, p: nat)
    ensures SearchTag(t, open, p).Some? ==> forall i :: p <= i < SearchTag(t, open, p).value.0 ==> TagAt(t, open, i).None?
    ensures SearchTag(t, open, p).None? ==> forall i :: p <= i <= |t| ==> TagAt(t, open, i).None?
    decreases |t| - p
  {
    if p >= |t| {
      assert forall i :: p <= i <= |t| ==> !MatchAt(t, i, open) || i + |open| >= |t|;
    } else if TagAt(t, open, p).None? {
      SearchTagLeftmost(t, open, p + 1);
    }
  }

  /** `match.group(1).strip()`: the group starts after as much whitespace as
      `\s*` can take while leaving one character for `[^}]+`. */
  function TagValue(t: string, open: string, start: nat, close: nat): string
    requires start + |open| < close <= |t|
  {
    var q := start + |open|;
    var lead := LeadingSpaces(t[q..close]);
    var skip := if lead < close - q then lead else close - q - 1;
    Strip(t[q + skip..close])
  }

  /** `[v.strip() for v in parts if v.strip()]`. */
  function KeepStripped(parts: seq<string>): (r: seq<string>)
    ensures |r| <= |parts|
    ensures forall i :: 0 <= i < |r| ==> r[i] != []
  {
    if parts == [] then []
    else (if Strip(parts[0]) != "" then [Strip(parts[0])] else []) + KeepStripped(parts[1..])
  }

  /** A comma-separated value list: split, trimmed, empties dropped. */
  function SplitList(val: string): (r: seq<string>)
    ensures forall i :: 0 <= i < |r| ==> r[i] != []
  {
    KeepStripped(Split(val, ","))
  }

  /** The keys `_parse_title_meta` looks for, in order. */
  const TagKeys: seq<string> := ["labels", "link", "markers"]

  datatype TitleAcc = TitleAcc(topic: Topic, remaining: string)

  /** The field a tag sets: lists for labels and markers, the plain value for
      the link. */
  function ApplyTag(t: Topic, key: string, val: string): (r: Topic)
    ensures r.title == t.title && r.children == t.children && r.notes == t.notes && r.id == t.id
  {
    if key == "labels" then t.(labels := SplitList(val))
    else if key == "markers" then t.(markers := SplitList(val))
    else t.(link := val)
  }

  /** One turn of the loop over the keys: on a match, set the field and cut
      the matched fragment out of `remaining`. */
  function TagStep(acc: TitleAcc, key: string): (r: TitleAcc)
    ensures |r.remaining| <= |acc.remaining|
    ensures r.remaining == acc.remaining <==> SearchTag(acc.remaining, TagOpen(key), 0).None?
  {
    var rem := acc.remaining;
    var m := SearchTag(rem, TagOpen(key), 0);
    if m.None? then acc
    else TitleAcc(ApplyTag(acc.topic, key, TagValue(rem, TagOpen(key), m.value.0, m.value.1)),
                  Cut(rem, m.value.0, m.value.1))
  }

  /** `rem[:start] + rem[end:]` for a match from `s` to the brace at `c`. */
  function Cut(rem: string, s: nat, c: nat): (r: string)
    requires s <= c < |rem|
    ensures |r| < |rem|
  {
    rem[..s] + rem[c + 1..]
  }

  function TagFold(keys: seq<string>, acc: TitleAcc): (r: TitleAcc)
    ensures |r.remaining| <= |acc.remaining|
    ensures r.topic.title == acc.topic.title && r.topic.children == acc.topic.children
    ensures r.topic.notes == acc.topic.notes && r.topic.id == acc.topic.id
  {
    if keys == [] then acc else TagStep(TagFold(keys[..|keys| - 1], acc), keys[|keys| - 1])
  }

  /** `_parse_title_meta(raw)`: a fresh topic with the inline tags applied and
      the rest of the text, trimmed, as its title. */
  function ParseTitleMeta(raw: string): (r: Topic)
    ensures r.id == FreshId && r.children == [] && r.notes == ""
    ensures Trimmed(r.title) && |r.title| <= |raw|
  {
    var acc := TagFold(TagKeys, TitleAcc(NewTopic("", ""), raw));
    StripTrims(acc.remaining);
    acc.topic.(title := Strip(acc.remaining))
  }

  lemma StripTrims(s: string)
    ensures Trimmed(Strip(s)) && |Strip(s)| <= |s|
  {
    RStripShape(LStrip(s));
  }

  /** `_parse_title_meta` as the source runs it. */
  method ParseTitleMetaLoop(raw: string) returns (topic: Topic)
    ensures topic == ParseTitleMeta(raw)
  {
    ghost var init := TitleAcc(NewTopic("", ""), raw);
    topic := NewTopic("", "");
    var remaining := raw;
    var k := 0;
    while k < |TagKeys|
      invariant 0 <= k <= |TagKeys|
      invariant TitleAcc(topic, remaining) == TagFold(TagKeys[..k], init)
    {
      TagFoldSnoc(TagKeys, k, init);
      topic, remaining := ParseTag(topic, remaining, TagKeys[k]);
      k := k + 1;
    }
    assert TagKeys[..k] == TagKeys;
    topic := topic.(title := Strip(remaining));
  }

  lemma TagFoldSnoc(keys: seq<string>, k: nat, acc: TitleAcc)
    requires k < |keys|
    ensures TagFold(keys[..k + 1], acc) == TagStep(TagFold(keys[..k], acc), keys[k])
  {
    assert keys[..k + 1][..k] == keys[..k];
  }

  /** One turn of the loop of `_parse_title_meta`. */
  method ParseTag(topic: Topic, remaining: string, key: string) returns (t: Topic, rem: string)
    ensures t == TagStep(TitleAcc(topic, remaining), key).topic
    ensures rem == TagStep(TitleAcc(topic, remaining), key).remaining
  {
    t, rem := topic, remaining;
    var m := SearchTag(remaining, TagOpen(key), 0);
    if m.Some? {
      var val := TagValue(remaining, TagOpen(key), m.value.0, m.value.1);
      if key == "labels" || key == "markers" {
        if key == "labels" {
          t := t.(labels := SplitList(val));
        } else {
          t := t.(markers := SplitList(val));
        }
      } else {
        t := t.(link := val);
      }
      rem := Cut(remaining, m.value.0, m.value.1);
    }
  }

  /** A title with no brace in it carries no tags: it becomes the title,
      trimmed, of a topic with no metadata. */
  lemma {:induction false} PlainTitle(raw: string)
    requires '{' !in raw
    ensures ParseTitleMeta(raw) == NewTopic(Strip(raw), "")
  {
    var init := TitleAcc(NewTopic("", ""), raw);
    NoTagWithoutBrace(raw, TagOpen("labels"), 0);
    NoTagWithoutBrace(raw, TagOpen("link"), 0);
    NoTagWithoutBrace(raw, TagOpen("markers"), 0);
    assert TagKeys[..0] == [];
    TagFoldSnoc(TagKeys, 0, init);
    TagFoldSnoc(TagKeys, 1, init);
    TagFoldSnoc(TagKeys, 2, init);
    assert TagKeys[..3] == TagKeys;
  }

  lemma {:induction false} NoTagWithoutBrace(t: string, open: string, p: nat)
    requires '{' !in t && |open| >= 1 && open[0] == '{'
    ensures SearchTag(t, open, p).None?
    decreases |t| - p
  {
    if p < |t| {
      assert t[p] != '{';
      NoTagWithoutBrace(t, open, p + 1);
    }
  }

  // ---------------------------------------------------------------------
  // Block metadata: `_apply_block_meta`
  // ---------------------------------------------------------------------

  /** `re.sub(r'^>\s*', '', line)`. */
  function Unquote(line: string): (r: string)
    ensures |r| <= |line|
    ensures StartsWith(line, ">") ==> r == LStrip(line[1..])
    ensures !StartsWith(line, ">") ==> r == line
  {
    if StartsWith(line, ">") then LStrip(line[1..]) else line
  }

  datatype MetaAcc = MetaAcc(topic: Topic, notes: seq<string>)

  /** One quoted line: a `Labels:`, `Link:` or `Markers:` line sets that
      field (a later one replaces an earlier one); any other line is a note
      line. */
  function MetaStep(acc: MetaAcc, line: string): (r: MetaAcc)
    ensures r.topic.title == acc.topic.title && r.topic.children == acc.topic.children
    ensures r.topic.id == acc.topic.id && r.topic.notes == acc.topic.notes
    ensures r.notes == acc.notes || r.notes == acc.notes + [Unquote(line)]
  {
    var text := Unquote(line);
    if StartsWith(text, "Labels:") then acc.(topic := acc.topic.(labels := SplitList(text[7..])))
    else if StartsWith(text, "Link:") then acc.(topic := acc.topic.(link := Strip(text[5..])))
    else if StartsWith(text, "Markers:") then acc.(topic := acc.topic.(markers := SplitList(text[8..])))
    else acc.(notes := acc.notes + [text])
  }

  function MetaFold(lines: seq<string>, acc: MetaAcc): (r: MetaAcc)
    ensures r.topic.title == acc.topic.title && r.topic.children == acc.topic.children
    ensures r.topic.id == acc.topic.id && r.topic.notes == acc.topic.notes
  {
    if lines == [] then acc else MetaStep(MetaFold(lines[..|lines| - 1], acc), lines[|lines| - 1])
  }

  /** `_apply_block_meta(topic, lines)`: the note lines, joined with newlines,
      become the notes, but only when there is at least one. */
  function ApplyBlockMeta(topic: Topic, lines: seq<string>): (r: Topic)
    ensures r.title == topic.title && r.children == topic.children && r.id == topic.id
  {
    var acc := MetaFold(lines, MetaAcc(topic, []));
    if acc.notes != [] then acc.topic.(notes := Join(acc.notes, "\n")) else acc.topic
  }

  /** `_apply_block_meta` as the source runs it. */
  method ApplyBlockMetaLoop(topic: Topic, lines: seq<string>) returns (r: Topic)
    ensures r == ApplyBlockMeta(topic, lines)
  {
    ghost var init := MetaAcc(topic, []);
    r := topic;
    var noteParts: seq<string> := [];
    var k := 0;
    while k < |lines|
      invariant 0 <= k <= |lines|
      invariant MetaAcc(r, noteParts) == MetaFold(lines[..k], init)
    {
      MetaFoldSnoc(lines, k, init);
      r, noteParts := ApplyMetaLine(r, noteParts, lines[k]);
      k := k + 1;
    }
    assert lines[..k] == lines;
    if noteParts != [] {
      r := r.(notes := Join(noteParts, "\n"));
    }
  }

  /** One turn of the loop of `_apply_block_meta`. */
  method ApplyMetaLine(topic: Topic, noteParts: seq<string>, line: string) returns (r: Topic, parts: seq<string>)
    ensures MetaAcc(r, parts) == MetaStep(MetaAcc(topic, noteParts), line)
  {
    r, parts := topic, noteParts;
    var text := Unquote(line);
    if StartsWith(text, "Labels:") {
      r := r.(labels := SplitList(text[7..]));
    } else if StartsWith(text, "Link:") {
      r := r.(link := Strip(text[5..]));
    } else if StartsWith(text, "Markers:") {
      r := r.(markers := SplitList(text[8..]));
    } else {
      parts := noteParts + [text];
    }
  }

  lemma MetaFoldSnoc(lines: seq<string>, k: nat, acc: MetaAcc)
    requires k < |lines|
    ensures MetaFold(lines[..k + 1], acc) == MetaStep(MetaFold(lines[..k], acc), lines[k])
  {
    assert lines[..k + 1][..k] == lines[..k];
  }

  /** Block lines that carry no field prefix all become notes, in order. */
  lemma {:induction false} NotesInOrder(topic: Topic, lines: seq<string>)
    requires forall i :: 0 <= i < |lines| ==>
      (!StartsWith(Unquote(lines[i]), "Labels:") && !StartsWith(Unquote(lines[i]), "Link:")
       && !StartsWith(Unquote(lines[i]), "Markers:"))
    ensures MetaFold(lines, MetaAcc(topic, [])).topic == topic
    ensures MetaFold(lines, MetaAcc(topic, [])).notes == seq(|lines|, i requires 0 <= i < |lines| => Unquote(lines[i]))
    decreases |lines|
  {
    if lines != [] {
      var n := |lines| - 1;
      NotesInOrder(topic, lines[..n]);
      var prev := seq(n, i requires 0 <= i < n => Unquote(lines[..n][i]));
      assert prev + [Unquote(lines[n])] == seq(|lines|, i requires 0 <= i < |lines| => Unquote(lines[i]));
    }
  }

  // ---------------------------------------------------------------------
  // List items: `_parse_md_items`
  // ---------------------------------------------------------------------

  /** What the inner loop does with one line. */
  datatype Move = Skip | Child | Note(text: string) | Stop

  /** The inner loop's decision for the line `nxt` of an item at indent
      `cur`: blank lines are skipped; a bullet deeper than the item is a child
      line and any other bullet ends the item; a quote at exactly `cur + 2`
      before any child line is a note, a deeper one a child line, any other
      one ends the item; a line indented past the item is a child line;
      anything else ends the item. */
  function Classify(nxt: string, cur: nat, noChildren: bool): (r: Move)
    ensures r.Note? ==> noChildren && '\n' !in r.text
  {
    if Blank(nxt) then Skip
    else match BulletIndent(nxt)
      case Some(n) => if n > cur then Child else Stop
      case None =>
        var q := QuoteMatch(nxt);
        if q.Some? then
          if noChildren && q.value.0 == cur + 2 then Note(q.value.1)
          else if q.value.0 > cur then Child
          else Stop
        else if StartsWith(nxt, Spaces(cur + 2)) then Child
        else Stop
  }

  /** The inner loop of `_parse_md_items` for an item at indent `cur`, from
      position `i` of `lines`: the position where it stops, the child lines
      and the note lines. */
  function Scan(lines: seq<string>, i: nat, cur: nat, childLines: seq<string>, notes: seq<string>)
    : (r: (nat, seq<string>, seq<string>))
    requires i <= |lines|
    ensures i <= r.0 <= |lines|
    ensures |r.1| <= |childLines| + (r.0 - i)
    decreases |lines| - i
  {
    if i == |lines| then (i, childLines, notes)
    else match Classify(lines[i], cur, childLines == [])
      case Skip => Scan(lines, i + 1, cur, childLines, notes)
      case Child => Scan(lines, i + 1, cur, childLines + [lines[i]], notes)
      case Note(text) => Scan(lines, i + 1, cur, childLines, notes + [text])
      case Stop => (i, childLines, notes)
  }

  /** `_parse_md_items(lines)`. */
  function ParseItems(lines: seq<string>): (r: seq<Topic>)
    decreases |lines|, |lines| + 1
  {
    ParseItemsFrom(lines, 0)
  }

  /** The items from position `i` on: lines before the next item are
      skipped; each item takes the lines its inner loop collects. */
  function ParseItemsFrom(lines: seq<string>, i: nat): (r: seq<Topic>)
    requires i <= |lines|
    ensures |r| <= |lines| - i
    decreases |lines|, |lines| - i
  {
    if i == |lines| then []
    else match ItemMatch(lines[i])
      case None => ParseItemsFrom(lines, i + 1)
      case Some(m) =>
        var s := Scan(lines, i + 1, m.0, [], []);
        [MakeItem(m.1, s.1, s.2, |lines|)] + ParseItemsFrom(lines, s.0)
  }

  /** The topic of one item: its inline metadata, its notes joined with
      newlines when there are any, its children parsed from the child lines
      when there are any. */
  function MakeItem(raw: string, childLines: seq<string>, notes: seq<string>, bound: nat): (r: Topic)
    requires |childLines| < bound
    ensures r.id == FreshId && Trimmed(r.title)
    ensures childLines == [] ==> r.children == []
    ensures notes == [] ==> r.notes == ""
    decreases bound, 0
  {
    var t := ParseTitleMeta(raw);
    var t1 := if notes != [] then t.(notes := Join(notes, "\n")) else t;
    if childLines != [] then t1.(children := ParseItems(childLines)) else t1
  }

  /** `_parse_md_items` as the source runs it: the outer loop over items. */
  method ParseMdItems(lines: seq<string>) returns (items: seq<Topic>)
    ensures items == ParseItems(lines)
    decreases |lines|, 1
  {
    items := [];
    var idx := 0;
    AppendEmpty(ParseItemsFrom(lines, 0));
    while idx < |lines|
      invariant 0 <= idx <= |lines|
      invariant ParseItems(lines) == items + ParseItemsFrom(lines, idx)
    {
      var m := ItemMatch(lines[idx]);
      if m.None? {
        idx := idx + 1;
        continue;
      }
      var topic;
      topic, idx := ParseItem(lines, idx);
      Assoc(items, [topic], ParseItemsFrom(lines, idx));
      items := items + [topic];
    }
    AppendEmpty(items);
  }

  /** One item of the outer loop: its title, the inner loop, then its notes
      and children. */
  method ParseItem(lines: seq<string>, start: nat) returns (topic: Topic, next: nat)
    requires start < |lines| && ItemMatch(lines[start]).Some?
    ensures start < next <= |lines|
    ensures ParseItemsFrom(lines, start) == [topic] + ParseItemsFrom(lines, next)
    decreases |lines|, 0
  {
    var m := ItemMatch(lines[start]).value;
    topic := ParseTitleMetaLoop(m.1);
    var childLines, noteLines;
    next, childLines, noteLines := ScanItem(lines, start + 1, m.0);
    if noteLines != [] {
      topic := topic.(notes := Join(noteLines, "\n"));
    }
    if childLines != [] {
      var children := ParseMdItems(childLines);
      topic := topic.(children := children);
    }
    assert topic == MakeItem(m.1, childLines, noteLines, |lines|);
  }

  /** The inner loop of `_parse_md_items`, from the line after an item at
      indent `cur`. */
  method ScanItem(lines: seq<string>, start: nat, cur: nat) returns (idx: nat, childLines: seq<string>, noteLines: seq<string>)
    requires start <= |lines|
    ensures (idx, childLines, noteLines) == Scan(lines, start, cur, [], [])
  {
    ghost var goal := Scan(lines, start, cur, [], []);
    idx := start;
    childLines := [];
    noteLines := [];
    var stop := false;
    while idx < |lines| && !stop
      invariant start <= idx <= |lines|
      invariant !stop ==> Scan(lines, idx, cur, childLines, noteLines) == goal
      invariant stop ==> (idx, childLines, noteLines) == goal
      decreases |lines| - idx, if stop then 0 else 1
    {
      stop, childLines, noteLines := ScanLine(lines, idx, cur, childLines, noteLines);
      if !stop {
        idx := idx + 1;
      }
    }
  }

  /** One turn of the inner loop: the line at `idx` either ends the item or is
      taken as a child line, a note line or skipped. */
  method ScanLine(lines: seq<string>, idx: nat, cur: nat, childLines: seq<string>, noteLines: seq<string>)
    returns (stop: bool, childLines': seq<string>, noteLines': seq<string>)
    requires idx < |lines|
    ensures stop ==> Scan(lines, idx, cur, childLines, noteLines) == (idx, childLines, noteLines)
    ensures !stop ==> Scan(lines, idx, cur, childLines, noteLines) == Scan(lines, idx + 1, cur, childLines', noteLines')
    ensures stop ==> childLines' == childLines && noteLines' == noteLines
  {
    var nxt := lines[idx];
    var move := ClassifyLine(nxt, cur, childLines == []);
    stop, childLines', noteLines' := move.Stop?, childLines, noteLines;
    if move.Child? {
      childLines' := childLines + [nxt];
    } else if move.Note? {
      noteLines' := noteLines + [move.text];
    }
  }

  /** The tests the inner loop applies to one line, in the source's order. */
  method ClassifyLine(nxt: string, cur: nat, noChildren: bool) returns (move: Move)
    ensures move == Classify(nxt, cur, noChildren)
  {
    BlankStrip(nxt);
    if Strip(nxt) == "" {
      return Skip;
    }
    var nm := BulletIndent(nxt);
    if nm.Some? {
      return if nm.value > cur then Child else Stop;
    }
    var bm := QuoteMatch(nxt);
    if bm.Some? {
      if noChildren && bm.value.0 == cur + 2 {
        return Note(bm.value.1);
      } else if bm.value.0 > cur {
        return Child;
      } else {
        return Stop;
      }
    }
    if StartsWith(nxt, Spaces(cur + 2)) {
      return Child;
    }
    return Stop;
  }

  /** Lines that start no item are skipped. */
  lemma {:induction false} SkipNonItems(lines: seq<string>, i: nat, j: nat)
    requires i <= j <= |lines|
    requires forall k :: i <= k < j ==> ItemMatch(lines[k]).None?
    ensures ParseItemsFrom(lines, i) == ParseItemsFrom(lines, j)
    decreases j - i
  {
    if i == j {
      Refl(ParseItemsFrom(lines, i));
    } else {
      SkipNonItems(lines, i + 1, j);
      SkipNonItem(lines, i);
      Trans(ParseItemsFrom(lines, i), ParseItemsFrom(lines, i + 1), ParseItemsFrom(lines, j));
    }
  }

  lemma SkipNonItem(lines: seq<string>, i: nat)
    requires i < |lines| && ItemMatch(lines[i]).None?
    ensures ParseItemsFrom(lines, i) == ParseItemsFrom(lines, i + 1)
  {
  }

  /** An item ends at the first non-blank line at or above its own indent:
      a following bullet at indent `cur` or less starts the next item. */
  lemma SiblingEndsItem(lines: seq<string>, i: nat, cur: nat, childLines: seq<string>, notes: seq<string>)
    requires i < |lines| && ItemMatch(lines[i]).Some? && ItemMatch(lines[i]).value.0 <= cur
    ensures Scan(lines, i, cur, childLines, notes) == (i, childLines, notes)
  {
    var line := lines[i];
    var n := LeadingSpaces(line);
    assert MatchAt(line, n, "- ");
    assert line != [] && line[n] == '-';
    if Blank(line) {
      StripNonSpace(line, n);
    }
  }

  lemma StripNonSpace(line: string, n: nat)
    requires n < |line| && !IsSpace(line[n])
    ensures !Blank(line)
  {
    LeadingSpacesShape(line);
  }

  // ---------------------------------------------------------------------
  // Sheet blocks: `_parse_sheet_block`
  // ---------------------------------------------------------------------

  datatype Phase = Init | AfterSheet | RootMeta | Body

  datatype BlockState = BlockState(
    phase: Phase,
    sheetTitle: string,
    rootTitle: string,
    rootMeta: seq<string>,
    body: seq<string>)

  /** The state before the first line: the sheet title defaults to `Sheet 1`. */
  const StartState: BlockState := BlockState(Init, "Sheet 1", "", [], [])

  /** One line of the phase machine. Blank lines only count inside the body;
      a `# Sheet:` heading is read only first, a `## ` heading only before the
      root's metadata, `>` lines only right after the root heading; any other
      line starts, or continues, the body. */
  function BlockStep(st: BlockState, line: string): (r: BlockState)
    ensures st.phase == Body ==> r.phase == Body
    ensures |st.body| <= |r.body| <= |st.body| + 1
  {
    var stripped := Strip(line);
    if stripped == "" then
      if st.phase == Body then st.(body := st.body + [line]) else st
    else if st.phase == Init && StartsWith(stripped, "# Sheet:") then
      st.(sheetTitle := Strip(stripped[8..]), phase := AfterSheet)
    else if (st.phase == Init || st.phase == AfterSheet) && StartsWith(stripped, "## ") then
      st.(rootTitle := Strip(stripped[3..]), phase := RootMeta)
    else if st.phase == RootMeta && StartsWith(stripped, ">") then
      st.(rootMeta := st.rootMeta + [stripped])
    else
      st.(phase := Body, body := st.body + [line])
  }

  function RunBlock(lines: seq<string>): (r: BlockState)
    ensures |r.body| <= |lines|
  {
    if lines == [] then StartState else BlockStep(RunBlock(lines[..|lines| - 1]), lines[|lines| - 1])
  }

  /** The root topic a finished block describes. */
  function BlockRoot(st: BlockState): (r: Topic)
    ensures r.title == st.rootTitle && r.id == FreshId
    ensures st.body == [] ==> r.children == []
  {
    var root := ApplyBlockMeta(NewTopic(st.rootTitle, ""), st.rootMeta);
    if st.body != [] then root.(children := ParseItems(st.body)) else root
  }

  /** `_parse_sheet_block(block)`. */
  function ParseSheetBlock(block: string): Option<Sheet> {
    var st := RunBlock(Split(block, "\n"));
    if st.rootTitle == "" && st.body == [] then None
    else Some(NewSheet(st.sheetTitle, "").(root := Some(BlockRoot(st))))
  }

  /** A block describes no sheet exactly when it names no root and has no
      body; a sheet it describes always has a root topic, with the title and
      the children the block gives. */
  lemma ParseSheetBlockShape(block: string)
    ensures var st := RunBlock(Split(block, "\n"));
      && (ParseSheetBlock(block).None? <==> st.rootTitle == "" && st.body == [])
      && (ParseSheetBlock(block).Some? ==>
            var sheet := ParseSheetBlock(block).value;
            && sheet.title == st.sheetTitle && sheet.id == FreshId && sheet.root.Some?
            && sheet.root.value.title == st.rootTitle
            && (st.body == [] ==> sheet.root.value.children == []))
  {
  }

  /** `_parse_sheet_block` as the source runs it. */
  method ParseSheetBlockLoop(block: string) returns (r: Option<Sheet>)
    ensures r == ParseSheetBlock(block)
  {
    var lines := Split(block, "\n");
    var st := RunBlockLoop(lines);
    if st.rootTitle == "" && st.body == [] {
      return None;
    }
    var root := ApplyBlockMetaLoop(NewTopic(st.rootTitle, ""), st.rootMeta);
    if st.body != [] {
      var children := ParseMdItems(st.body);
      root := root.(children := children);
    }
    r := Some(NewSheet(st.sheetTitle, "").(root := Some(root)));
  }

  /** The loop of `_parse_sheet_block` over the block's lines, its five
      variables gathered in one state. */
  method RunBlockLoop(lines: seq<string>) returns (st: BlockState)
    ensures st == RunBlock(lines)
  {
    var sheetTitle := "Sheet 1";
    var rootTitle := "";
    var rootMeta: seq<string> := [];
    var bodyLines: seq<string> := [];
    var phase := Init;
    var k := 0;
    while k < |lines|
      invariant 0 <= k <= |lines|
      invariant BlockState(phase, sheetTitle, rootTitle, rootMeta, bodyLines) == RunBlock(lines[..k])
    {
      assert lines[..k + 1][..k] == lines[..k];
      var line := lines[k];
      var stripped := Strip(line);
      k := k + 1;
      if stripped == "" {
        if phase == Body {
          bodyLines := bodyLines + [line];
        }
        continue;
      }
      if phase == Init && StartsWith(stripped, "# Sheet:") {
        sheetTitle := Strip(stripped[8..]);
        phase := AfterSheet;
        continue;
      }
      if (phase == Init || phase == AfterSheet) && StartsWith(stripped, "## ") {
        rootTitle := Strip(stripped[3..]);
        phase := RootMeta;
        continue;
      }
      if phase == RootMeta && StartsWith(stripped, ">") {
        rootMeta := rootMeta + [stripped];
        continue;
      }
      phase := Body;
      bodyLines := bodyLines + [line];
    }
    assert lines[..k] == lines;
    st := BlockState(phase, sheetTitle, rootTitle, rootMeta, bodyLines);
  }

  /** Without a `# Sheet:` heading the sheet keeps the default title. */
  lemma {:induction false} DefaultSheetTitle(lines: seq<string>)
    requires forall i :: 0 <= i < |lines| ==> !StartsWith(Strip(lines[i]), "# Sheet:")
    ensures RunBlock(lines).sheetTitle == "Sheet 1"
    decreases |lines|
  {
    if lines != [] {
      DefaultSheetTitle(lines[..|lines| - 1]);
    }
  }

  /** A block of blank lines describes no sheet. */
  lemma {:induction false} BlankBlock(lines: seq<string>)
    requires forall i :: 0 <= i < |lines| ==> Blank(lines[i])
    ensures RunBlock(lines) == StartState
    decreases |lines|
  {
    if lines != [] {
      BlankBlock(lines[..|lines| - 1]);
      BlankStrip(lines[|lines| - 1]);
    }
  }

  // ---------------------------------------------------------------------
  // Documents: `markdown_to_sheets`
  // ---------------------------------------------------------------------

  /** The present values, in order. */
  function KeepSome<T>(rs: seq<Option<T>>): (r: seq<T>)
    ensures |r| <= |rs|
  {
    if rs == [] then []
    else
      var rest := KeepSome(rs[..|rs| - 1]);
      match rs[|rs| - 1]
      case Some(v) => rest + [v]
      case None => rest
  }

  /** What `_parse_sheet_block` makes of each stripped block. */
  function BlockSheets(blocks: seq<string>): (r: seq<Option<Sheet>>)
    ensures |r| == |blocks|
  {
    seq(|blocks|, i requires 0 <= i < |blocks| => ParseSheetBlock(Strip(blocks[i])))
  }

  /** `markdown_to_sheets(md)`: blocks are cut at `\n---\n` and stripped;
      the sheets they describe are kept in block order. */
  function MarkdownToSheets(md: string): seq<Sheet> {
    KeepSome(BlockSheets(Split(md, "\n---\n")))
  }

  /** `markdown_to_sheets` as the source runs it. */
  method MarkdownToSheetsLoop(md: string) returns (sheets: seq<Sheet>)
    ensures sheets == MarkdownToSheets(md)
  {
    var blocks := Split(md, "\n---\n");
    sheets := KeepBlockSheets(blocks);
  }

  /** The loop of `markdown_to_sheets` over the blocks. */
  method KeepBlockSheets(blocks: seq<string>) returns (sheets: seq<Sheet>)
    ensures sheets == KeepSome(BlockSheets(blocks))
  {
    ghost var results := BlockSheets(blocks);
    sheets := [];
    var k := 0;
    while k < |blocks|
      invariant 0 <= k <= |blocks|
      invariant sheets == KeepSome(results[..k])
    {
      var sheet := ParseSheetBlockLoop(Strip(blocks[k]));
      KeepSomeSnoc(results, k, sheets, sheet);
      if sheet.Some? {
        sheets := sheets + [sheet.value];
      }
      k := k + 1;
    }
    Whole(results);
  }

  /** Proof plumbing: the loop's prefix at its exit is the whole sequence. */
  lemma Whole<T>(rs: seq<T>)
    ensures rs[..|rs|] == rs
  {
  }

  lemma KeepSomeSnoc<T>(rs: seq<Option<T>>, k: nat, acc: seq<T>, v: Option<T>)
    requires k < |rs| && KeepSome(rs[..k]) == acc && rs[k] == v
    ensures v.Some? ==> KeepSome(rs[..k + 1]) == acc + [v.value]
    ensures v.None? ==> KeepSome(rs[..k + 1]) == acc
  {
    assert rs[..k + 1][..k] == rs[..k];
  }

  /** Order is kept: the values of two runs are those of the first followed
      by those of the second. */
  lemma {:induction false} KeepSomeAppend<T>(a: seq<Option<T>>, b: seq<Option<T>>)
    ensures KeepSome(a + b) == KeepSome(a) + KeepSome(b)
    decreases |b|
  {
    if b == [] {
      assert a + b == a;
    } else {
      var init := b[..|b| - 1];
      KeepSomeAppend(a, init);
      assert (a + b)[..|a + b| - 1] == a + init;
    }
  }

  /** Only the missing values are dropped. */
  lemma {:induction false} KeepSomeAll<T>(rs: seq<Option<T>>)
    requires forall i :: 0 <= i < |rs| ==> rs[i].Some?
    ensures |KeepSome(rs)| == |rs|
    ensures forall i :: 0 <= i < |rs| ==> KeepSome(rs)[i] == rs[i].value
    decreases |rs|
  {
    if rs != [] {
      KeepSomeAll(rs[..|rs| - 1]);
    }
  }

  /** Values that are all missing leave nothing. */
  lemma {:induction false} KeepSomeNone<T>(rs: seq<Option<T>>)
    requires forall i :: 0 <= i < |rs| ==> rs[i].None?
    ensures KeepSome(rs) == []
    decreases |rs|
  {
    if rs != [] {
      KeepSomeNone(rs[..|rs| - 1]);
    }
  }
}
