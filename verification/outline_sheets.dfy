/**
 * The outline codec on whole documents: what `markdown_to_sheets` reads back
 * from the text `sheets_to_markdown` writes. A sheet block is cut out of the
 * document at its `---` separators and stripped; its lines run through the
 * phase machine of `_parse_sheet_block` (heading, root heading, the root's
 * quoted metadata, then the bullet outline), and the pieces are put back
 * together by `_apply_block_meta` and `_parse_md_items`.
 */
module OutlineSheets {
  import opened Wrappers
  import opened Text
  import opened Seqs
  import opened Model
  import opened MarkdownEncode
  import opened MarkdownDecode
  import opened OutlineTags
  import opened OutlineItems

  // ---------------------------------------------------------------------
  // What a sheet needs to be read back
  // ---------------------------------------------------------------------

  /** A heading text kept as written: one line, no surrounding whitespace. */
  predicate TitleReady(title: string) {
    Trimmed(title) && '\n' !in title
  }

  /** Ends with a character `strip()` keeps. */
  predicate Solid(s: string) {
    s != [] && !IsSpace(s[|s| - 1])
  }

  /** A line of the root's notes that its quoted form gives back: trimmed,
      and not mistaken for a `Labels:`, `Link:` or `Markers:` line. */
  predicate NoteLineReady(line: string) {
    Trimmed(line) && !StartsWith(line, "Labels:") && !StartsWith(line, "Link:") && !StartsWith(line, "Markers:")
  }

  /** Root notes that come back through the metadata block. */
  predicate RootNotesReady(notes: string) {
    && NotesReady(notes) && (notes == "" || Solid(notes))
    && forall i :: 0 <= i < |SplitLines(notes)| ==> NoteLineReady(SplitLines(notes)[i])
  }

  /** The last line a topic writes ends with a kept character: its last
      child's last line, else its last note line, else its bullet line. */
  predicate TailSolid(t: Topic)
    decreases t
  {
    if t.children != [] then TailSolid(t.children[|t.children| - 1])
    else t.notes == "" || Solid(t.notes)
  }

  /** A root topic whose heading, metadata block and outline are read back. */
  predicate RootReady(r: Topic) {
    && r.title != "" && TitleReady(r.title)
    && ValuesReady(r.labels) && TitleReady(r.link) && ValuesReady(r.markers)
    && RootNotesReady(r.notes)
    && ForestReady(r.children)
    && (r.children != [] ==> TailSolid(r.children[|r.children| - 1]))
  }

  /** A sheet that comes back from its block. */
  predicate SheetReady(s: Sheet) {
    TitleReady(s.title) && (s.root.Some? ==> RootReady(s.root.value))
  }

  // ---------------------------------------------------------------------
  // The phase machine, run from any state
  // ---------------------------------------------------------------------

  /** `BlockStep` over `lines`, starting from `st`. */
  function RunFrom(st: BlockState, lines: seq<string>): BlockState
    decreases |lines|
  {
    if lines == [] then st else RunFrom(BlockStep(st, lines[0]), lines[1..])
  }

  lemma {:induction false} RunFromSnoc(st: BlockState, a: seq<string>, x: string)
    ensures RunFrom(st, a + [x]) == BlockStep(RunFrom(st, a), x)
    decreases |a|
  {
    if a == [] {
      assert a + [x] == [x];
    } else {
      assert (a + [x])[1..] == a[1..] + [x];
      RunFromSnoc(BlockStep(st, a[0]), a[1..], x);
    }
  }

  /** The block's run is the run from the start state. */
  lemma {:induction false} RunBlockFrom(lines: seq<string>)
    ensures RunBlock(lines) == RunFrom(StartState, lines)
    decreases |lines|
  {
    if lines != [] {
      var n := |lines| - 1;
      RunBlockFrom(lines[..n]);
      RunFromSnoc(StartState, lines[..n], lines[n]);
      assert lines[..n] + [lines[n]] == lines;
    }
  }

  lemma {:induction false} RunFromAppend(st: BlockState, a: seq<string>, b: seq<string>)
    ensures RunFrom(st, a + b) == RunFrom(RunFrom(st, a), b)
    decreases |a|
  {
    if a == [] {
      assert a + b == b;
    } else {
      assert (a + b)[1..] == a[1..] + b;
      RunFromAppend(BlockStep(st, a[0]), a[1..], b);
    }
  }

  /** Outside the body, blank lines change nothing. */
  lemma {:induction false} BlanksRun(st: BlockState, n: nat)
    requires st.phase != Body
    ensures RunFrom(st, Blanks(n)) == st
    decreases n
  {
    if n > 0 {
      assert Blanks(n)[0] == "" && Blanks(n)[1..] == Blanks(n - 1);
      BlanksRun(st, n - 1);
    }
  }

  /** In the body every line is kept. */
  lemma {:induction false} BodyRun(st: BlockState, lines: seq<string>)
    requires st.phase == Body
    ensures RunFrom(st, lines) == st.(body := st.body + lines)
    decreases |lines|
  {
    if lines == [] {
      assert st.body + lines == st.body;
    } else {
      var next := st.(body := st.body + [lines[0]]);
      assert BlockStep(st, lines[0]) == next;
      BodyRun(next, lines[1..]);
      Assoc(st.body, [lines[0]], lines[1..]);
      assert [lines[0]] + lines[1..] == lines;
    }
  }

  /** `strip()` keeps a line that starts with `>` starting with `>`. */
  lemma {:induction false} QuotedStrip(line: string)
    requires StartsWith(line, ">")
    ensures Strip(line) != [] && StartsWith(Strip(line), ">")
  {
    assert LStrip(line) == line;
    RStripKeeps(line, 0);
    RStripShape(line);
  }

  /** `strip()` of each line. */
  function StripEach(lines: seq<string>): (r: seq<string>)
    ensures |r| == |lines| && forall i :: 0 <= i < |lines| ==> r[i] == Strip(lines[i])
  {
    seq(|lines|, i requires 0 <= i < |lines| => Strip(lines[i]))
  }

  lemma StripEachAppend(a: seq<string>, b: seq<string>)
    ensures StripEach(a + b) == StripEach(a) + StripEach(b)
  {
  }

  /** Right after the root heading, quoted lines are the root's metadata,
      each kept stripped. */
  lemma {:induction false} MetaRun(st: BlockState, lines: seq<string>)
    requires st.phase == RootMeta
    requires forall i :: 0 <= i < |lines| ==> StartsWith(lines[i], ">")
    ensures RunFrom(st, lines) == st.(rootMeta := st.rootMeta + StripEach(lines))
    decreases |lines|
  {
    if lines == [] {
      assert st.rootMeta + StripEach(lines) == st.rootMeta;
    } else {
      QuotedStrip(lines[0]);
      var next := st.(rootMeta := st.rootMeta + [Strip(lines[0])]);
      assert BlockStep(st, lines[0]) == next;
      MetaRun(next, lines[1..]);
      Assoc(st.rootMeta, [Strip(lines[0])], StripEach(lines[1..]));
      assert [Strip(lines[0])] + StripEach(lines[1..]) == StripEach(lines);
    }
  }

  /** The first line that is neither blank nor quoted starts the body. */
  lemma BodyStart(st: BlockState, line: string)
    requires st.phase == RootMeta && line != [] && line[0] == '-'
    ensures BlockStep(st, line) == st.(phase := Body, body := st.body + [line])
  {
    assert LStrip(line) == line;
    RStripKeeps(line, 0);
    RStripShape(line);
  }

  // ---------------------------------------------------------------------
  // The two headings
  // ---------------------------------------------------------------------

  /** The sheet heading line gives the sheet title back. */
  lemma {:induction false} SheetHeadingRead(title: string)
    requires TitleReady(title)
    ensures var s := Strip("# Sheet: " + title); StartsWith(s, "# Sheet:") && Strip(s[8..]) == title
  {
    if title == [] {
      UntitledHeading();
    } else {
      TitledHeading(title);
    }
  }

  lemma UntitledHeading()
    ensures var s := Strip("# Sheet: " + ""); StartsWith(s, "# Sheet:") && Strip(s[8..]) == ""
  {
    assert "# Sheet: " + "" == "" + "# Sheet:" + " ";
    StripPadded("", "# Sheet:", " ");
    assert "# Sheet:"[..8] == "# Sheet:";
    assert "# Sheet:"[8..] == "";
  }

  lemma TitledHeading(title: string)
    requires title != [] && Trimmed(title)
    ensures var s := Strip("# Sheet: " + title); StartsWith(s, "# Sheet:") && Strip(s[8..]) == title
  {
    var x := "# Sheet: " + title;
    KeptLine("# Sheet: ", title);
    assert x[8..] == " " + title + "";
    StripPadded(" ", title, "");
  }

  /** A line that starts with a kept character and ends with a trimmed text
      is left alone by `strip()`. */
  lemma KeptLine(pre: string, s: string)
    requires pre != [] && !IsSpace(pre[0]) && s != [] && Trimmed(s)
    ensures Trimmed(pre + s) && Strip(pre + s) == pre + s && StartsWith(pre + s, pre)
  {
    var x := pre + s;
    assert x[0] == pre[0] && x[|x| - 1] == s[|s| - 1];
    StripTrimmed(x);
    assert x[..|pre|] == pre;
  }

  /** The root heading line gives the root title back. */
  lemma {:induction false} RootHeadingRead(title: string)
    requires title != [] && Trimmed(title)
    ensures var s := Strip("## " + title); StartsWith(s, "## ") && Strip(s[3..]) == title
  {
    var x := "## " + title;
    KeptLine("## ", title);
    assert x[3..] == title;
    StripTrimmed(title);
  }

  /** The four head lines of a sheet with a root: the machine is then in the
      root's metadata, with both titles read. */
  lemma {:induction false} HeadRun(title: string, rootTitle: string)
    requires TitleReady(title) && rootTitle != [] && Trimmed(rootTitle)
    ensures RunFrom(StartState, ["# Sheet: " + title, "", "", "## " + rootTitle])
         == BlockState(RootMeta, title, rootTitle, [], [])
  {
    var lines := ["# Sheet: " + title, "", "", "## " + rootTitle];
    SheetHeadingRead(title);
    RootHeadingRead(rootTitle);
    var st1 := BlockState(AfterSheet, title, "", [], []);
    var st4 := BlockState(RootMeta, title, rootTitle, [], []);
    var rest := ["## " + rootTitle];
    assert Strip("") == "";
    assert BlockStep(StartState, lines[0]) == st1;
    assert BlockStep(st1, "") == st1;
    assert BlockStep(st1, rest[0]) == st4;
    assert lines[1..] == [""] + ([""] + rest);
    assert RunFrom(st1, rest) == st4 by {
      assert rest[1..] == [];
    }
    assert RunFrom(st1, [""] + rest) == RunFrom(st1, rest) by {
      assert ([""] + rest)[1..] == rest;
    }
    assert RunFrom(st1, [""] + ([""] + rest)) == RunFrom(st1, [""] + rest) by {
      assert ([""] + ([""] + rest))[1..] == [""] + rest;
    }
  }

  // ---------------------------------------------------------------------
  // The root's metadata block
  // ---------------------------------------------------------------------

  /** Every line starts with `>`. */
  predicate Quoted(lines: seq<string>) {
    forall i :: 0 <= i < |lines| ==> StartsWith(lines[i], ">")
  }

  lemma QuotedAppend(a: seq<string>, b: seq<string>)
    requires Quoted(a) && Quoted(b)
    ensures Quoted(a + b)
  {
    forall i | 0 <= i < |a + b| ensures StartsWith((a + b)[i], ">") {
      if i >= |a| {
        assert (a + b)[i] == b[i - |a|];
      }
    }
  }

  lemma QuotedPrefixed(pre: string, lines: seq<string>)
    requires StartsWith(pre, ">")
    ensures Quoted(Prefixed(pre, lines))
  {
    forall i | 0 <= i < |lines| ensures StartsWith(Prefixed(pre, lines)[i], ">") {
      assert (pre + lines[i])[..1] == pre[..1];
    }
  }

  /** Every line of the metadata block is a quoted line. */
  lemma MetaQuoted(t: Topic)
    ensures Quoted(MetaLines(t))
  {
    var la := if t.labels != [] then ["> Labels: " + Join(t.labels, ", ")] else [];
    var lk := if t.link != "" then ["> Link: " + t.link] else [];
    var lm := if t.markers != [] then ["> Markers: " + Join(t.markers, ", ")] else [];
    var ln := if t.notes != "" then Prefixed("> ", SplitLines(t.notes)) else [];
    QuotedPrefixed("> Labels: ", [Join(t.labels, ", ")]);
    QuotedPrefixed("> Link: ", [t.link]);
    QuotedPrefixed("> Markers: ", [Join(t.markers, ", ")]);
    QuotedPrefixed("> ", SplitLines(t.notes));
    QuotedAppend(la, lk);
    QuotedAppend(la + lk, lm);
    QuotedAppend(la + lk + lm, ln);
  }

  /** A quoted text that starts with a kept character comes back unquoted. */
  lemma UnquoteKept(body: string)
    requires body != [] && !IsSpace(body[0])
    ensures Unquote("> " + body) == body
  {
    var line := "> " + body;
    assert line[..1] == ">";
    assert line[1..] == " " + body;
    LStripSpaces(" ", body);
  }

  /** A text that differs from `prefix` at `k` does not start with it. */
  lemma DiffersAt(s: string, prefix: string, k: nat)
    requires k < |prefix| && k < |s| && s[k] != prefix[k]
    ensures !StartsWith(s, prefix)
  {
    if |prefix| <= |s| {
      assert s[..|prefix|][k] == s[k];
    }
  }

  /** The text of a quoted field line, `key: value`, comes back from the
      line. */
  lemma FieldUnquote(text: string)
    requires text != [] && Trimmed(text)
    ensures Unquote(Strip("> " + text)) == text
  {
    KeptLine("> ", text);
    UnquoteKept(text);
  }

  /** `key: value` starts with `key:`, and what follows the colon is the
      value behind one space. */
  lemma FieldSplit(key: string, v: string)
    ensures var text := key + ": " + v; StartsWith(text, key + ":") && text[|key| + 1..] == " " + v
  {
    var text := key + ": " + v;
    assert text[..|key| + 1] == key + ":";
    assert text[|key| + 1..] == " " + v;
  }

  /** `key: value` with a trimmed value is trimmed. */
  lemma FieldTrimmed(key: string, v: string)
    requires key != [] && !IsSpace(key[0]) && v != [] && Trimmed(v)
    ensures key + ": " + v != [] && Trimmed(key + ": " + v)
  {
    var text := key + ": " + v;
    assert text[0] == key[0] && text[|text| - 1] == v[|v| - 1];
  }

  /** What `MetaStep` does with a line whose text starts with `Labels:`. */
  lemma LabelsStep(acc: MetaAcc, line: string, text: string)
    requires Unquote(line) == text && StartsWith(text, "Labels:")
    ensures MetaStep(acc, line) == acc.(topic := acc.topic.(labels := SplitList(text[7..])))
  {
  }

  lemma LinkStep(acc: MetaAcc, line: string, text: string)
    requires Unquote(line) == text && !StartsWith(text, "Labels:") && StartsWith(text, "Link:")
    ensures MetaStep(acc, line) == acc.(topic := acc.topic.(link := Strip(text[5..])))
  {
  }

  lemma MarkersStep(acc: MetaAcc, line: string, text: string)
    requires Unquote(line) == text && !StartsWith(text, "Labels:") && !StartsWith(text, "Link:")
    requires StartsWith(text, "Markers:")
    ensures MetaStep(acc, line) == acc.(topic := acc.topic.(markers := SplitList(text[8..])))
  {
  }

  /** A quoted field line, read: its text is `key: value`, which starts
      with `key:` and has the value behind one space after the colon. */
  lemma FieldRead(key: string, v: string)
    requires key != [] && !IsSpace(key[0]) && v != [] && Trimmed(v)
    ensures var text := key + ": " + v;
      && Unquote(Strip("> " + text)) == text && StartsWith(text, key + ":") && text[|key| + 1..] == " " + v
  {
    FieldTrimmed(key, v);
    FieldUnquote(key + ": " + v);
    FieldSplit(key, v);
  }

  lemma LabelsLiteral(v: string)
    ensures "> Labels: " + v == "> " + ("Labels" + ": " + v)
  {
    assert "> Labels: " == "> " + "Labels" + ": ";
  }

  lemma LinkLiteral(v: string)
    ensures "> Link: " + v == "> " + ("Link" + ": " + v)
  {
    assert "> Link: " == "> " + "Link" + ": ";
  }

  lemma MarkersLiteral(v: string)
    ensures "> Markers: " + v == "> " + ("Markers" + ": " + v)
  {
    assert "> Markers: " == "> " + "Markers" + ": ";
  }

  /** The text of the quoted labels line. */
  lemma LabelsText(labels: seq<string>)
    requires labels != [] && ValuesReady(labels)
    ensures var text := "Labels" + ": " + Join(labels, ", ");
      && Unquote(Strip("> Labels: " + Join(labels, ", "))) == text
      && StartsWith(text, "Labels:") && SplitList(text[7..]) == labels
  {
    var j := Join(labels, ", ");
    JoinedTrimmed(labels);
    LabelsLiteral(j);
    FieldRead("Labels", j);
    SplitListJoined(" ", labels);
  }

  /** The quoted labels line sets the labels. */
  lemma LabelsLineRead(acc: MetaAcc, labels: seq<string>)
    requires labels != [] && ValuesReady(labels)
    ensures MetaStep(acc, Strip("> Labels: " + Join(labels, ", "))) == acc.(topic := acc.topic.(labels := labels))
  {
    LabelsText(labels);
    LabelsStep(acc, Strip("> Labels: " + Join(labels, ", ")), "Labels" + ": " + Join(labels, ", "));
  }

  /** The text of the quoted link line. */
  lemma LinkText(link: string)
    requires link != [] && Trimmed(link)
    ensures var text := "Link" + ": " + link;
      && Unquote(Strip("> Link: " + link)) == text
      && !StartsWith(text, "Labels:") && StartsWith(text, "Link:") && Strip(text[5..]) == link
  {
    LinkLiteral(link);
    FieldRead("Link", link);
    DiffersAt("Link" + ": " + link, "Labels:", 1);
    assert " " + link == " " + link + "";
    StripPadded(" ", link, "");
  }

  /** The quoted link line sets the link. */
  lemma LinkLineRead(acc: MetaAcc, link: string)
    requires link != [] && Trimmed(link)
    ensures MetaStep(acc, Strip("> Link: " + link)) == acc.(topic := acc.topic.(link := link))
  {
    LinkText(link);
    LinkStep(acc, Strip("> Link: " + link), "Link" + ": " + link);
  }

  /** The text of the quoted markers line. */
  lemma MarkersText(markers: seq<string>)
    requires markers != [] && ValuesReady(markers)
    ensures var text := "Markers" + ": " + Join(markers, ", ");
      && Unquote(Strip("> Markers: " + Join(markers, ", "))) == text
      && !StartsWith(text, "Labels:") && !StartsWith(text, "Link:")
      && StartsWith(text, "Markers:") && SplitList(text[8..]) == markers
  {
    var j := Join(markers, ", ");
    JoinedTrimmed(markers);
    MarkersLiteral(j);
    FieldRead("Markers", j);
    DiffersAt("Markers" + ": " + j, "Labels:", 0);
    DiffersAt("Markers" + ": " + j, "Link:", 0);
    SplitListJoined(" ", markers);
  }

  /** The quoted markers line sets the markers. */
  lemma MarkersLineRead(acc: MetaAcc, markers: seq<string>)
    requires markers != [] && ValuesReady(markers)
    ensures MetaStep(acc, Strip("> Markers: " + Join(markers, ", "))) == acc.(topic := acc.topic.(markers := markers))
  {
    MarkersText(markers);
    MarkersStep(acc, Strip("> Markers: " + Join(markers, ", ")), "Markers" + ": " + Join(markers, ", "));
  }

  /** A quoted note line gives its text back. */
  lemma NoteLineRead(line: string)
    requires Trimmed(line)
    ensures Unquote(Strip("> " + line)) == line
  {
    if line == [] {
      assert "> " + line == "" + ">" + " ";
      StripPadded("", ">", " ");
      assert ">"[1..] == "";
    } else {
      KeptLine("> ", line);
      UnquoteKept(line);
    }
  }

  lemma {:induction false} MetaFoldAppend(a: seq<string>, b: seq<string>, acc: MetaAcc)
    ensures MetaFold(a + b, acc) == MetaFold(b, MetaFold(a, acc))
    decreases |b|
  {
    if b == [] {
      assert a + b == a;
    } else {
      var n := |b| - 1;
      assert (a + b)[..|a + b| - 1] == a + b[..n];
      MetaFoldAppend(a, b[..n], acc);
    }
  }

  /** The quoted notes lines of the root become its note lines, in order. */
  lemma NotesPartRead(t: Topic, notes: string)
    requires notes != "" && RootNotesReady(notes)
    ensures MetaFold(StripEach(Prefixed("> ", SplitLines(notes))), MetaAcc(t, [])) == MetaAcc(t, SplitLines(notes))
  {
    var texts := SplitLines(notes);
    var lines := StripEach(Prefixed("> ", texts));
    forall i | 0 <= i < |lines| ensures Unquote(lines[i]) == texts[i] {
      NoteLineRead(texts[i]);
    }
    NotesInOrder(t, lines);
  }

  /** One optional field line, read into an accumulator. */
  lemma OneLineFold(line: string, acc: MetaAcc)
    ensures MetaFold(StripEach([line]), acc) == MetaStep(acc, Strip(line))
  {
    assert StripEach([line])[..0] == [];
  }

  /** The labels part of the metadata block sets the labels. */
  lemma LabelsPart(acc: MetaAcc, labels: seq<string>)
    requires ValuesReady(labels) && acc.topic.labels == []
    ensures MetaFold(StripEach(if labels != [] then ["> Labels: " + Join(labels, ", ")] else []), acc)
         == acc.(topic := acc.topic.(labels := labels))
  {
    if labels != [] {
      OneLineFold("> Labels: " + Join(labels, ", "), acc);
      LabelsLineRead(acc, labels);
    }
  }

  /** The link part of the metadata block sets the link. */
  lemma LinkPart(acc: MetaAcc, link: string)
    requires Trimmed(link) && acc.topic.link == ""
    ensures MetaFold(StripEach(if link != "" then ["> Link: " + link] else []), acc)
         == acc.(topic := acc.topic.(link := link))
  {
    if link != "" {
      OneLineFold("> Link: " + link, acc);
      LinkLineRead(acc, link);
    }
  }

  /** The markers part of the metadata block sets the markers. */
  lemma MarkersPart(acc: MetaAcc, markers: seq<string>)
    requires ValuesReady(markers) && acc.topic.markers == []
    ensures MetaFold(StripEach(if markers != [] then ["> Markers: " + Join(markers, ", ")] else []), acc)
         == acc.(topic := acc.topic.(markers := markers))
  {
    if markers != [] {
      OneLineFold("> Markers: " + Join(markers, ", "), acc);
      MarkersLineRead(acc, markers);
    }
  }

  /** The notes part of the metadata block gives the note lines. */
  lemma NotesPart(t: Topic, notes: string)
    requires RootNotesReady(notes)
    ensures MetaFold(StripEach(if notes != "" then Prefixed("> ", SplitLines(notes)) else []), MetaAcc(t, []))
         == MetaAcc(t, if notes != "" then SplitLines(notes) else [])
  {
    if notes != "" {
      NotesPartRead(t, notes);
    }
  }

  /** The three field lines of the metadata block set the three fields. */
  lemma FieldsFold(r: Topic)
    requires ValuesReady(r.labels) && Trimmed(r.link) && ValuesReady(r.markers)
    ensures var la := if r.labels != [] then ["> Labels: " + Join(r.labels, ", ")] else [];
      var lk := if r.link != "" then ["> Link: " + r.link] else [];
      var lm := if r.markers != [] then ["> Markers: " + Join(r.markers, ", ")] else [];
      MetaFold(StripEach(la + lk + lm), MetaAcc(NewTopic(r.title, ""), []))
        == MetaAcc(Topic(FreshId, r.title, [], "", r.labels, r.link, r.markers), [])
  {
    var la := if r.labels != [] then ["> Labels: " + Join(r.labels, ", ")] else [];
    var lk := if r.link != "" then ["> Link: " + r.link] else [];
    var lm := if r.markers != [] then ["> Markers: " + Join(r.markers, ", ")] else [];
    var a0 := MetaAcc(NewTopic(r.title, ""), []);
    var a1 := MetaAcc(Topic(FreshId, r.title, [], "", r.labels, "", []), []);
    var a2 := MetaAcc(Topic(FreshId, r.title, [], "", r.labels, r.link, []), []);
    var a3 := MetaAcc(Topic(FreshId, r.title, [], "", r.labels, r.link, r.markers), []);
    LabelsPart(a0, r.labels);
    LinkPart(a1, r.link);
    MarkersPart(a2, r.markers);
    StripEachAppend(la, lk);
    StripEachAppend(la + lk, lm);
    MetaFoldAppend(StripEach(la), StripEach(lk), a0);
    MetaFoldAppend(StripEach(la) + StripEach(lk), StripEach(lm), a0);
  }

  /** The root's metadata block gives back its labels, link, markers and
      notes. */
  lemma RootMetaRead(r: Topic)
    requires ValuesReady(r.labels) && Trimmed(r.link) && ValuesReady(r.markers) && RootNotesReady(r.notes)
    ensures ApplyBlockMeta(NewTopic(r.title, ""), StripEach(MetaLines(r))) == r.(id := FreshId, children := [])
  {
    var la := if r.labels != [] then ["> Labels: " + Join(r.labels, ", ")] else [];
    var lk := if r.link != "" then ["> Link: " + r.link] else [];
    var lm := if r.markers != [] then ["> Markers: " + Join(r.markers, ", ")] else [];
    var ln := if r.notes != "" then Prefixed("> ", SplitLines(r.notes)) else [];
    var t3 := Topic(FreshId, r.title, [], "", r.labels, r.link, r.markers);
    FieldsFold(r);
    NotesPart(t3, r.notes);
    StripEachAppend(la + lk + lm, ln);
    MetaFoldAppend(StripEach(la + lk + lm), StripEach(ln), MetaAcc(NewTopic(r.title, ""), []));
  }

  // ---------------------------------------------------------------------
  // Every line is one line, and none is a separator
  // ---------------------------------------------------------------------

  /** A line without a newline that is not the `---` separator line. */
  predicate Plain(line: string) {
    '\n' !in line && line != "---"
  }

  /** A one-line text with a space in it is never the separator line. */
  lemma SpacedPlain(line: string, k: nat)
    requires '\n' !in line && k < |line| && line[k] == ' '
    ensures Plain(line)
  {
    assert forall i :: 0 <= i < |"---"| ==> "---"[i] != ' ';
  }

  /** Text behind a one-line prefix that ends with a space. */
  lemma PrefixedPlain(pre: string, text: string)
    requires '\n' !in pre && pre != [] && pre[|pre| - 1] == ' ' && '\n' !in text
    ensures Plain(pre + text)
  {
    var line := pre + text;
    assert line[|pre| - 1] == ' ';
    assert forall i :: 0 <= i < |line| ==> line[i] == (if i < |pre| then pre[i] else text[i - |pre|]);
    SpacedPlain(line, |pre| - 1);
  }

  lemma NoBreakNoNewline(text: string)
    requires NoLineBreak(text)
    ensures '\n' !in text
  {
    assert IsLineBreak('\n');
  }

  lemma TitlePlain(t: Topic, depth: nat)
    requires InlineReady(t)
    ensures All([TitleLine(t, depth)], Plain)
  {
    TitleLineBody(t, depth);
    BodyOneLine(t);
    SpacesAreSpaces(2 * depth);
    PrefixedPlain(Spaces(2 * depth) + "- ", TitleBody(t));
  }

  lemma NoteLinesPlain(t: Topic, depth: nat)
    ensures All(NoteLines(t, depth), Plain)
  {
    var pre := Spaces(2 * depth + 2) + "> ";
    NoteLinesTexts(t, depth);
    SpacesAreSpaces(2 * depth + 2);
    forall line | line in NoteLines(t, depth) ensures Plain(line) {
      var i :| 0 <= i < |NoteTexts(t)| && Prefixed(pre, NoteTexts(t))[i] == line;
      NoBreakNoNewline(NoteTexts(t)[i]);
      PrefixedPlain(pre, NoteTexts(t)[i]);
    }
  }

  lemma {:induction false} TopicPlain(t: Topic, depth: nat)
    requires TopicReady(t)
    ensures All(TopicLines(t, depth), Plain)
    decreases t
  {
    TitlePlain(t, depth);
    NoteLinesPlain(t, depth);
    ForestPlain(t.children, depth + 1);
    TopicAll(t, depth, Plain);
  }

  /** Every line of an outline is plain. */
  lemma {:induction false} ForestPlain(ts: seq<Topic>, depth: nat)
    requires ForestReady(ts)
    ensures All(ForestLines(ts, depth), Plain)
    decreases ts
  {
    if ts != [] {
      ForestLinesCons(ts, depth);
      ForestReadyCons(ts);
      TopicPlain(ts[0], depth);
      ForestPlain(ts[1..], depth);
      AllAppend(TopicLines(ts[0], depth), ForestLines(ts[1..], depth), Plain);
    } else {
      assert ForestLines(ts, depth) == [];
    }
  }

  /** An optional field line is plain. */
  lemma OptFieldPlain(c: bool, pre: string, v: string)
    requires '\n' !in pre && pre != [] && pre[|pre| - 1] == ' ' && '\n' !in v
    ensures All(if c then [pre + v] else [], Plain)
  {
    PrefixedPlain(pre, v);
  }

  lemma MetaFieldsPlain(r: Topic)
    requires ValuesReady(r.labels) && '\n' !in r.link && ValuesReady(r.markers)
    ensures All((if r.labels != [] then ["> Labels: " + Join(r.labels, ", ")] else [])
              + (if r.link != "" then ["> Link: " + r.link] else [])
              + (if r.markers != [] then ["> Markers: " + Join(r.markers, ", ")] else []), Plain)
  {
    var la := if r.labels != [] then ["> Labels: " + Join(r.labels, ", ")] else [];
    var lk := if r.link != "" then ["> Link: " + r.link] else [];
    var lm := if r.markers != [] then ["> Markers: " + Join(r.markers, ", ")] else [];
    ValuesOneLine(r.labels);
    ValuesOneLine(r.markers);
    OptFieldPlain(r.labels != [], "> Labels: ", Join(r.labels, ", "));
    OptFieldPlain(r.link != "", "> Link: ", r.link);
    OptFieldPlain(r.markers != [], "> Markers: ", Join(r.markers, ", "));
    AllAppend(la, lk, Plain);
    AllAppend(la + lk, lm, Plain);
  }

  lemma MetaNotesPlain(notes: string)
    ensures All(if notes != "" then Prefixed("> ", SplitLines(notes)) else [], Plain)
  {
    var ln := if notes != "" then Prefixed("> ", SplitLines(notes)) else [];
    forall line | line in ln ensures Plain(line) {
      var texts := SplitLines(notes);
      SplitLinesNoBreak(notes);
      var i :| 0 <= i < |texts| && Prefixed("> ", texts)[i] == line;
      NoBreakNoNewline(texts[i]);
      PrefixedPlain("> ", texts[i]);
    }
  }

  /** Every line of the metadata block is plain. */
  lemma MetaPlain(r: Topic)
    requires ValuesReady(r.labels) && '\n' !in r.link && ValuesReady(r.markers)
    ensures All(MetaLines(r), Plain)
  {
    MetaFieldsPlain(r);
    MetaNotesPlain(r.notes);
    AllAppend((if r.labels != [] then ["> Labels: " + Join(r.labels, ", ")] else [])
              + (if r.link != "" then ["> Link: " + r.link] else [])
              + (if r.markers != [] then ["> Markers: " + Join(r.markers, ", ")] else []),
              if r.notes != "" then Prefixed("> ", SplitLines(r.notes)) else [], Plain);
  }

  // ---------------------------------------------------------------------
  // The last line of a block ends with a kept character
  // ---------------------------------------------------------------------

  /** The last line ends with a character `strip()` keeps. */
  predicate EndsSolid(lines: seq<string>) {
    lines != [] && Solid(lines[|lines| - 1])
  }

  lemma EndsSolidAppend(a: seq<string>, b: seq<string>)
    requires EndsSolid(b) || (b == [] && EndsSolid(a))
    ensures EndsSolid(a + b)
  {
    if b == [] {
      assert a + b == a;
    } else {
      assert (a + b)[|a + b| - 1] == b[|b| - 1];
    }
  }

  lemma SolidAfter(x: string, y: string)
    requires Solid(y)
    ensures Solid(x + y)
  {
    assert (x + y)[|x + y| - 1] == y[|y| - 1];
  }

  /** A trimmed text behind a prefix makes a one-line list that ends solid. */
  lemma SolidLine(pre: string, v: string)
    requires v != [] && Trimmed(v)
    ensures EndsSolid([pre + v])
  {
    SolidAfter(pre, v);
  }

  /** Notes that end with a kept character end their last line with it. */
  lemma NotesSolid(notes: string)
    requires NotesReady(notes) && Solid(notes)
    ensures SplitLines(notes) != [] && Solid(SplitLines(notes)[|SplitLines(notes)| - 1])
  {
    var lines := SplitLines(notes);
    assert lines != [];
    var n := |lines| - 1;
    if n > 0 {
      JoinAppend(lines[..n], [lines[n]], "\n");
      assert lines[..n] + [lines[n]] == lines;
      var x := Join(lines[..n], "\n") + "\n";
      assert notes == x + lines[n];
      if lines[n] != [] {
        assert notes[|notes| - 1] == lines[n][|lines[n]| - 1];
      }
    }
  }

  lemma PrefixedSolid(pre: string, texts: seq<string>)
    requires texts != [] && Solid(texts[|texts| - 1])
    ensures EndsSolid(Prefixed(pre, texts))
  {
    SolidAfter(pre, texts[|texts| - 1]);
  }

  lemma OptPartSolid(x: string, present: bool, key: string, val: string)
    requires Solid(x)
    ensures Solid(x + OptPart(present, key, val))
  {
    if present {
      SolidAfter(x, Part(key, val));
    } else {
      assert x + OptPart(present, key, val) == x;
    }
  }

  /** A bullet line ends with its title or with a tag's closing brace. */
  lemma TitleSolid(t: Topic, depth: nat)
    requires InlineReady(t)
    ensures Solid(TitleLine(t, depth))
  {
    var a := t.title + OptPart(t.labels != [], "labels", LabelsVal(t));
    var b := a + OptPart(t.link != "", "link", t.link);
    TitleLineBody(t, depth);
    BodyParts(t);
    OptPartSolid(t.title, t.labels != [], "labels", LabelsVal(t));
    OptPartSolid(a, t.link != "", "link", t.link);
    OptPartSolid(b, t.markers != [], "markers", MarkersVal(t));
    SolidAfter(Spaces(2 * depth) + "- ", TitleBody(t));
  }

  lemma {:induction false} ForestLinesSnoc(ts: seq<Topic>, depth: nat)
    requires ts != []
    ensures ForestLines(ts, depth) == ForestLines(ts[..|ts| - 1], depth) + TopicLines(ts[|ts| - 1], depth)
  {
    var n := |ts| - 1;
    var last := TopicLines(ts[n], depth);
    assert ForestParts(ts, depth) == ForestParts(ts[..n], depth) + [last];
    FlattenAppend(ForestParts(ts[..n], depth), [last]);
    assert Flatten([last]) == last + Flatten([last][1..]);
    assert Flatten([last][1..]) == [];
  }

  /** The last line of a topic whose tail is solid ends solid. */
  lemma {:induction false} TopicSolid(t: Topic, depth: nat)
    requires TopicReady(t) && TailSolid(t)
    ensures EndsSolid(TopicLines(t, depth))
    decreases t
  {
    var title := [TitleLine(t, depth)];
    var notes := NoteLines(t, depth);
    var kids := ForestLines(t.children, depth + 1);
    if t.children != [] {
      ForestSolid(t.children, depth + 1);
      EndsSolidAppend(title + notes, kids);
    } else {
      ForestLinesEmpty(t.children, depth + 1);
      if t.notes != "" {
        NotesSolid(t.notes);
        PrefixedSolid(Spaces(2 * depth) + "  > ", SplitLines(t.notes));
        EndsSolidAppend(title, notes);
      } else {
        TitleSolid(t, depth);
        EndsSolidAppend(title, notes);
      }
      EndsSolidAppend(title + notes, kids);
    }
  }

  /** The last line of an outline whose last topic's tail is solid ends
      solid. */
  lemma {:induction false} ForestSolid(ts: seq<Topic>, depth: nat)
    requires ts != [] && ForestReady(ts) && TailSolid(ts[|ts| - 1])
    ensures EndsSolid(ForestLines(ts, depth))
    decreases ts
  {
    var n := |ts| - 1;
    ForestLinesSnoc(ts, depth);
    assert TopicReady(ts[n]);
    TopicSolid(ts[n], depth);
    EndsSolidAppend(ForestLines(ts[..n], depth), TopicLines(ts[n], depth));
  }

  /** The last line of a non-empty metadata block ends solid. */
  lemma MetaSolid(r: Topic)
    requires ValuesReady(r.labels) && Trimmed(r.link) && ValuesReady(r.markers) && RootNotesReady(r.notes)
    requires MetaLines(r) != []
    ensures EndsSolid(MetaLines(r))
  {
    var la := if r.labels != [] then ["> Labels: " + Join(r.labels, ", ")] else [];
    var lk := if r.link != "" then ["> Link: " + r.link] else [];
    var lm := if r.markers != [] then ["> Markers: " + Join(r.markers, ", ")] else [];
    var ln := if r.notes != "" then Prefixed("> ", SplitLines(r.notes)) else [];
    if ln != [] {
      NotesSolid(r.notes);
      PrefixedSolid("> ", SplitLines(r.notes));
    } else if lm != [] {
      JoinedTrimmed(r.markers);
      SolidLine("> Markers: ", Join(r.markers, ", "));
      EndsSolidAppend(la + lk, lm);
    } else if lk != [] {
      SolidLine("> Link: ", r.link);
      EndsSolidAppend(la, lk);
      EndsSolidAppend(la + lk, lm);
    } else {
      JoinedTrimmed(r.labels);
      SolidLine("> Labels: ", Join(r.labels, ", "));
      EndsSolidAppend(la, lk);
      EndsSolidAppend(la + lk, lm);
    }
    EndsSolidAppend(la + lk + lm, ln);
  }

  // ---------------------------------------------------------------------
  // One sheet block
  // ---------------------------------------------------------------------

  /** The sheet heading, a blank line, then the root heading after a blank
      line of its own. */
  function HeadLines(title: string, rootTitle: string): seq<string> {
    ["# Sheet: " + title, "", "", "## " + rootTitle]
  }

  /** The lines of a sheet with a root, without the blank lines it ends
      with: those are what `strip()` takes off the block. */
  function RootCore(title: string, r: Topic): seq<string> {
    var head := HeadLines(title, r.title);
    if r.children != [] then head + [""] + MetaLines(r) + [""] + ForestLines(r.children, 0)
    else if MetaLines(r) != [] then head + [""] + MetaLines(r)
    else head
  }

  /** How many blank lines a sheet with a root ends with. */
  function CoreTrail(r: Topic): nat {
    if r.children != [] then 0 else if MetaLines(r) != [] then 1 else 2
  }

  lemma Regroup<T>(a: T, b: T, c: T, d: T, e: T, m: seq<T>, g: T, f: seq<T>)
    ensures [a, b] + ([c, d, e] + m + [g] + f) == [a, b, c, d] + [e] + m + [g] + f
  {
  }

  lemma {:induction false} SheetLinesShape(s: Sheet)
    requires s.root.Some?
    ensures var r := s.root.value;
      SheetLines(s) == HeadLines(s.title, r.title) + [""] + MetaLines(r) + [""] + ForestLines(r.children, 0)
  {
    var r := s.root.value;
    Regroup("# Sheet: " + s.title, "", "", "## " + r.title, "", MetaLines(r), "", ForestLines(r.children, 0));
  }

  /** A sheet with a root is its core lines and its trailing blank lines. */
  lemma {:induction false} CoreSplit(s: Sheet)
    requires s.root.Some?
    ensures SheetLines(s) == RootCore(s.title, s.root.value) + Blanks(CoreTrail(s.root.value))
  {
    var r := s.root.value;
    var head := HeadLines(s.title, r.title);
    var m := MetaLines(r);
    SheetLinesShape(s);
    ForestLinesEmpty(r.children, 0);
    if r.children == [] {
      assert Blanks(1) == [""] && Blanks(2) == ["", ""];
      if m != [] {
        assert head + [""] + m + [""] + [] == head + [""] + m + [""];
      } else {
        assert head + [""] + m + [""] + [] == head + ["", ""];
      }
    } else {
      assert Blanks(0) == [];
      AppendEmpty(RootCore(s.title, r));
    }
  }

  lemma BlanksAppend(a: nat, b: nat)
    ensures Blanks(a) + Blanks(b) == Blanks(a + b)
  {
  }

  lemma NewlinesSpace(n: nat)
    ensures AllSpace(Newlines(n))
  {
    assert IsSpace('\n');
  }

  /** The first and last characters of joined lines. */
  lemma JoinEnds(lines: seq<string>, sep: string)
    requires lines != [] && lines[0] != [] && EndsSolid(lines)
    ensures var j := Join(lines, sep); j != [] && j[0] == lines[0][0] && Solid(j)
  {
    if |lines| > 1 {
      JoinCons(lines[0], lines[1..], sep);
      assert [lines[0]] + lines[1..] == lines;
    }
    JoinSolidTail(lines, sep);
  }

  /** Joined lines whose last line ends solid end solid. */
  lemma {:induction false} JoinSolidTail(lines: seq<string>, sep: string)
    requires EndsSolid(lines)
    ensures Solid(Join(lines, sep))
    decreases |lines|
  {
    if |lines| > 1 {
      var rest := lines[1..];
      JoinCons(lines[0], rest, sep);
      assert [lines[0]] + rest == lines;
      JoinSolidTail(rest, sep);
      SolidAfter(lines[0] + sep, Join(rest, sep));
    }
  }

  /** The lines before the outline: both headings read, the metadata kept
      stripped. */
  lemma {:induction false} PreBodyRun(title: string, r: Topic)
    requires TitleReady(title) && r.title != [] && Trimmed(r.title)
    ensures RunFrom(StartState, HeadLines(title, r.title) + [""] + MetaLines(r))
         == BlockState(RootMeta, title, r.title, StripEach(MetaLines(r)), [])
  {
    var head := HeadLines(title, r.title);
    var st := BlockState(RootMeta, title, r.title, [], []);
    HeadRun(title, r.title);
    assert [""] == Blanks(1);
    BlanksRun(st, 1);
    RunFromAppend(StartState, head, [""]);
    MetaQuoted(r);
    MetaRun(st, MetaLines(r));
    RunFromAppend(StartState, head + [""], MetaLines(r));
    AppendEmpty(StripEach(MetaLines(r)));
  }

  /** The outline's first line is a bullet at the left margin. */
  lemma ForestHead(ts: seq<Topic>)
    requires ts != []
    ensures var f := ForestLines(ts, 0); f != [] && f[0] != [] && f[0][0] == '-'
  {
    ForestLinesCons(ts, 0);
    TitleLineBody(ts[0], 0);
    assert Spaces(0) == "";
  }

  /** The outline lines after the metadata all go to the body. */
  lemma {:induction false} OutlineRun(st: BlockState, f: seq<string>)
    requires st.phase == RootMeta && st.body == [] && f != [] && f[0] != [] && f[0][0] == '-'
    ensures RunFrom(st, [""] + f) == st.(phase := Body, body := f)
  {
    var st1 := st.(phase := Body, body := [f[0]]);
    assert [""] == Blanks(1);
    BlanksRun(st, 1);
    RunFromAppend(st, [""], f);
    BodyStart(st, f[0]);
    assert [] + [f[0]] == [f[0]];
    BodyRun(st1, f[1..]);
    assert [f[0]] + f[1..] == f;
  }

  /** The phase machine over the core lines of a sheet with a root. */
  lemma {:induction false} CoreRun(title: string, r: Topic)
    requires TitleReady(title) && r.title != [] && Trimmed(r.title)
    ensures var st := RunFrom(StartState, RootCore(title, r));
      && st.sheetTitle == title && st.rootTitle == r.title
      && st.rootMeta == StripEach(MetaLines(r)) && st.body == ForestLines(r.children, 0)
  {
    var head := HeadLines(title, r.title);
    var pre := head + [""] + MetaLines(r);
    var st := BlockState(RootMeta, title, r.title, StripEach(MetaLines(r)), []);
    ForestLinesEmpty(r.children, 0);
    PreBodyRun(title, r);
    if r.children != [] {
      var f := ForestLines(r.children, 0);
      ForestHead(r.children);
      OutlineRun(st, f);
      Assoc(pre, [""], f);
      RunFromAppend(StartState, pre, [""] + f);
    } else if MetaLines(r) == [] {
      HeadRun(title, r.title);
    }
  }

  /** The core of a ready sheet with a root starts with `#` and ends solid. */
  lemma {:induction false} CoreSolid(title: string, r: Topic)
    requires RootReady(r)
    ensures var core := RootCore(title, r); core != [] && core[0] == "# Sheet: " + title && EndsSolid(core)
  {
    var head := HeadLines(title, r.title);
    if r.children != [] {
      ForestSolid(r.children, 0);
      EndsSolidAppend(head + [""] + MetaLines(r) + [""], ForestLines(r.children, 0));
    } else if MetaLines(r) != [] {
      MetaSolid(r);
      EndsSolidAppend(head + [""], MetaLines(r));
    } else {
      SolidAfter("## ", r.title);
    }
  }

  lemma HeadPlain(title: string, rootTitle: string)
    requires '\n' !in title && '\n' !in rootTitle
    ensures All(HeadLines(title, rootTitle) + [""], Plain)
  {
    PrefixedPlain("# Sheet: ", title);
    PrefixedPlain("## ", rootTitle);
    assert Plain("");
  }

  /** Every line of a ready sheet with a root is plain. */
  lemma {:induction false} RootSheetPlain(title: string, r: Topic)
    requires TitleReady(title) && RootReady(r)
    ensures All(HeadLines(title, r.title) + [""] + MetaLines(r) + [""] + ForestLines(r.children, 0), Plain)
  {
    var head := HeadLines(title, r.title) + [""];
    HeadPlain(title, r.title);
    MetaPlain(r);
    ForestPlain(r.children, 0);
    assert All([""], Plain);
    AllAppend(head, MetaLines(r), Plain);
    AllAppend(head + MetaLines(r), [""], Plain);
    AllAppend(head + MetaLines(r) + [""], ForestLines(r.children, 0), Plain);
  }

  /** Every line of a ready sheet is plain. */
  lemma {:induction false} SheetPlain(s: Sheet)
    requires SheetReady(s)
    ensures All(SheetLines(s), Plain)
  {
    if s.root.Some? {
      RootSheetPlain(s.title, s.root.value);
      SheetLinesShape(s);
    } else {
      PrefixedPlain("# Sheet: ", s.title);
      assert SheetLines(s) == ["# Sheet: " + s.title, ""];
      assert Plain("");
    }
  }

  /** What a sheet comes back as: the sheet with fresh identifiers when it
      has a root, nothing when it has none. */
  function Recovered(s: Sheet): (r: Option<Sheet>)
    ensures r.Some? <==> s.root.Some?
    ensures r.Some? ==> r.value.title == s.title && r.value.root.Some? && r.value.root.value == EraseIds(s.root.value)
  {
    if s.root.Some? then Some(EraseSheetIds(s)) else None
  }

  /** A finished block state gives the root topic back. */
  lemma RootBack(st: BlockState, r: Topic)
    requires RootReady(r) && st.rootTitle == r.title
    requires st.rootMeta == StripEach(MetaLines(r)) && st.body == ForestLines(r.children, 0)
    ensures BlockRoot(st) == EraseIds(r)
  {
    RootMetaRead(r);
    ForestLinesEmpty(r.children, 0);
    if r.children != [] {
      ParseForest(r.children, 0);
    }
  }

  /** No line of a prefix of plain lines holds a newline. */
  lemma PlainPrefix(core: seq<string>, rest: seq<string>)
    requires All(core + rest, Plain)
    ensures forall i :: 0 <= i < |core| ==> '\n' !in core[i]
  {
    forall i | 0 <= i < |core| ensures '\n' !in core[i] {
      assert core[i] in core + rest;
    }
  }

  /** The core lines of a ready sheet with a root, joined, parse back to the
      sheet. */
  lemma {:induction false} CoreParse(s: Sheet)
    requires SheetReady(s) && s.root.Some?
    ensures ParseSheetBlock(Join(RootCore(s.title, s.root.value), "\n")) == Some(EraseSheetIds(s))
  {
    var r := s.root.value;
    var core := RootCore(s.title, r);
    SheetPlain(s);
    CoreSplit(s);
    PlainPrefix(core, Blanks(CoreTrail(r)));
    CoreSolid(s.title, r);
    SplitJoinChar(core, '\n');
    RunBlockFrom(core);
    CoreRun(s.title, r);
    RootBack(RunFrom(StartState, core), r);
  }

  /** The joined core lines start with the heading's `#` and end with a
      kept character. */
  lemma CoreTrimmed(title: string, r: Topic)
    requires RootReady(r)
    ensures var j := Join(RootCore(title, r), "\n"); j != [] && Trimmed(j)
  {
    var core := RootCore(title, r);
    CoreSolid(title, r);
    assert core[0][0] == '#';
    JoinEnds(core, "\n");
  }

  /** A padded sheet block with a root joins to its core lines, padded
      with newlines. */
  lemma {:induction false} BlockPadded(s: Sheet, p: nat, q: nat)
    requires s.root.Some?
    ensures Join(Blanks(p) + SheetLines(s) + Blanks(q), "\n")
         == Newlines(p) + Join(RootCore(s.title, s.root.value), "\n") + Newlines(CoreTrail(s.root.value) + q)
  {
    var r := s.root.value;
    var core := RootCore(s.title, r);
    var k := CoreTrail(r);
    CoreSplit(s);
    BlanksAppend(k, q);
    Assoc(Blanks(p) + core, Blanks(k), Blanks(q));
    Assoc(Blanks(p), core, Blanks(k));
    JoinPadded(p, core, k + q);
  }

  /** `strip()` of a padded sheet block leaves its core lines, joined. */
  lemma {:induction false} BlockStrip(s: Sheet, p: nat, q: nat)
    requires SheetReady(s) && s.root.Some?
    ensures Strip(Join(Blanks(p) + SheetLines(s) + Blanks(q), "\n")) == Join(RootCore(s.title, s.root.value), "\n")
  {
    var r := s.root.value;
    var core := RootCore(s.title, r);
    var n := CoreTrail(r) + q;
    BlockPadded(s, p, q);
    CoreTrimmed(s.title, r);
    NewlinesSpace(p);
    NewlinesSpace(n);
    StripPadded(Newlines(p), Join(core, "\n"), Newlines(n));
  }

  /** The sheet heading, right-stripped, is still a heading line that
      `strip()` leaves alone. */
  lemma HeadingKept(x: string)
    requires StartsWith(x, "# Sheet:") && '\n' !in x
    ensures var y := RStrip(x);
      Strip(y) == y && StartsWith(y, "# Sheet:") && '\n' !in y
  {
    var y := RStrip(x);
    assert x[7] == ':';
    RStripKeeps(x, 7);
    RStripShape(x);
    assert y[..8] == x[..8];
    assert forall i :: 0 <= i < |y| ==> y[i] == x[i];
    assert y[0] == '#';
    StripTrimmed(y);
  }

  /** The padded block of a sheet without a root strips to its heading. */
  lemma {:induction false} RootlessStrip(s: Sheet, p: nat, q: nat)
    requires s.root.None?
    ensures Strip(Join(Blanks(p) + SheetLines(s) + Blanks(q), "\n")) == RStrip("# Sheet: " + s.title)
  {
    var x := "# Sheet: " + s.title;
    assert SheetLines(s) == [x] + Blanks(1);
    BlanksAppend(1, q);
    Assoc(Blanks(p) + [x], Blanks(1), Blanks(q));
    Assoc(Blanks(p), [x], Blanks(1));
    JoinPadded(p, [x], 1 + q);
    NewlinesSpace(p);
    NewlinesSpace(1 + q);
    StripLeadSolid(Newlines(p), x, Newlines(1 + q));
  }

  /** A block that is a sheet heading alone has no root, so it is skipped. */
  lemma HeadingBlock(y: string)
    requires StartsWith(y, "# Sheet:") && '\n' !in y && Strip(y) == y
    ensures ParseSheetBlock(y) == None
  {
    SplitJoinChar([y], '\n');
    assert RunBlock([y]) == BlockStep(RunBlock([]), y);
  }

  /** A sheet without a root comes back as nothing: its block holds only the
      sheet heading. */
  lemma {:induction false} RootlessBlock(s: Sheet, p: nat, q: nat)
    requires '\n' !in s.title && s.root.None?
    ensures ParseSheetBlock(Strip(Join(Blanks(p) + SheetLines(s) + Blanks(q), "\n"))) == None
  {
    var x := "# Sheet: " + s.title;
    RootlessStrip(s, p, q);
    assert x[..8] == "# Sheet:";
    assert forall i :: 0 <= i < |x| ==> x[i] != '\n';
    HeadingKept(x);
    HeadingBlock(RStrip(x));
  }

  /** A ready sheet's block, padded with blank lines on either side, reads
      back as the sheet with fresh identifiers, or as nothing when the sheet
      has no root. */
  lemma {:induction false} SheetBlockRead(s: Sheet, p: nat, q: nat)
    requires SheetReady(s)
    ensures ParseSheetBlock(Strip(Join(Blanks(p) + SheetLines(s) + Blanks(q), "\n"))) == Recovered(s)
  {
    if s.root.Some? {
      BlockStrip(s, p, q);
      CoreParse(s);
    } else {
      RootlessBlock(s, p, q);
    }
  }

  // ---------------------------------------------------------------------
  // No separator inside a block
  // ---------------------------------------------------------------------

  /** The block separator `\n---\n` can only start at a newline. */
  lemma NoSepAt(s: string, p: nat)
    requires p >= |s| || s[p] != '\n'
    ensures !MatchAt(s, p, "\n---\n")
  {
    if p < |s| {
      assert s[p..][0] == s[p];
    }
  }

  /** After a newline, the separator's tail must follow. */
  lemma SepAfterNewline(rest: string)
    requires !StartsWith(rest, "---\n")
    ensures !StartsWith("\n" + rest, "\n---\n")
  {
    if |rest| >= 4 {
      var u := ("\n" + rest)[..5];
      assert u[1..] == rest[..4];
      assert "\n---\n"[1..] == "---\n";
    }
  }

  /** A plain line followed by a newline or nothing never starts `---\n`. */
  lemma LineStart(line: string, w: string)
    requires Plain(line) && (w == [] || w[0] == '\n')
    ensures !StartsWith(line + w, "---\n")
  {
    var s := line + w;
    var k := |line|;
    if k >= 4 {
      assert s[3] == line[3];
      assert line[3] in line;
    } else if k == 3 {
      assert s[..3] == line;
    } else if w != [] {
      assert s[k] == w[0];
    }
  }

  /** Joined lines followed by a text that is empty or starts a new line: the
      first line, then what follows it. */
  lemma JoinFirst(lines: seq<string>, t: string) returns (w: string)
    requires |lines| >= 1 && (t == [] || t[0] == '\n')
    ensures Join(lines, "\n") + t == lines[0] + w
    ensures w == [] || w[0] == '\n'
  {
    if |lines| == 1 {
      w := t;
    } else {
      w := "\n" + Join(lines[1..], "\n") + t;
    }
  }

  /** No position of a line `line` glued to `rest` by a newline starts the
      separator, given that none of `rest`'s positions does and that the
      line after `line` is plain. */
  lemma NoSepCons(line: string, rest: string, n: nat)
    requires Plain(line) && n <= |rest|
    requires !StartsWith(rest, "---\n")
    requires forall p :: 0 <= p < n ==> !MatchAt(rest, p, "\n---\n")
    ensures forall p :: 0 <= p < |line| + 1 + n ==> !MatchAt(line + "\n" + rest, p, "\n---\n")
  {
    var s := line + "\n" + rest;
    forall p | 0 <= p < |line| + 1 + n ensures !MatchAt(s, p, "\n---\n") {
      if p < |line| {
        assert s[p] == line[p];
        assert line[p] in line;
        NoSepAt(s, p);
      } else if p == |line| {
        assert s[p..] == "\n" + rest;
        SepAfterNewline(rest);
      } else {
        assert s[p..] == rest[p - |line| - 1..];
        assert !MatchAt(rest, p - |line| - 1, "\n---\n");
      }
    }
  }

  /** The separator does not occur inside joined plain lines, whatever
      starts a new line after them. */
  lemma {:induction false} NoSepIn(lines: seq<string>, t: string)
    requires |lines| >= 1 && All(lines, Plain)
    requires t == [] || t[0] == '\n'
    ensures forall p :: 0 <= p < |Join(lines, "\n")| ==> !MatchAt(Join(lines, "\n") + t, p, "\n---\n")
    decreases |lines|
  {
    var s := Join(lines, "\n") + t;
    assert lines[0] in lines;
    if |lines| == 1 {
      forall p | 0 <= p < |lines[0]| ensures !MatchAt(s, p, "\n---\n") {
        assert s[p] == lines[0][p];
        assert lines[0][p] in lines[0];
        NoSepAt(s, p);
      }
    } else {
      var tail := lines[1..];
      assert tail[0] in lines;
      assert All(tail, Plain);
      NoSepIn(tail, t);
      var w := JoinFirst(tail, t);
      LineStart(tail[0], w);
      var rest := Join(tail, "\n") + t;
      assert s == lines[0] + "\n" + rest;
      NoSepCons(lines[0], rest, |Join(tail, "\n")|);
    }
  }

  // ---------------------------------------------------------------------
  // The whole document
  // ---------------------------------------------------------------------

  /** The document lines, read from the front: the first sheet, the rule,
      then the rest of the document. */
  lemma {:induction false} DocLinesCons(ss: seq<Sheet>)
    requires |ss| >= 2
    ensures DocLines(ss) == SheetLines(ss[0]) + ["", "---", ""] + DocLines(ss[1..])
    decreases |ss|
  {
    var n := |ss|;
    var rule: seq<string> := ["", "---", ""];
    assert ss[..n - 1][0] == ss[0];
    if n == 2 {
      assert DocLines(ss[..1]) == SheetLines(ss[0]);
      assert DocLines(ss[1..]) == SheetLines(ss[1]);
    } else {
      DocLinesCons(ss[..n - 1]);
      assert ss[..n - 1][1..] == ss[1..][..n - 2];
      assert ss[1..][n - 2] == ss[n - 1];
      var a, b, c := SheetLines(ss[0]), DocLines(ss[1..][..n - 2]), SheetLines(ss[n - 1]);
      assert DocLines(ss[1..]) == b + rule + c;
      Regroup5(a + rule, b, rule, c, []);
      Assoc(a, rule, b);
      Assoc(a + rule, b, rule);
      Assoc(a + rule + b, rule, c);
      Assoc(a + rule, b + rule, c);
      Assoc(b, rule, c);
      Assoc(a + rule, b, rule + c);
    }
  }

  lemma BlanksPlain(n: nat)
    ensures All(Blanks(n), Plain)
  {
  }

  /** The lines of a document whose first sheet is followed by others, with
      the rule between them singled out. */
  lemma DocRegroup<T>(a: seq<T>, b: seq<T>, x: T, y: T, z: T, d: seq<T>)
    ensures a + (b + [x, y, z] + d) == (a + b + [x]) + [y] + ([z] + d)
  {
  }

  /** The joined text of such a document: the first block, the separator,
      the rest. */
  lemma SepJoin(x: string, y: string)
    ensures x + "\n" + "---" + "\n" + y == x + "\n---\n" + y
  {
  }

  lemma {:induction false} DocText(ss: seq<Sheet>, lead: nat)
    requires |ss| >= 2
    ensures Join(Blanks(lead) + DocLines(ss), "\n")
         == Join(Blanks(lead) + SheetLines(ss[0]) + Blanks(1), "\n") + "\n---\n"
            + Join(Blanks(1) + DocLines(ss[1..]), "\n")
  {
    var a := Blanks(lead) + SheetLines(ss[0]) + Blanks(1);
    var b := Blanks(1) + DocLines(ss[1..]);
    DocLinesCons(ss);
    DocRegroup(Blanks(lead), SheetLines(ss[0]), "", "---", "", DocLines(ss[1..]));
    assert Blanks(1) == [""];
    JoinAppend(a + ["---"], b, "\n");
    JoinAppend(a, ["---"], "\n");
    SepJoin(Join(a, "\n"), Join(b, "\n"));
  }

  /** Cutting at the separator takes off the first sheet's block. */
  lemma {:induction false} DocSplit(ss: seq<Sheet>, lead: nat)
    requires |ss| >= 2 && SheetReady(ss[0])
    ensures Split(Join(Blanks(lead) + DocLines(ss), "\n"), "\n---\n")
         == [Join(Blanks(lead) + SheetLines(ss[0]) + Blanks(1), "\n")]
            + Split(Join(Blanks(1) + DocLines(ss[1..]), "\n"), "\n---\n")
  {
    var a := Blanks(lead) + SheetLines(ss[0]) + Blanks(1);
    var y := Join(Blanks(1) + DocLines(ss[1..]), "\n");
    DocText(ss, lead);
    BlanksPlain(lead);
    BlanksPlain(1);
    SheetPlain(ss[0]);
    AllAppend(Blanks(lead), SheetLines(ss[0]), Plain);
    AllAppend(Blanks(lead) + SheetLines(ss[0]), Blanks(1), Plain);
    NoSepIn(a, "\n---\n" + y);
    assert Join(a, "\n") + "\n---\n" + y == Join(a, "\n") + ("\n---\n" + y);
    SplitAtFirst(Join(a, "\n"), y, "\n---\n");
  }

  /** The last sheet's block is not cut. */
  lemma {:induction false} LastSplit(s: Sheet, lead: nat)
    requires SheetReady(s)
    ensures Split(Join(Blanks(lead) + SheetLines(s) + Blanks(0), "\n"), "\n---\n")
         == [Join(Blanks(lead) + SheetLines(s) + Blanks(0), "\n")]
  {
    var a := Blanks(lead) + SheetLines(s) + Blanks(0);
    assert a == Blanks(lead) + SheetLines(s);
    BlanksPlain(lead);
    SheetPlain(s);
    AllAppend(Blanks(lead), SheetLines(s), Plain);
    NoSepIn(a, "");
    assert Join(a, "\n") + "" == Join(a, "\n");
    SplitNoMatch(Join(a, "\n"), "\n---\n");
  }

  /** What each sheet of a document comes back as. */
  function RecoveredAll(ss: seq<Sheet>): (r: seq<Option<Sheet>>)
    ensures |r| == |ss| && forall i :: 0 <= i < |ss| ==> r[i] == Recovered(ss[i])
  {
    seq(|ss|, i requires 0 <= i < |ss| => Recovered(ss[i]))
  }

  /** A block read on its own. */
  function ReadBlock(block: string): Option<Sheet> {
    ParseSheetBlock(Strip(block))
  }

  /** Reading each of `[x] + rest` is reading `x`, then each of `rest`. */
  lemma ConsMap<A, B>(l: seq<B>, x: A, rest: seq<A>, t: seq<B>, f: A -> B)
    requires |l| == 1 + |rest| && |t| == |rest|
    requires forall i :: 0 <= i < |l| ==> l[i] == f(([x] + rest)[i])
    requires forall i :: 0 <= i < |t| ==> t[i] == f(rest[i])
    ensures l == [f(x)] + t
  {
    forall i | 0 <= i < |l| ensures l[i] == ([f(x)] + t)[i] {
      if i > 0 {
        assert ([x] + rest)[i] == rest[i - 1];
      }
    }
  }

  lemma BlockSheetsCons(x: string, rest: seq<string>)
    ensures BlockSheets([x] + rest) == [ParseSheetBlock(Strip(x))] + BlockSheets(rest)
  {
    ConsMap(BlockSheets([x] + rest), x, rest, BlockSheets(rest), ReadBlock);
  }

  lemma RecoveredCons(ss: seq<Sheet>)
    requires |ss| >= 1
    ensures RecoveredAll(ss) == [Recovered(ss[0])] + RecoveredAll(ss[1..])
  {
  }

  /** The last sheet's block reads back as the sheet. */
  lemma {:induction false} DocBlocksLast(ss: seq<Sheet>, lead: nat)
    requires |ss| == 1 && SheetReady(ss[0])
    ensures BlockSheets(Split(Join(Blanks(lead) + DocLines(ss), "\n"), "\n---\n")) == RecoveredAll(ss)
  {
    var a := Blanks(lead) + SheetLines(ss[0]) + Blanks(0);
    assert a == Blanks(lead) + DocLines(ss);
    LastSplit(ss[0], lead);
    BlockSheetsCons(Join(a, "\n"), []);
    SheetBlockRead(ss[0], lead, 0);
    RecoveredCons(ss);
    assert RecoveredAll(ss[1..]) == [];
  }

  /** Every block of the written document reads back as its sheet, in
      order, whatever blank lines lead the first one. */
  lemma {:induction false} DocBlocks(ss: seq<Sheet>, lead: nat)
    requires |ss| >= 1 && forall i :: 0 <= i < |ss| ==> SheetReady(ss[i])
    ensures BlockSheets(Split(Join(Blanks(lead) + DocLines(ss), "\n"), "\n---\n")) == RecoveredAll(ss)
    decreases |ss|
  {
    if |ss| == 1 {
      DocBlocksLast(ss, lead);
    } else {
      var a := Blanks(lead) + SheetLines(ss[0]) + Blanks(1);
      var y := Join(Blanks(1) + DocLines(ss[1..]), "\n");
      DocSplit(ss, lead);
      DocBlocks(ss[1..], 1);
      BlockSheetsCons(Join(a, "\n"), Split(y, "\n---\n"));
      SheetBlockRead(ss[0], lead, 1);
      RecoveredCons(ss);
    }
  }

  /** An empty document has no sheets. */
  lemma EmptyDocument()
    ensures MarkdownToSheets(SheetsToMarkdown([])) == []
  {
    SheetsToMarkdownLines([]);
    assert Split("", "\n---\n") == [""];
    assert Split("", "\n") == [""];
    assert RunBlock([""]) == BlockStep(RunBlock([]), "");
    assert BlockSheets([""]) == [None];
  }

  /** Reading back written sheets gives every sheet that has a root, in
      order, with fresh identifiers; a sheet without a root is dropped. */
  lemma OutlineRoundTrip(ss: seq<Sheet>)
    requires forall i :: 0 <= i < |ss| ==> SheetReady(ss[i])
    ensures MarkdownToSheets(SheetsToMarkdown(ss)) == KeepSome(RecoveredAll(ss))
  {
    if ss == [] {
      EmptyDocument();
    } else {
      SheetsToMarkdownLines(ss);
      assert Blanks(0) + DocLines(ss) == DocLines(ss);
      DocBlocks(ss, 0);
    }
  }

  /** When every sheet has a root, reading back written sheets gives them
      all, with fresh identifiers. */
  lemma OutlineRoundTripRooted(ss: seq<Sheet>)
    requires forall i :: 0 <= i < |ss| ==> SheetReady(ss[i]) && ss[i].root.Some?
    ensures MarkdownToSheets(SheetsToMarkdown(ss)) == EraseDocumentIds(ss)
  {
    OutlineRoundTrip(ss);
    KeepSomeAll(RecoveredAll(ss));
  }
}
