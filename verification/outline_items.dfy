/**
 * The bullet list survives the outline: `_parse_md_items` applied to the
 * lines `_topic_to_md` writes for sibling topics gives the topics back, with
 * their notes and their children, up to identifiers.
 */
module OutlineItems {
  import opened Wrappers
  import opened Text
  import opened Seqs
  import opened Model
  import opened MarkdownEncode
  import opened MarkdownDecode
  import opened OutlineTags

  // ---------------------------------------------------------------------
  // What a topic needs to be read back
  // ---------------------------------------------------------------------

  /** Notes that `splitlines()` and a newline join give back unchanged: no
      line boundary other than `\n`, and no trailing one. */
  predicate NotesReady(notes: string) {
    Join(SplitLines(notes), "\n") == notes
  }

  /** A topic whose bullet line, notes and children can all be read back. */
  predicate TopicReady(t: Topic)
    decreases t, 1
  {
    InlineReady(t) && NotesReady(t.notes) && ForestReady(t.children)
  }

  predicate ForestReady(ts: seq<Topic>)
    decreases ts, 0
  {
    forall i :: 0 <= i < |ts| ==> TopicReady(ts[i])
  }

  lemma {:induction false} ForestReadyCons(ts: seq<Topic>)
    requires ts != [] && ForestReady(ts)
    ensures TopicReady(ts[0]) && ForestReady(ts[1..])
  {
    forall i | 0 <= i < |ts[1..]| ensures TopicReady(ts[1..][i]) {
      assert ts[1..][i] == ts[i + 1];
    }
  }

  // ---------------------------------------------------------------------
  // Single lines
  // ---------------------------------------------------------------------

  /** The `\s*` before a non-space character after `k` spaces is `k` long. */
  lemma {:induction false} LeadingOf(k: nat, x: string)
    requires x != [] && !IsSpace(x[0])
    ensures LeadingSpaces(Spaces(k) + x) == k
    decreases k
  {
    if k > 0 {
      assert (Spaces(k) + x)[1..] == Spaces(k - 1) + x;
      LeadingOf(k - 1, x);
    } else {
      assert Spaces(k) + x == x;
    }
  }

  lemma {:induction false} SpacesAppend(a: nat, b: nat)
    ensures Spaces(a) + Spaces(b) == Spaces(a + b)
    decreases a
  {
    if a > 0 {
      SpacesAppend(a - 1, b);
      Assoc(" ", Spaces(a - 1), Spaces(b));
    } else {
      AppendEmpty(Spaces(b));
    }
  }

  /** The text after the `k` spaces and the two-character marker of a line. */
  lemma {:induction false} AfterMarker(k: nat, mark: string, body: string)
    requires |mark| == 2
    ensures var l := Spaces(k) + mark + body;
      MatchAt(l, k, mark) && l[k + 2..] == body && l[k] == mark[0]
  {
    var l := Spaces(k) + mark + body;
    Assoc(Spaces(k), mark, body);
    assert l[k..] == mark + body;
    assert (mark + body)[..2] == mark;
    assert (mark + body)[2..] == body;
  }

  /** A bullet line at indent `k`. */
  lemma {:induction false} BulletShape(k: nat, body: string)
    requires body != [] && '\n' !in body
    ensures var l := Spaces(k) + "- " + body;
      ItemMatch(l) == Some((k, body)) && BulletIndent(l) == Some(k) && !Blank(l)
  {
    var l := Spaces(k) + "- " + body;
    Assoc(Spaces(k), "- ", body);
    LeadingOf(k, "- " + body);
    AfterMarker(k, "- ", body);
    StripNonSpace(l, k);
  }

  /** A quoted line at indent `k`. */
  lemma {:induction false} QuoteShape(k: nat, text: string)
    requires NoLineBreak(text)
    ensures var l := Spaces(k) + "> " + text;
      BulletIndent(l) == None && QuoteMatch(l) == Some((k, text)) && !Blank(l)
  {
    var l := Spaces(k) + "> " + text;
    Assoc(Spaces(k), "> ", text);
    LeadingOf(k, "> " + text);
    AfterMarker(k, "> ", text);
    assert '\n' !in l by {
      forall i | 0 <= i < |l| ensures l[i] != '\n' {
        if i >= k + 2 {
          assert l[i] == l[k + 2..][i - k - 2];
        } else {
          SpacesAreSpaces(k);
        }
      }
    }
    StripNonSpace(l, k);
  }

  /** How the inner loop treats a bullet line at indent `k`. */
  lemma {:induction false} ClassifyBullet(k: nat, body: string, cur: nat, noChildren: bool)
    requires body != [] && '\n' !in body
    ensures Classify(Spaces(k) + "- " + body, cur, noChildren) == if k > cur then Child else Stop
  {
    BulletShape(k, body);
  }

  /** How the inner loop treats a quoted line at indent `k`. */
  lemma {:induction false} ClassifyQuote(k: nat, text: string, cur: nat, noChildren: bool)
    requires NoLineBreak(text)
    ensures Classify(Spaces(k) + "> " + text, cur, noChildren)
      == if noChildren && k == cur + 2 then Note(text) else if k > cur then Child else Stop
  {
    QuoteShape(k, text);
  }

  /** The note prefix of a bullet at indent `k` quotes at indent `k + 2`. */
  lemma {:induction false} NotePrefix(k: nat)
    ensures Spaces(k) + "  > " == Spaces(k + 2) + "> "
  {
    SpacesAppend(k, 2);
    assert Spaces(2) == "  ";
    Assoc(Spaces(k), "  ", "> ");
    assert "  " + "> " == "  > ";
  }

  // ---------------------------------------------------------------------
  // The lines of a topic
  // ---------------------------------------------------------------------

  /** The text of each note line of a topic. */
  function NoteTexts(t: Topic): (r: seq<string>)
    ensures forall i :: 0 <= i < |r| ==> NoLineBreak(r[i])
  {
    SplitLinesNoBreak(t.notes);
    if t.notes != "" then SplitLines(t.notes) else []
  }

  /** The notes are read back from their note lines. */
  lemma {:induction false} NoteTextsJoin(t: Topic)
    requires NotesReady(t.notes)
    ensures NoteTexts(t) != [] ==> Join(NoteTexts(t), "\n") == t.notes
    ensures NoteTexts(t) == [] ==> t.notes == ""
  {
  }

  /** The note lines of a topic at `depth` quote its note texts at indent
      `2 * depth + 2`. */
  lemma {:induction false} NoteLinesTexts(t: Topic, depth: nat)
    ensures NoteLines(t, depth) == Prefixed(Spaces(2 * depth + 2) + "> ", NoteTexts(t))
  {
    NotePrefix(2 * depth);
    if t.notes == "" {
      assert Prefixed(Spaces(2 * depth + 2) + "> ", []) == [];
    }
  }

  lemma {:induction false} OptPartOneLine(present: bool, key: string, val: string)
    requires key in TagKeys && '\n' !in val
    ensures '\n' !in OptPart(present, key, val)
  {
    assert '\n' !in key;
    assert '\n' !in TagOpen(key);
    assert '\n' !in TagRest(val);
  }

  lemma {:induction false} ValuesOneLine(vs: seq<string>)
    requires ValuesReady(vs)
    ensures '\n' !in Join(vs, ", ")
  {
    if vs != [] {
      JoinedTrimmed(vs);
    }
  }

  /** The bullet text of a ready topic is one non-empty line. */
  lemma {:induction false} BodyOneLine(t: Topic)
    requires InlineReady(t)
    ensures TitleBody(t) != [] && '\n' !in TitleBody(t)
  {
    BodyParts(t);
    ValuesOneLine(t.labels);
    ValuesOneLine(t.markers);
    OptPartOneLine(t.labels != [], "labels", LabelsVal(t));
    OptPartOneLine(t.link != "", "link", t.link);
    OptPartOneLine(t.markers != [], "markers", MarkersVal(t));
  }

  lemma {:induction false} ForestLinesCons(ts: seq<Topic>, depth: nat)
    requires ts != []
    ensures ForestLines(ts, depth) == TopicLines(ts[0], depth) + ForestLines(ts[1..], depth)
  {
    var xs := ForestParts(ts, depth);
    assert xs[1..] == ForestParts(ts[1..], depth);
  }

  lemma {:induction false} ForestLinesEmpty(ts: seq<Topic>, depth: nat)
    ensures ForestLines(ts, depth) == [] <==> ts == []
  {
    if ts != [] {
      ForestLinesCons(ts, depth);
    }
  }

  /** Lines the inner loop of an item at indent `cur` takes as child lines,
      whether or not it has taken one before. */
  predicate Below(line: string, cur: nat) {
    Classify(line, cur, true) == Child && Classify(line, cur, false) == Child
  }

  function BelowAt(cur: nat): string -> bool {
    line => Below(line, cur)
  }

  predicate AllBelow(lines: seq<string>, cur: nat) {
    All(lines, BelowAt(cur))
  }

  /** Note lines of a bullet deeper than `cur` are child lines. */
  lemma NotesBelow(k: nat, texts: seq<string>, cur: nat)
    requires cur + 2 < k && forall i :: 0 <= i < |texts| ==> NoLineBreak(texts[i])
    ensures AllBelow(Prefixed(Spaces(k) + "> ", texts), cur)
  {
    var ls := Prefixed(Spaces(k) + "> ", texts);
    forall line | line in ls ensures Below(line, cur) {
      var i :| 0 <= i < |ls| && ls[i] == line;
      ClassifyQuote(k, texts[i], cur, true);
      ClassifyQuote(k, texts[i], cur, false);
    }
  }

  /** The bullet line of a topic at `depth` is a child line of an item above
      it. */
  lemma {:induction false} TitleBelow(t: Topic, depth: nat, cur: nat)
    requires cur < 2 * depth && InlineReady(t)
    ensures AllBelow([TitleLine(t, depth)], cur)
  {
    TitleLineBody(t, depth);
    BodyOneLine(t);
    ClassifyBullet(2 * depth, TitleBody(t), cur, true);
    ClassifyBullet(2 * depth, TitleBody(t), cur, false);
  }

  /** A property of every line of a topic's bullet, of its note lines and of
      its children's lines holds of every line of the topic. */
  lemma TopicAll(t: Topic, depth: nat, ok: string -> bool)
    requires All([TitleLine(t, depth)], ok) && All(NoteLines(t, depth), ok)
    requires All(ForestLines(t.children, depth + 1), ok)
    ensures All(TopicLines(t, depth), ok)
  {
    var title := [TitleLine(t, depth)];
    AllAppend(title, NoteLines(t, depth), ok);
    AllAppend(title + NoteLines(t, depth), ForestLines(t.children, depth + 1), ok);
  }

  /** Note lines of a topic at `depth` are child lines of an item above it. */
  lemma NoteLinesBelow(t: Topic, depth: nat, cur: nat)
    requires cur < 2 * depth && NotesReady(t.notes)
    ensures AllBelow(NoteLines(t, depth), cur)
  {
    NoteLinesTexts(t, depth);
    NotesBelow(2 * depth + 2, NoteTexts(t), cur);
  }

  /** Every line of a topic at `depth` is a child line of an item above it. */
  lemma {:induction false} TopicBelow(t: Topic, depth: nat, cur: nat)
    requires cur < 2 * depth && TopicReady(t)
    ensures AllBelow(TopicLines(t, depth), cur)
    decreases t
  {
    TitleBelow(t, depth, cur);
    NoteLinesBelow(t, depth, cur);
    ForestBelow(t.children, depth + 1, cur);
    TopicAll(t, depth, BelowAt(cur));
  }

  lemma {:induction false} ForestBelow(ts: seq<Topic>, depth: nat, cur: nat)
    requires cur < 2 * depth && ForestReady(ts)
    ensures AllBelow(ForestLines(ts, depth), cur)
    decreases ts
  {
    if ts != [] {
      ForestLinesCons(ts, depth);
      ForestReadyCons(ts);
      TopicBelow(ts[0], depth, cur);
      ForestBelow(ts[1..], depth, cur);
      AllAppend(TopicLines(ts[0], depth), ForestLines(ts[1..], depth), BelowAt(cur));
    } else {
      assert ForestLines(ts, depth) == [];
    }
  }

  // ---------------------------------------------------------------------
  // The inner loop over the lines of one topic
  // ---------------------------------------------------------------------

  /** One turn of the inner loop that collects a note. */
  lemma {:induction false} ScanNote(lines: seq<string>, i: nat, cur: nat, line: string, text: string,
                                    notes: seq<string>)
    requires i < |lines| && lines[i] == line && Classify(line, cur, true) == Note(text)
    ensures Same(Scan(lines, i, cur, [], notes), Scan(lines, i + 1, cur, [], notes + [text]))
  {
  }

  /** One turn of the inner loop that collects a child line. */
  lemma {:induction false} ScanChild(lines: seq<string>, i: nat, cur: nat, line: string,
                                     childLines: seq<string>, notes: seq<string>)
    requires i < |lines| && lines[i] == line && Below(line, cur)
    ensures Same(Scan(lines, i, cur, childLines, notes), Scan(lines, i + 1, cur, childLines + [line], notes))
  {
    if childLines == [] {
      assert Classify(lines[i], cur, true) == Child;
    } else {
      assert Classify(lines[i], cur, false) == Child;
    }
  }

  /** Where quoted lines are written, the first is at `i` and the rest
      follow it. */
  lemma PrefixedCons(lines: seq<string>, i: nat, pre: string, texts: seq<string>)
    requires texts != [] && Written(lines, i, Prefixed(pre, texts))
    ensures i < |lines| && lines[i] == pre + texts[0] && Written(lines, i + 1, Prefixed(pre, texts[1..]))
  {
    assert Prefixed(pre, texts)[0] == pre + texts[0];
    forall k | 0 <= k < |texts| - 1 ensures lines[i + 1 + k] == Prefixed(pre, texts[1..])[k] {
      assert Prefixed(pre, texts)[k + 1] == Prefixed(pre, texts[1..])[k];
    }
  }

  /** Note lines right after an item's bullet are collected as its notes. */
  lemma {:induction false} ScanNotes(lines: seq<string>, i: nat, j: nat, cur: nat, texts: seq<string>,
                                     notes: seq<string>)
    requires j == i + |texts|
    requires forall k :: 0 <= k < |texts| ==> NoLineBreak(texts[k])
    requires Written(lines, i, Prefixed(Spaces(cur + 2) + "> ", texts))
    ensures Same(Scan(lines, i, cur, [], notes), Scan(lines, j, cur, [], notes + texts))
    decreases |texts|
  {
    if texts == [] {
      AppendEmpty(notes);
    } else {
      var pre := Spaces(cur + 2) + "> ";
      var notes' := notes + [texts[0]];
      PrefixedCons(lines, i, pre, texts);
      ClassifyQuote(cur + 2, texts[0], cur, true);
      ScanNote(lines, i, cur, pre + texts[0], texts[0], notes);
      ScanNotes(lines, i + 1, j, cur, texts[1..], notes');
      Assoc(notes, [texts[0]], texts[1..]);
      assert [texts[0]] + texts[1..] == texts;
      SameChain(Scan(lines, i, cur, [], notes), Scan(lines, i + 1, cur, [], notes'),
                Scan(lines, j, cur, [], notes + texts));
    }
  }

  /** Child lines are collected up to the end of the run. */
  lemma {:induction false} ScanChildren(lines: seq<string>, i: nat, j: nat, cur: nat, kids: seq<string>,
                                        childLines: seq<string>, notes: seq<string>)
    requires j == i + |kids|
    requires Written(lines, i, kids) && AllBelow(kids, cur)
    ensures Same(Scan(lines, i, cur, childLines, notes), Scan(lines, j, cur, childLines + kids, notes))
    decreases |kids|
  {
    if kids == [] {
      AppendEmpty(childLines);
    } else {
      var childLines' := childLines + [kids[0]];
      assert kids == [kids[0]] + kids[1..];
      WrittenCons(lines, i, kids[0], kids[1..]);
      AllCons(kids[0], kids[1..], BelowAt(cur));
      ScanChild(lines, i, cur, kids[0], childLines, notes);
      ScanChildren(lines, i + 1, j, cur, kids[1..], childLines', notes);
      Assoc(childLines, [kids[0]], kids[1..]);
      SameChain(Scan(lines, i, cur, childLines, notes), Scan(lines, i + 1, cur, childLines', notes),
                Scan(lines, j, cur, childLines + kids, notes));
    }
  }

  /** Where an item's lines end: the end of the list, or a bullet at or above
      the item's indent. */
  predicate EndsAt(lines: seq<string>, i: nat, cur: nat) {
    i == |lines| || (i < |lines| && ItemMatch(lines[i]).Some? && ItemMatch(lines[i]).value.0 <= cur)
  }

  lemma {:induction false} ScanEnds(lines: seq<string>, i: nat, cur: nat, childLines: seq<string>, notes: seq<string>)
    requires i <= |lines| && EndsAt(lines, i, cur)
    ensures Same(Scan(lines, i, cur, childLines, notes), (i, childLines, notes))
  {
    if i < |lines| {
      SiblingEndsItem(lines, i, cur, childLines, notes);
    }
  }

  /** The pieces of a topic's lines where they are written. */
  lemma {:induction false} TopicLinesAt(lines: seq<string>, p: nat, t: Topic, depth: nat)
    requires Written(lines, p, TopicLines(t, depth))
    ensures p < |lines| && lines[p] == TitleLine(t, depth)
    ensures Written(lines, p + 1, Prefixed(Spaces(2 * depth + 2) + "> ", NoteTexts(t)))
    ensures Written(lines, p + 1 + |NoteTexts(t)|, ForestLines(t.children, depth + 1))
    ensures p + 1 + |NoteTexts(t)| + |ForestLines(t.children, depth + 1)| == p + |TopicLines(t, depth)|
  {
    var nl := NoteLines(t, depth);
    var kids := ForestLines(t.children, depth + 1);
    assert TopicLines(t, depth) == [TitleLine(t, depth)] + (nl + kids);
    WrittenCons(lines, p, TitleLine(t, depth), nl + kids);
    WrittenSplit(lines, p + 1, nl, kids);
    NoteLinesTexts(t, depth);
  }

  /** The inner loop over note lines, then child lines, then a line that
      ends the item collects exactly those notes and child lines. */
  lemma {:induction false} ScanBlock(lines: seq<string>, i: nat, j: nat, q: nat, cur: nat,
                                     texts: seq<string>, kids: seq<string>)
    requires j == i + |texts| && q == j + |kids|
    requires forall k :: 0 <= k < |texts| ==> NoLineBreak(texts[k])
    requires Written(lines, i, Prefixed(Spaces(cur + 2) + "> ", texts))
    requires Written(lines, j, kids) && AllBelow(kids, cur)
    requires q <= |lines| && EndsAt(lines, q, cur)
    ensures Same(Scan(lines, i, cur, [], []), (q, kids, texts))
  {
    ScanNotes(lines, i, j, cur, texts, []);
    AppendEmpty(texts);
    ScanChildren(lines, j, q, cur, kids, [], texts);
    AppendEmpty(kids);
    SameChain(Scan(lines, i, cur, [], []), Scan(lines, j, cur, [], texts), Scan(lines, q, cur, kids, texts));
    ScanEnds(lines, q, cur, kids, texts);
    SameChain(Scan(lines, i, cur, [], []), Scan(lines, q, cur, kids, texts), (q, kids, texts));
  }

  /** An item whose inner loop stops at `q` with `kids` and `texts`. */
  lemma {:induction false} ItemStep(lines: seq<string>, p: nat, cur: nat, body: string, q: nat,
                                    kids: seq<string>, texts: seq<string>)
    requires p < |lines| && ItemMatch(lines[p]) == Some((cur, body))
    requires Same(Scan(lines, p + 1, cur, [], []), (q, kids, texts))
    ensures q <= |lines| && |kids| < |lines|
    ensures ParseItemsFrom(lines, p) == [MakeItem(body, kids, texts, |lines|)] + ParseItemsFrom(lines, q)
  {
  }

  /** The item read back from the bullet, note and child lines of a ready
      topic is the topic itself, up to identifiers. */
  lemma {:induction false} ItemOfTopic(t: Topic, kids: seq<string>, bound: nat)
    requires InlineReady(t) && NotesReady(t.notes) && |kids| < bound
    requires kids == [] ==> t.children == []
    requires kids != [] ==> ParseItems(kids) == EraseAll(t.children)
    ensures MakeItem(TitleBody(t), kids, NoteTexts(t), bound) == EraseIds(t)
  {
    TitleMetaRoundTrip(t);
    NoteTextsJoin(t);
    if kids == [] {
      assert EraseAll(t.children) == [];
    }
  }

  /** The bullet line of a ready topic is an item at its indent. */
  lemma {:induction false} TitleItem(t: Topic, depth: nat)
    requires InlineReady(t)
    ensures ItemMatch(TitleLine(t, depth)) == Some((2 * depth, TitleBody(t)))
  {
    TitleLineBody(t, depth);
    BodyOneLine(t);
    BulletShape(2 * depth, TitleBody(t));
  }

  /** The lines of a following sibling end an item at the same depth. */
  lemma {:induction false} SiblingEnds(lines: seq<string>, p: nat, ts: seq<Topic>, depth: nat)
    requires ts != [] && ForestReady(ts) && Written(lines, p, ForestLines(ts, depth))
    ensures EndsAt(lines, p, 2 * depth)
  {
    ForestLinesCons(ts, depth);
    ForestReadyCons(ts);
    WrittenSplit(lines, p, TopicLines(ts[0], depth), ForestLines(ts[1..], depth));
    TitleItem(ts[0], depth);
  }

  /** The inner loop of an item written for `t` at `depth` collects exactly
      its note texts and the lines of its children. */
  lemma {:induction false} ScanTopic(lines: seq<string>, p: nat, q: nat, t: Topic, depth: nat)
    requires q == p + 1 + |NoteTexts(t)| + |ForestLines(t.children, depth + 1)|
    requires Written(lines, p + 1, Prefixed(Spaces(2 * depth + 2) + "> ", NoteTexts(t)))
    requires Written(lines, p + 1 + |NoteTexts(t)|, ForestLines(t.children, depth + 1))
    requires ForestReady(t.children)
    requires q <= |lines| && EndsAt(lines, q, 2 * depth)
    ensures Same(Scan(lines, p + 1, 2 * depth, [], []), (q, ForestLines(t.children, depth + 1), NoteTexts(t)))
  {
    ForestBelow(t.children, depth + 1, 2 * depth);
    ScanBlock(lines, p + 1, p + 1 + |NoteTexts(t)|, q, 2 * depth, NoteTexts(t), ForestLines(t.children, depth + 1));
  }

  /** The bullet line of a ready topic starts an item whose inner loop stops
      right after the topic's lines, with its note texts and the lines of its
      children. */
  lemma {:induction false} TopicScan(lines: seq<string>, p: nat, q: nat, t: Topic, depth: nat)
    requires q == p + |TopicLines(t, depth)|
    requires TopicReady(t) && Written(lines, p, TopicLines(t, depth)) && EndsAt(lines, q, 2 * depth)
    ensures p < |lines| && ItemMatch(lines[p]) == Some((2 * depth, TitleBody(t)))
    ensures Same(Scan(lines, p + 1, 2 * depth, [], []), (q, ForestLines(t.children, depth + 1), NoteTexts(t)))
  {
    TopicLinesAt(lines, p, t, depth);
    TitleItem(t, depth);
    ScanTopic(lines, p, q, t, depth);
  }

  /** The items read from the lines of a ready topic, followed by a line that
      ends it, begin with the topic itself. */
  lemma {:induction false} TopicItem(lines: seq<string>, p: nat, q: nat, t: Topic, depth: nat)
    requires q == p + |TopicLines(t, depth)|
    requires TopicReady(t) && Written(lines, p, TopicLines(t, depth)) && EndsAt(lines, q, 2 * depth)
    ensures q <= |lines|
    ensures ParseItemsFrom(lines, p) == [EraseIds(t)] + ParseItemsFrom(lines, q)
    decreases t, 0
  {
    var texts := NoteTexts(t);
    var kids := ForestLines(t.children, depth + 1);
    TopicScan(lines, p, q, t, depth);
    ItemStep(lines, p, 2 * depth, TitleBody(t), q, kids, texts);
    ForestLinesEmpty(t.children, depth + 1);
    if kids != [] {
      ParseForest(t.children, depth + 1);
    }
    ItemOfTopic(t, kids, |lines|);
  }

  /** `_parse_md_items` gives back, up to identifiers, the ready sibling
      topics whose lines it reads. */
  lemma {:induction false} ParseForest(ts: seq<Topic>, depth: nat)
    requires ForestReady(ts)
    ensures ParseItems(ForestLines(ts, depth)) == EraseAll(ts)
    decreases ts, 1
  {
    var lines := ForestLines(ts, depth);
    WrittenWhole(lines);
    ForestItems(lines, 0, |lines|, ts, depth);
    AppendEmpty(EraseAll(ts));
  }

  /** The lines of the first of several siblings, then those of the rest. */
  lemma {:induction false} ForestAt(lines: seq<string>, p: nat, m: nat, q: nat, ts: seq<Topic>, depth: nat)
    requires ts != [] && m == p + |TopicLines(ts[0], depth)| && q == p + |ForestLines(ts, depth)|
    requires Written(lines, p, ForestLines(ts, depth))
    ensures q == m + |ForestLines(ts[1..], depth)|
    ensures Written(lines, p, TopicLines(ts[0], depth)) && Written(lines, m, ForestLines(ts[1..], depth))
  {
    ForestLinesCons(ts, depth);
    WrittenSplit(lines, p, TopicLines(ts[0], depth), ForestLines(ts[1..], depth));
  }

  /** The lines of ready siblings end an item at their depth where they
      begin, and they end where an item at that depth ends. */
  lemma {:induction false} RestEnds(lines: seq<string>, m: nat, q: nat, ts: seq<Topic>, depth: nat)
    requires q == m + |ForestLines(ts, depth)|
    requires ForestReady(ts) && Written(lines, m, ForestLines(ts, depth)) && EndsAt(lines, q, 2 * depth)
    ensures EndsAt(lines, m, 2 * depth)
  {
    ForestLinesEmpty(ts, depth);
    if ts != [] {
      SiblingEnds(lines, m, ts, depth);
    }
  }

  lemma {:induction false} ForestItems(lines: seq<string>, p: nat, q: nat, ts: seq<Topic>, depth: nat)
    requires q == p + |ForestLines(ts, depth)|
    requires ForestReady(ts) && Written(lines, p, ForestLines(ts, depth)) && EndsAt(lines, q, 2 * depth)
    ensures q <= |lines|
    ensures ParseItemsFrom(lines, p) == EraseAll(ts) + ParseItemsFrom(lines, q)
    decreases ts, 0
  {
    if ts == [] {
      assert ForestLines(ts, depth) == [];
      AppendEmpty(ParseItemsFrom(lines, p));
    } else {
      var m := p + |TopicLines(ts[0], depth)|;
      ForestAt(lines, p, m, q, ts, depth);
      ForestReadyCons(ts);
      RestEnds(lines, m, q, ts[1..], depth);
      TopicItem(lines, p, m, ts[0], depth);
      ForestItems(lines, m, q, ts[1..], depth);
      ConsChain(ParseItemsFrom(lines, p), EraseIds(ts[0]), EraseAll(ts[1..]), ParseItemsFrom(lines, m),
                ParseItemsFrom(lines, q), EraseAll(ts));
    }
  }
}
