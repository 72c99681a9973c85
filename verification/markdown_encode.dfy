/**
 * The outline encoder: `sheets_to_markdown`, `_format_meta_block` and
 * `_topic_to_md` render a document as an indented bullet outline. The
 * functions follow the source's own construction (lists of parts joined with
 * newlines); the line views `TopicLines`, `SheetLines` and `DocLines` give the
 * same text as one flat list of lines, which is what the decoder reads.
 */
module MarkdownEncode {
  import opened Wrappers
  import opened Text
  import opened Seqs
  import opened Model

  /** Each line of `lines` behind the same prefix. */
  function Prefixed(prefix: string, lines: seq<string>): (r: seq<string>)
    ensures |r| == |lines|
  {
    seq(|lines|, i requires 0 <= i < |lines| => prefix + lines[i])
  }

  /** The lines of `_format_meta_block`: labels, link and markers, then one
      quoted line per line of the notes. */
  function MetaLines(t: Topic): seq<string> {
    (if t.labels != [] then ["> Labels: " + Join(t.labels, ", ")] else [])
    + (if t.link != "" then ["> Link: " + t.link] else [])
    + (if t.markers != [] then ["> Markers: " + Join(t.markers, ", ")] else [])
    + (if t.notes != "" then Prefixed("> ", SplitLines(t.notes)) else [])
  }

  /** `_format_meta_block`: the root topic's metadata as a block quote. */
  function FormatMetaBlock(t: Topic): string {
    Join(MetaLines(t), "\n")
  }

  /** The inline tags of `_topic_to_md`, in the order labels, link, markers. */
  function InlineTags(t: Topic): seq<string> {
    (if t.labels != [] then ["{labels: " + Join(t.labels, ", ") + "}"] else [])
    + (if t.link != "" then ["{link: " + t.link + "}"] else [])
    + (if t.markers != [] then ["{markers: " + Join(t.markers, ", ") + "}"] else [])
  }

  /** The bullet line of a topic at `depth`: two spaces per level, `- `, the
      title, then the inline tags each behind two spaces. */
  function TitleLine(t: Topic, depth: nat): string {
    var tags := InlineTags(t);
    Spaces(2 * depth) + "- " + t.title + (if tags != [] then "  " + Join(tags, "  ") else "")
  }

  /** The quoted note lines of a topic at `depth`, two spaces deeper than its
      bullet. */
  function NoteLines(t: Topic, depth: nat): seq<string> {
    if t.notes != "" then Prefixed(Spaces(2 * depth) + "  > ", SplitLines(t.notes)) else []
  }

  /** `_topic_to_md`: the bullet line, the note lines and each child's own
      text, joined with newlines. */
  function TopicToMd(t: Topic, depth: nat): string
    decreases t
  {
    Join([TitleLine(t, depth)] + NoteLines(t, depth)
         + seq(|t.children|, i requires 0 <= i < |t.children| => TopicToMd(t.children[i], depth + 1)), "\n")
  }

  /** The part between two sheets. */
  const SheetSeparator: string := "\n---\n"

  /** The part heading a sheet. */
  function SheetHeading(title: string): string {
    "# Sheet: " + title + "\n"
  }

  /** The part heading a root topic. */
  function RootHeading(title: string): string {
    "\n## " + title + "\n"
  }

  /** The text of each of the root's children, at depth 0. */
  function ChildMds(ts: seq<Topic>): (r: seq<string>)
    ensures |r| == |ts|
  {
    seq(|ts|, i requires 0 <= i < |ts| => TopicToMd(ts[i], 0))
  }

  /** `parts` after appending a root topic: its heading, its metadata block
      when that is not empty, a blank part and each child's text. */
  function AddRoot(parts: seq<string>, root: Topic): seq<string> {
    var meta := FormatMetaBlock(root);
    var headed := parts + [RootHeading(root.title)];
    (if meta != "" then headed + [meta] else headed) + [""] + ChildMds(root.children)
  }

  /** `parts` after appending one sheet; every sheet but the first starts
      with the `---` separator. */
  function AddSheet(parts: seq<string>, s: Sheet, first: bool): seq<string> {
    var headed := (if first then parts else parts + [SheetSeparator]) + [SheetHeading(s.title)];
    if s.root.Some? then AddRoot(headed, s.root.value) else headed
  }

  /** The parts of a document, sheet by sheet. */
  function DocParts(sheets: seq<Sheet>): seq<string> {
    if sheets == [] then []
    else AddSheet(DocParts(sheets[..|sheets| - 1]), sheets[|sheets| - 1], |sheets| == 1)
  }

  /** `sheets_to_markdown`. */
  function SheetsToMarkdown(sheets: seq<Sheet>): string {
    Join(DocParts(sheets), "\n")
  }

  /** `sheets_to_markdown` as the source runs it, appending to `parts`. */
  method SheetsToMarkdownLoop(sheets: seq<Sheet>) returns (md: string)
    ensures md == SheetsToMarkdown(sheets)
  {
    var parts: seq<string> := [];
    var i := 0;
    while i < |sheets|
      invariant 0 <= i <= |sheets|
      invariant parts == DocParts(sheets[..i])
    {
      assert sheets[..i + 1][..i] == sheets[..i];
      var sheet := sheets[i];
      if i > 0 {
        parts := parts + [SheetSeparator];
      }
      parts := parts + [SheetHeading(sheet.title)];
      if sheet.root.Some? {
        parts := AppendRoot(parts, sheet.root.value);
      }
      i := i + 1;
    }
    assert sheets[..i] == sheets;
    md := Join(parts, "\n");
  }

  /** The root topic's part of a turn of the loop over sheets. */
  method AppendRoot(parts: seq<string>, root: Topic) returns (r: seq<string>)
    ensures r == AddRoot(parts, root)
  {
    r := parts + [RootHeading(root.title)];
    var meta := FormatMetaBlock(root);
    if meta != "" {
      r := r + [meta];
    }
    r := r + [""];
    r := AppendChildren(r, root.children);
  }

  /** The loop over the root's children. */
  method AppendChildren(parts: seq<string>, ts: seq<Topic>) returns (r: seq<string>)
    ensures r == parts + ChildMds(ts)
  {
    ghost var mds := ChildMds(ts);
    r := parts;
    var k := 0;
    while k < |ts|
      invariant 0 <= k <= |ts|
      invariant r == parts + mds[..k]
    {
      var md := TopicToMd(ts[k], 0);
      assert md == mds[k];
      SnocSlice(parts, mds, k);
      r := r + [md];
      k := k + 1;
    }
    assert mds[..k] == mds;
  }

  // ---------------------------------------------------------------------
  // The line view
  // ---------------------------------------------------------------------

  /** The lists of `xss` one after the other. */
  function Flatten(xss: seq<seq<string>>): seq<string> {
    if xss == [] then [] else xss[0] + Flatten(xss[1..])
  }

  /** The lines of `_topic_to_md(t, depth)`: the bullet line, the note lines,
      then the lines of every child one level deeper. */
  function TopicLines(t: Topic, depth: nat): (r: seq<string>)
    ensures |r| >= 1 && r[0] == TitleLine(t, depth)
    decreases t
  {
    [TitleLine(t, depth)] + NoteLines(t, depth) + ForestLines(t.children, depth + 1)
  }

  /** The lines of each of the sibling topics `ts` at `depth`. */
  function ForestParts(ts: seq<Topic>, depth: nat): (r: seq<seq<string>>)
    ensures |r| == |ts| && AllNonEmpty(r)
    decreases ts, 0
  {
    seq(|ts|, i requires 0 <= i < |ts| => TopicLines(ts[i], depth))
  }

  /** The lines of sibling topics at `depth`, one after the other. */
  function ForestLines(ts: seq<Topic>, depth: nat): seq<string>
    decreases ts, 1
  {
    Flatten(ForestParts(ts, depth))
  }

  /** The lines of a root topic: its heading between blank lines, its
      metadata block, a blank line and its children at depth 0. */
  function RootLines(root: Topic): seq<string> {
    ["", "## " + root.title, ""] + MetaLines(root) + [""] + ForestLines(root.children, 0)
  }

  /** The lines of one sheet. */
  function SheetLines(s: Sheet): (r: seq<string>)
    ensures |r| >= 2 && r[0] == "# Sheet: " + s.title
  {
    ["# Sheet: " + s.title, ""] + (if s.root.Some? then RootLines(s.root.value) else [])
  }

  /** The lines of a document: sheets separated by a `---` line with a blank
      line on each side. */
  function DocLines(sheets: seq<Sheet>): seq<string> {
    if sheets == [] then []
    else if |sheets| == 1 then SheetLines(sheets[0])
    else DocLines(sheets[..|sheets| - 1]) + ["", "---", ""] + SheetLines(sheets[|sheets| - 1])
  }

  // ---------------------------------------------------------------------
  // Parts and lines agree
  // ---------------------------------------------------------------------

  function JoinEach(xss: seq<seq<string>>): (r: seq<string>)
    ensures |r| == |xss|
  {
    seq(|xss|, i requires 0 <= i < |xss| => Join(xss[i], "\n"))
  }

  /** Joining a part that is itself a join of lines is joining the lines. */
  lemma JoinSplice(a: seq<string>, l: seq<string>, f: seq<string>)
    requires |l| >= 1
    ensures Join(a + [Join(l, "\n")] + f, "\n") == Join(a + l + f, "\n")
  {
    var j := Join(l, "\n");
    if a == [] {
      assert a + [j] + f == [j] + f;
      assert a + l + f == l + f;
      if f == [] {
        assert [j] + f == [j];
        assert l + f == l;
      } else {
        JoinCons(j, f, "\n");
        JoinAppend(l, f, "\n");
      }
    } else if f == [] {
      assert a + [j] + f == a + [j];
      assert a + l + f == a + l;
      JoinAppend(a, [j], "\n");
      JoinAppend(a, l, "\n");
    } else {
      assert a + [j] + f == a + ([j] + f);
      assert a + l + f == a + (l + f);
      JoinAppend(a, [j] + f, "\n");
      JoinCons(j, f, "\n");
      JoinAppend(a, l + f, "\n");
      JoinAppend(l, f, "\n");
    }
  }

  /** Joining the joins of non-empty line lists is joining the flattened
      lines. */
  lemma {:induction false} JoinFlat(a: seq<string>, xss: seq<seq<string>>)
    requires forall i :: 0 <= i < |xss| ==> |xss[i]| >= 1
    ensures Join(a + JoinEach(xss), "\n") == Join(a + Flatten(xss), "\n")
    decreases |xss|
  {
    if xss != [] {
      var a' := a + [Join(xss[0], "\n")];
      assert a + JoinEach(xss) == a' + JoinEach(xss[1..]);
      JoinFlat(a', xss[1..]);
      JoinSplice(a, xss[0], Flatten(xss[1..]));
      assert a + xss[0] + Flatten(xss[1..]) == a + Flatten(xss);
    } else {
      assert a + JoinEach(xss) == a;
      assert a + Flatten(xss) == a;
    }
  }

  lemma {:induction false} FlattenAppend(xss: seq<seq<string>>, yss: seq<seq<string>>)
    ensures Flatten(xss + yss) == Flatten(xss) + Flatten(yss)
    decreases |xss|
  {
    if xss == [] {
      assert xss + yss == yss;
    } else {
      FlattenAppend(xss[1..], yss);
      assert (xss + yss)[1..] == xss[1..] + yss;
    }
  }

  /** `_topic_to_md(t, depth)` is the join of `TopicLines(t, depth)`. */
  lemma {:induction false} TopicToMdLines(t: Topic, depth: nat)
    ensures TopicToMd(t, depth) == Join(TopicLines(t, depth), "\n")
    decreases t
  {
    var ls := ForestParts(t.children, depth + 1);
    var mds := seq(|t.children|, i requires 0 <= i < |t.children| => TopicToMd(t.children[i], depth + 1));
    forall i | 0 <= i < |t.children| ensures mds[i] == Join(ls[i], "\n") {
      TopicToMdLines(t.children[i], depth + 1);
    }
    assert mds == JoinEach(ls);
    JoinFlat([TitleLine(t, depth)] + NoteLines(t, depth), ls);
  }

  lemma Regroup<T>(a: seq<T>, b: seq<T>, c: seq<T>, d: seq<T>, e: seq<T>)
    ensures a + b + c + d + e == a + (b + c + d + e)
  {
  }

  predicate AllNonEmpty(xss: seq<seq<string>>) {
    forall i :: 0 <= i < |xss| ==> |xss[i]| >= 1
  }

  lemma JoinEachAppend(xss: seq<seq<string>>, yss: seq<seq<string>>)
    ensures JoinEach(xss + yss) == JoinEach(xss) + JoinEach(yss)
  {
  }

  /** The parts of a root topic, each as the lines it joins. */
  function RootPartLines(root: Topic): (r: seq<seq<string>>)
    ensures AllNonEmpty(r)
  {
    RootHeadLines(root) + ForestParts(root.children, 0)
  }

  /** The heading, metadata and blank parts of a root topic, as lines. */
  function RootHeadLines(root: Topic): (r: seq<seq<string>>)
    ensures AllNonEmpty(r)
  {
    [["", "## " + root.title, ""]] + (if MetaLines(root) != [] then [MetaLines(root)] else []) + [[""]]
  }

  /** The parts of a sheet, each as the lines it joins. */
  function SheetPartLines(s: Sheet, first: bool): (r: seq<seq<string>>)
    ensures AllNonEmpty(r)
  {
    (if first then [] else [["", "---", ""]])
    + [["# Sheet: " + s.title, ""]]
    + (if s.root.Some? then RootPartLines(s.root.value) else [])
  }

  /** The parts of a document, each as the lines it joins. */
  function DocPartLines(sheets: seq<Sheet>): (r: seq<seq<string>>)
    ensures AllNonEmpty(r)
  {
    if sheets == [] then []
    else DocPartLines(sheets[..|sheets| - 1]) + SheetPartLines(sheets[|sheets| - 1], |sheets| == 1)
  }

  lemma MetaBlockEmpty(t: Topic)
    ensures FormatMetaBlock(t) == "" <==> MetaLines(t) == []
  {
    var m := MetaLines(t);
    if m != [] {
      assert m[0][0] == '>';
      if |m| == 1 {
        assert Join(m, "\n") == m[0];
      } else {
        JoinCons(m[0], m[1..], "\n");
        assert [m[0]] + m[1..] == m;
      }
    }
  }

  /** The children's texts are the joins of their lines. */
  lemma AddChildrenLines(pl: seq<seq<string>>, ts: seq<Topic>)
    ensures JoinEach(pl) + ChildMds(ts) == JoinEach(pl + ForestParts(ts, 0))
  {
    var mds, cls := ChildMds(ts), ForestParts(ts, 0);
    forall j | 0 <= j < |ts|
      ensures mds[j] == Join(cls[j], "\n")
    {
      TopicToMdLines(ts[j], 0);
    }
    JoinEachConcat(pl, mds, cls);
  }

  lemma JoinEachConcat(pl: seq<seq<string>>, mds: seq<string>, cls: seq<seq<string>>)
    requires |mds| == |cls|
    requires forall j :: 0 <= j < |cls| ==> mds[j] == Join(cls[j], "\n")
    ensures JoinEach(pl) + mds == JoinEach(pl + cls)
  {
    var r := JoinEach(pl + cls);
    assert r[..|pl|] == JoinEach(pl);
    forall j | 0 <= j < |mds|
      ensures r[|pl| + j] == mds[j]
    {
      assert (pl + cls)[|pl| + j] == cls[j];
    }
    ConcatPointwise(r, JoinEach(pl), mds);
  }

  lemma RootHeadJoins(pl: seq<seq<string>>, root: Topic)
    ensures var meta := FormatMetaBlock(root);
            var headed := JoinEach(pl) + [RootHeading(root.title)];
            JoinEach(pl + RootHeadLines(root)) == (if meta != "" then headed + [meta] else headed) + [""]
  {
    var heading := ["", "## " + root.title, ""];
    JoinCons("", ["## " + root.title, ""], "\n");
    JoinCons("## " + root.title, [""], "\n");
    assert Join(heading, "\n") == RootHeading(root.title);
    assert Join([""], "\n") == "";
    MetaBlockEmpty(root);
    if MetaLines(root) != [] {
      JoinEachAppend(pl, [heading, MetaLines(root), [""]]);
    } else {
      JoinEachAppend(pl, [heading, [""]]);
    }
  }

  lemma AddRootLines(pl: seq<seq<string>>, root: Topic)
    ensures AddRoot(JoinEach(pl), root) == JoinEach(pl + RootPartLines(root))
  {
    var pl' := pl + RootHeadLines(root);
    RootHeadJoins(pl, root);
    AddChildrenLines(pl', root.children);
    Assoc(pl, RootHeadLines(root), ForestParts(root.children, 0));
  }

  /** The separator and heading parts of a sheet, as lines. */
  function SheetHeadLines(s: Sheet, first: bool): seq<seq<string>> {
    (if first then [] else [["", "---", ""]]) + [["# Sheet: " + s.title, ""]]
  }

  lemma SheetHeadJoins(pl: seq<seq<string>>, s: Sheet, first: bool)
    ensures JoinEach(pl + SheetHeadLines(s, first))
         == (if first then JoinEach(pl) else JoinEach(pl) + [SheetSeparator]) + [SheetHeading(s.title)]
  {
    var heading := ["# Sheet: " + s.title, ""];
    assert Join(["", "---", ""], "\n") == SheetSeparator;
    JoinCons("# Sheet: " + s.title, [""], "\n");
    assert Join(heading, "\n") == SheetHeading(s.title);
    if first {
      JoinEachAppend(pl, [heading]);
    } else {
      JoinEachAppend(pl, [["", "---", ""], heading]);
    }
  }

  lemma AddSheetLines(pl: seq<seq<string>>, s: Sheet, first: bool)
    ensures AddSheet(JoinEach(pl), s, first) == JoinEach(pl + SheetPartLines(s, first))
  {
    var pl' := pl + SheetHeadLines(s, first);
    SheetHeadJoins(pl, s, first);
    if s.root.Some? {
      AddRootLines(pl', s.root.value);
      Assoc(pl, SheetHeadLines(s, first), RootPartLines(s.root.value));
    } else {
      AppendEmpty(SheetHeadLines(s, first));
    }
  }

  lemma FlattenRoot(root: Topic)
    ensures Flatten(RootPartLines(root)) == RootLines(root)
  {
    var heading := ["", "## " + root.title, ""];
    var meta: seq<seq<string>> := if MetaLines(root) != [] then [MetaLines(root)] else [];
    var kids := ForestParts(root.children, 0);
    FlattenAppend([heading] + meta + [[""]], kids);
    FlattenAppend([heading] + meta, [[""]]);
    FlattenAppend([heading], meta);
    assert Flatten([heading]) == heading;
    assert Flatten([[""]]) == [""];
    assert Flatten(meta) == MetaLines(root);
  }

  lemma FlattenSheet(s: Sheet, first: bool)
    ensures Flatten(SheetPartLines(s, first)) == (if first then [] else ["", "---", ""]) + SheetLines(s)
  {
    var sep: seq<seq<string>> := if first then [] else [["", "---", ""]];
    var heading := ["# Sheet: " + s.title, ""];
    var rest := if s.root.Some? then RootPartLines(s.root.value) else [];
    var restLines := if s.root.Some? then RootLines(s.root.value) else [];
    assert SheetPartLines(s, first) == sep + [heading] + rest;
    FlattenAppend(sep + [heading], rest);
    FlattenAppend(sep, [heading]);
    assert Flatten([heading]) == heading;
    assert Flatten(sep) == (if first then [] else ["", "---", ""]);
    if s.root.Some? {
      FlattenRoot(s.root.value);
    } else {
      assert Flatten(rest) == [];
    }
    Regroup(Flatten(sep), heading, restLines, [], []);
    assert heading + restLines == SheetLines(s);
  }

  lemma {:induction false} DocPartLinesSound(sheets: seq<Sheet>)
    ensures DocParts(sheets) == JoinEach(DocPartLines(sheets))
    ensures Flatten(DocPartLines(sheets)) == DocLines(sheets)
    decreases |sheets|
  {
    if sheets != [] {
      var init := sheets[..|sheets| - 1];
      var last := sheets[|sheets| - 1];
      var first := |sheets| == 1;
      DocPartLinesSound(init);
      AddSheetLines(DocPartLines(init), last, first);
      FlattenSheet(last, first);
      FlattenAppend(DocPartLines(init), SheetPartLines(last, first));
      if first {
        assert init == [];
      }
    }
  }

  /** `sheets_to_markdown` is the join of the document's lines. */
  lemma SheetsToMarkdownLines(sheets: seq<Sheet>)
    ensures SheetsToMarkdown(sheets) == Join(DocLines(sheets), "\n")
  {
    DocPartLinesSound(sheets);
    JoinFlat([], DocPartLines(sheets));
    assert [] + JoinEach(DocPartLines(sheets)) == JoinEach(DocPartLines(sheets));
    assert [] + Flatten(DocPartLines(sheets)) == Flatten(DocPartLines(sheets));
  }
}
