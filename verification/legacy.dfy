/**
 * The XMind 8 package codec over element trees: `_parse_legacy_topic` and
 * `parse_legacy` read topics and sheets from the tree ElementTree builds for
 * content.xml; `_topic_to_legacy_xml` and `create_legacy` build the tree it
 * writes. XML text, the archive and the clock are not part of this model.
 */
module Legacy {
  import opened Wrappers
  import opened Model
  import opened Seqs

  /** An ElementTree element: its qualified tag (`{namespace}local`), its
      attributes, its text (the empty string standing for None) and its child
      elements in document order. */
  datatype Elem = Elem(tag: string, attrs: map<string, string>, text: string, children: seq<Elem>)

  const ContentNs: string := "urn:xmind:xmap:xmlns:content:2.0"
  const XlinkNs: string := "http://www.w3.org/1999/xlink"

  /** `_ctag`: a local name in the content namespace. */
  function CTag(local: string): string {
    "{" + ContentNs + "}" + local
  }

  /** The qualified name of the `xlink:href` attribute. */
  const Href: string := "{" + XlinkNs + "}href"

  /** `elem.get(key, '')`. */
  function Attr(e: Elem, key: string): string {
    if key in e.attrs then e.attrs[key] else ""
  }

  /** `find`: the first child with the tag. */
  function Find(es: seq<Elem>, tag: string): (r: Option<Elem>)
    ensures r.Some? ==> r.value in es && r.value.tag == tag
    ensures r.None? <==> forall i :: 0 <= i < |es| ==> es[i].tag != tag
  {
    if es == [] then None
    else if es[0].tag == tag then Some(es[0])
    else Find(es[1..], tag)
  }

  /** `findall`: the children with the tag, in document order. */
  function FindAll(es: seq<Elem>, tag: string): (r: seq<Elem>)
    ensures |r| <= |es|
    ensures forall i :: 0 <= i < |r| ==> r[i] in es && r[i].tag == tag
  {
    if es == [] then []
    else if es[0].tag == tag then [es[0]] + FindAll(es[1..], tag)
    else FindAll(es[1..], tag)
  }

  /** The text of a found element, or "" when there is none. */
  function TextOf(o: Option<Elem>): string {
    if o.Some? then o.value.text else ""
  }

  /** The non-empty texts of the elements, in order (`if lbl.text:`). */
  function NonEmptyTexts(es: seq<Elem>): (r: seq<string>)
    ensures |r| <= |es| && forall i :: 0 <= i < |r| ==> r[i] != ""
  {
    if es == [] then []
    else
      var last := es[|es| - 1].text;
      NonEmptyTexts(es[..|es| - 1]) + (if last != "" then [last] else [])
  }

  /** The non-empty values of an attribute, in order (`if mid:`). */
  function NonEmptyAttrs(es: seq<Elem>, key: string): (r: seq<string>)
    ensures |r| <= |es| && forall i :: 0 <= i < |r| ==> r[i] != ""
  {
    if es == [] then []
    else
      var last := Attr(es[|es| - 1], key);
      NonEmptyAttrs(es[..|es| - 1], key) + (if last != "" then [last] else [])
  }

  /** A `topics` group is read only when its `type` is `attached`. */
  predicate Attached(g: Elem) {
    "type" in g.attrs && g.attrs["type"] == "attached"
  }

  // ---------------------------------------------------------------------
  // Decoding
  // ---------------------------------------------------------------------

  /** `_parse_legacy_topic`, as a value. */
  function ParseLegacyTopic(e: Elem): Topic
    decreases e, 2
  {
    var notes := Find(e.children, CTag("notes"));
    var labels := Find(e.children, CTag("labels"));
    var mrefs := Find(e.children, CTag("marker-refs"));
    NewTopic(TextOf(Find(e.children, CTag("title"))), Attr(e, "id")).(
      notes := if notes.Some? then TextOf(Find(notes.value.children, CTag("plain"))) else "",
      labels := if labels.Some? then NonEmptyTexts(FindAll(labels.value.children, CTag("label"))) else [],
      link := Attr(e, Href),
      markers := if mrefs.Some? then NonEmptyAttrs(FindAll(mrefs.value.children, CTag("marker-ref")), "marker-id") else [],
      children := ChildTopics(e))
  }

  /** The topics of every attached group under `children`, group by group. */
  function ChildTopics(e: Elem): seq<Topic>
    decreases e, 1
  {
    var c := Find(e.children, CTag("children"));
    if c.None? then []
    else GroupTopics(c.value, FindAll(c.value.children, CTag("topics")))
  }

  function GroupTopics(c: Elem, groups: seq<Elem>): seq<Topic>
    requires forall i :: 0 <= i < |groups| ==> groups[i] in c.children
    decreases c, 0, |groups|
  {
    if groups == [] then []
    else
      var g := groups[|groups| - 1];
      GroupTopics(c, groups[..|groups| - 1]) + (if Attached(g) then TopicsIn(c, g) else [])
  }

  /** The topics parsed from the `topic` children of one group. */
  function TopicsIn(c: Elem, g: Elem): (r: seq<Topic>)
    requires g in c.children
    ensures |r| == |FindAll(g.children, CTag("topic"))|
    decreases c, 0, 0
  {
    var ts := FindAll(g.children, CTag("topic"));
    seq(|ts|, i requires 0 <= i < |ts| => ParseLegacyTopic(ts[i]))
  }

  /** One `sheet` element: an empty or missing title becomes "Sheet 1", an
      empty or missing id a generated one; the first `topic` child, if any,
      is the root. */
  function ParseLegacySheet(e: Elem): (s: Sheet)
    ensures TextOf(Find(e.children, CTag("title"))) == "" ==> s.title == "Sheet 1"
    ensures TextOf(Find(e.children, CTag("title"))) != "" ==> s.title == TextOf(Find(e.children, CTag("title")))
    ensures s.id == (if Attr(e, "id") != "" then Attr(e, "id") else FreshId)
    ensures s.root.Some? <==> Find(e.children, CTag("topic")).Some?
  {
    var title := TextOf(Find(e.children, CTag("title")));
    var topic := Find(e.children, CTag("topic"));
    NewSheet(if title != "" then title else "Sheet 1", Attr(e, "id")).(
      root := if topic.Some? then Some(ParseLegacyTopic(topic.value)) else None)
  }

  /** `parse_legacy` after `ET.fromstring`: one sheet per `sheet` child of the
      root element, in order. */
  function ParseLegacy(root: Elem): (sheets: seq<Sheet>)
    ensures |sheets| == |FindAll(root.children, CTag("sheet"))|
  {
    var es := FindAll(root.children, CTag("sheet"));
    seq(|es|, i requires 0 <= i < |es| => ParseLegacySheet(es[i]))
  }

  // ---------------------------------------------------------------------
  // Encoding
  // ---------------------------------------------------------------------

  /** An element without attributes, text or children beyond those given. */
  function Node(local: string, text: string, children: seq<Elem>): Elem {
    Elem(CTag(local), map[], text, children)
  }

  function LabelElems(labels: seq<string>): (r: seq<Elem>)
    ensures |r| == |labels| && forall i :: 0 <= i < |labels| ==> r[i] == Node("label", labels[i], [])
  {
    seq(|labels|, i requires 0 <= i < |labels| => Node("label", labels[i], []))
  }

  function MarkerElems(markers: seq<string>): (r: seq<Elem>)
    ensures |r| == |markers|
    ensures forall i :: 0 <= i < |markers| ==> r[i] == Elem(CTag("marker-ref"), map["marker-id" := markers[i]], "", [])
  {
    seq(|markers|, i requires 0 <= i < |markers| => Elem(CTag("marker-ref"), map["marker-id" := markers[i]], "", []))
  }

  /** `_topic_to_legacy_xml`: a `topic` element carrying `id` and `timestamp`
      (and `xlink:href` when there is a link), whose children are `title`
      always, then `notes/plain`, `labels/label`, `marker-refs/marker-ref` and
      `children/topics[type=attached]`, each only when non-empty. Every
      element gets the same timestamp `stamp`. */
  function TopicToLegacy(t: Topic, stamp: string): (e: Elem)
    ensures e.tag == CTag("topic")
    ensures Attr(e, "id") == t.id && Attr(e, Href) == t.link
    decreases t, 1
  {
    Elem(CTag("topic"),
         map["id" := t.id, "timestamp" := stamp] + (if t.link != "" then map[Href := t.link] else map[]),
         "",
         [Node("title", t.title, [])] + NotesPart(t) + LabelsPart(t) + MarkersPart(t) + ChildrenPart(t, stamp))
  }

  function AttachedGroup(ts: seq<Topic>, stamp: string): (g: Elem)
    ensures Attached(g)
    decreases ts
  {
    Elem(CTag("topics"), map["type" := "attached"], "",
         seq(|ts|, i requires 0 <= i < |ts| => TopicToLegacy(ts[i], stamp)))
  }

  /** One `sheet` element of `create_legacy`: the root topic (when there is
      one) comes before the title. */
  function SheetToLegacy(s: Sheet, stamp: string): Elem {
    Elem(CTag("sheet"), map["id" := s.id, "timestamp" := stamp], "",
         (if s.root.Some? then [TopicToLegacy(s.root.value, stamp)] else []) + [Node("title", s.title, [])])
  }

  /** The root element `create_legacy` writes to content.xml. */
  function LegacyContent(sheets: seq<Sheet>, stamp: string): (root: Elem)
    ensures root.tag == CTag("xmap-content") && Attr(root, "version") == "2.0"
    ensures |root.children| == |sheets|
    ensures forall i :: 0 <= i < |sheets| ==> root.children[i] == SheetToLegacy(sheets[i], stamp)
  {
    Elem(CTag("xmap-content"), map["version" := "2.0"], "",
         seq(|sheets|, i requires 0 <= i < |sheets| => SheetToLegacy(sheets[i], stamp)))
  }

  /** META-INF/manifest.xml as `create_legacy` writes it. */
  const LegacyManifest: string :=
    "<?xml version=\"1.0\" encoding=\"UTF-8\" standalone=\"no\"?>\n"
    + "<manifest xmlns=\"urn:xmind:xmap:xmlns:manifest:1.0\">\n"
    + "  <file-entry full-path=\"content.xml\" media-type=\"text/xml\"/>\n"
    + "  <file-entry full-path=\"META-INF/\" media-type=\"\"/>\n"
    + "  <file-entry full-path=\"META-INF/manifest.xml\" media-type=\"text/xml\"/>\n"
    + "</manifest>"

  // ---------------------------------------------------------------------
  // Round trip
  // ---------------------------------------------------------------------

  /** No element of `es` has the tag. */
  predicate NoTag(es: seq<Elem>, tag: string) {
    forall i :: 0 <= i < |es| ==> es[i].tag != tag
  }

  lemma NoTagConcat(a: seq<Elem>, b: seq<Elem>, tag: string)
    requires NoTag(a, tag) && NoTag(b, tag)
    ensures NoTag(a + b, tag)
  {
  }

  lemma {:induction false} FindSkip(a: seq<Elem>, b: seq<Elem>, tag: string)
    requires NoTag(a, tag)
    ensures Find(a + b, tag) == Find(b, tag)
    decreases |a|
  {
    if a == [] {
      assert a + b == b;
    } else {
      assert (a + b)[0] == a[0];
      assert (a + b)[1..] == a[1..] + b;
      FindSkip(a[1..], b, tag);
    }
  }

  /** `find` on children whose first part, `e`, holds at most one element
      with the tag. */
  lemma FindEntry(e: seq<Elem>, tag: string, b: seq<Elem>)
    requires NoTag(b, tag)
    requires |e| <= 1 && forall i :: 0 <= i < |e| ==> e[i].tag == tag
    ensures Find(e + b, tag) == if e != [] then Some(e[0]) else None
  {
    if e != [] {
      assert (e + b)[0] == e[0];
    } else {
      assert e + b == b;
    }
  }

  lemma {:induction false} FindAllEvery(es: seq<Elem>, tag: string)
    requires forall i :: 0 <= i < |es| ==> es[i].tag == tag
    ensures FindAll(es, tag) == es
    decreases |es|
  {
    if es != [] {
      FindAllEvery(es[1..], tag);
      assert [es[0]] + es[1..] == es;
    }
  }

  /** `find` returns the first child with the tag: any child with the tag
      and none before it is the one found. */
  lemma FindFirst(es: seq<Elem>, k: nat, tag: string)
    requires k < |es| && es[k].tag == tag && NoTag(es[..k], tag)
    ensures Find(es, tag) == Some(es[k])
  {
    assert es == es[..k] + es[k..];
    FindSkip(es[..k], es[k..], tag);
    assert es[k..][0] == es[k];
  }

  /** `findall` distributes over concatenation: every child with the tag is
      returned, in document order. */
  lemma {:induction false} FindAllConcat(a: seq<Elem>, b: seq<Elem>, tag: string)
    ensures FindAll(a + b, tag) == FindAll(a, tag) + FindAll(b, tag)
    decreases |a|
  {
    if a == [] {
      assert a + b == b;
    } else {
      assert (a + b)[0] == a[0];
      assert (a + b)[1..] == a[1..] + b;
      FindAllConcat(a[1..], b, tag);
    }
  }

  /** One more child adds itself to `findall` exactly when it has the tag. */
  lemma FindAllSnoc(es: seq<Elem>, e: Elem, tag: string)
    ensures FindAll(es + [e], tag) == FindAll(es, tag) + (if e.tag == tag then [e] else [])
  {
    FindAllConcat(es, [e], tag);
    assert [e][1..] == [];
  }

  /** The label filter distributes over concatenation. */
  lemma {:induction false} TextsConcat(a: seq<Elem>, b: seq<Elem>)
    ensures NonEmptyTexts(a + b) == NonEmptyTexts(a) + NonEmptyTexts(b)
    decreases |b|
  {
    if b == [] {
      assert a + b == a;
    } else {
      var init, last, ab := b[..|b| - 1], b[|b| - 1], a + b;
      assert ab[..|ab| - 1] == a + init;
      assert ab[|ab| - 1] == last;
      var tail := if last.text != "" then [last.text] else [];
      assert NonEmptyTexts(ab) == NonEmptyTexts(a + init) + tail;
      assert NonEmptyTexts(b) == NonEmptyTexts(init) + tail;
      TextsConcat(a, init);
      Assoc(NonEmptyTexts(a), NonEmptyTexts(init), tail);
    }
  }

  /** A label with empty text is skipped, wherever it stands. */
  lemma TextsSkipEmpty(a: seq<Elem>, x: Elem, b: seq<Elem>)
    requires x.text == ""
    ensures NonEmptyTexts(a + [x] + b) == NonEmptyTexts(a + b)
  {
    TextsConcat(a + [x], b);
    TextsConcat(a, [x]);
    TextsConcat(a, b);
    assert [x][..0] == [];
  }

  /** A label with non-empty text is kept, in its place. */
  lemma TextsKeep(a: seq<Elem>, x: Elem, b: seq<Elem>)
    requires x.text != ""
    ensures NonEmptyTexts(a + [x] + b) == NonEmptyTexts(a) + [x.text] + NonEmptyTexts(b)
  {
    TextsConcat(a + [x], b);
    TextsConcat(a, [x]);
    assert [x][..0] == [];
  }

  /** The marker filter distributes over concatenation. */
  lemma {:induction false} AttrsConcat(a: seq<Elem>, b: seq<Elem>, key: string)
    ensures NonEmptyAttrs(a + b, key) == NonEmptyAttrs(a, key) + NonEmptyAttrs(b, key)
    decreases |b|
  {
    if b == [] {
      assert a + b == a;
    } else {
      var init, last, ab := b[..|b| - 1], b[|b| - 1], a + b;
      assert ab[..|ab| - 1] == a + init;
      assert ab[|ab| - 1] == last;
      var tail := if Attr(last, key) != "" then [Attr(last, key)] else [];
      assert NonEmptyAttrs(ab, key) == NonEmptyAttrs(a + init, key) + tail;
      assert NonEmptyAttrs(b, key) == NonEmptyAttrs(init, key) + tail;
      AttrsConcat(a, init, key);
      Assoc(NonEmptyAttrs(a, key), NonEmptyAttrs(init, key), tail);
    }
  }

  /** A marker reference with an empty or missing id is skipped, wherever it
      stands. */
  lemma AttrsSkipEmpty(a: seq<Elem>, x: Elem, b: seq<Elem>, key: string)
    requires Attr(x, key) == ""
    ensures NonEmptyAttrs(a + [x] + b, key) == NonEmptyAttrs(a + b, key)
  {
    AttrsConcat(a + [x], b, key);
    AttrsConcat(a, [x], key);
    AttrsConcat(a, b, key);
    assert [x][..0] == [];
  }

  /** A marker reference with a non-empty id is kept, in its place. */
  lemma AttrsKeep(a: seq<Elem>, x: Elem, b: seq<Elem>, key: string)
    requires Attr(x, key) != ""
    ensures NonEmptyAttrs(a + [x] + b, key) == NonEmptyAttrs(a, key) + [Attr(x, key)] + NonEmptyAttrs(b, key)
  {
    AttrsConcat(a + [x], b, key);
    AttrsConcat(a, [x], key);
    assert [x][..0] == [];
  }

  /** Tags in the content namespace differ when their local names do. */
  lemma CTagInjective(a: string, b: string)
    requires a != b
    ensures CTag(a) != CTag(b)
  {
    var p := "{" + ContentNs + "}";
    assert CTag(a)[|p|..] == a;
    assert CTag(b)[|p|..] == b;
  }

  lemma {:induction false} LabelTexts(labels: seq<string>)
    requires forall i :: 0 <= i < |labels| ==> labels[i] != ""
    ensures NonEmptyTexts(LabelElems(labels)) == labels
    decreases |labels|
  {
    if labels != [] {
      var init := labels[..|labels| - 1];
      LabelTexts(init);
      assert LabelElems(labels)[..|labels| - 1] == LabelElems(init);
      assert init + [labels[|labels| - 1]] == labels;
    }
  }

  lemma LabelsRoundTrip(labels: seq<string>)
    requires forall i :: 0 <= i < |labels| ==> labels[i] != ""
    ensures NonEmptyTexts(FindAll(LabelElems(labels), CTag("label"))) == labels
  {
    FindAllEvery(LabelElems(labels), CTag("label"));
    LabelTexts(labels);
  }

  lemma {:induction false} MarkerIdAttrs(markers: seq<string>)
    requires forall i :: 0 <= i < |markers| ==> markers[i] != ""
    ensures NonEmptyAttrs(MarkerElems(markers), "marker-id") == markers
    decreases |markers|
  {
    if markers != [] {
      var init := markers[..|markers| - 1];
      MarkerIdAttrs(init);
      assert MarkerElems(markers)[..|markers| - 1] == MarkerElems(init);
      assert init + [markers[|markers| - 1]] == markers;
    }
  }

  lemma MarkersRoundTrip(markers: seq<string>)
    requires forall i :: 0 <= i < |markers| ==> markers[i] != ""
    ensures NonEmptyAttrs(FindAll(MarkerElems(markers), CTag("marker-ref")), "marker-id") == markers
  {
    FindAllEvery(MarkerElems(markers), CTag("marker-ref"));
    MarkerIdAttrs(markers);
  }

  /** What the legacy encoding preserves: non-empty identifiers, labels and
      marker ids (empty ones are generated afresh or skipped on reading). */
  ghost predicate LegacyReady(t: Topic)
    decreases t
  {
    && t.id != ""
    && (forall i :: 0 <= i < |t.labels| ==> t.labels[i] != "")
    && (forall i :: 0 <= i < |t.markers| ==> t.markers[i] != "")
    && forall i :: 0 <= i < |t.children| ==> LegacyReady(t.children[i])
  }

  function NotesPart(t: Topic): (r: seq<Elem>)
    ensures |r| <= 1 && forall i :: 0 <= i < |r| ==> r[i].tag == CTag("notes")
  {
    if t.notes != "" then [Node("notes", "", [Node("plain", t.notes, [])])] else []
  }

  function LabelsPart(t: Topic): (r: seq<Elem>)
    ensures |r| <= 1 && forall i :: 0 <= i < |r| ==> r[i].tag == CTag("labels")
  {
    if t.labels != [] then [Node("labels", "", LabelElems(t.labels))] else []
  }

  function MarkersPart(t: Topic): (r: seq<Elem>)
    ensures |r| <= 1 && forall i :: 0 <= i < |r| ==> r[i].tag == CTag("marker-refs")
  {
    if t.markers != [] then [Node("marker-refs", "", MarkerElems(t.markers))] else []
  }

  function ChildrenPart(t: Topic, stamp: string): (r: seq<Elem>)
    ensures |r| <= 1 && forall i :: 0 <= i < |r| ==> r[i].tag == CTag("children")
    decreases t, 0
  {
    if t.children != [] then [Node("children", "", [AttachedGroup(t.children, stamp)])] else []
  }

  /** `find` on children made of parts: those before the part `e` lack the
      tag, `e` holds at most one element and it has the tag, those after it
      lack the tag. */
  lemma FindPart(pre: seq<Elem>, e: seq<Elem>, post: seq<Elem>, tag: string)
    requires NoTag(pre, tag) && NoTag(post, tag)
    requires |e| <= 1 && forall i :: 0 <= i < |e| ==> e[i].tag == tag
    ensures Find(pre + e + post, tag) == if e != [] then Some(e[0]) else None
  {
    Assoc(pre, e, post);
    FindSkip(pre, e + post, tag);
    FindEntry(e, tag, post);
  }

  lemma LegacyFindTitle(t: Topic, stamp: string)
    ensures Find(TopicToLegacy(t, stamp).children, CTag("title")) == Some(Node("title", t.title, []))
  {
    var rest := NotesPart(t) + LabelsPart(t) + MarkersPart(t) + ChildrenPart(t, stamp);
    Assoc([Node("title", t.title, [])], NotesPart(t), LabelsPart(t));
    Assoc([Node("title", t.title, [])], NotesPart(t) + LabelsPart(t), MarkersPart(t));
    Assoc([Node("title", t.title, [])], NotesPart(t) + LabelsPart(t) + MarkersPart(t), ChildrenPart(t, stamp));
    assert ([Node("title", t.title, [])] + rest)[0] == Node("title", t.title, []);
  }

  lemma LegacyFindNotes(t: Topic, stamp: string)
    ensures Find(TopicToLegacy(t, stamp).children, CTag("notes")) ==
              if t.notes != "" then Some(NotesPart(t)[0]) else None
  {
    CTagInjective("title", "notes");
    NotesAfterTitle(t, stamp);
    FindPart([Node("title", t.title, [])], NotesPart(t), LabelsPart(t) + MarkersPart(t) + ChildrenPart(t, stamp), CTag("notes"));
  }

  lemma NotesAfterTitle(t: Topic, stamp: string)
    ensures TopicToLegacy(t, stamp).children
         == [Node("title", t.title, [])] + NotesPart(t) + (LabelsPart(t) + MarkersPart(t) + ChildrenPart(t, stamp))
    ensures CTag("labels") != CTag("notes") && CTag("marker-refs") != CTag("notes") && CTag("children") != CTag("notes")
    ensures NoTag(LabelsPart(t) + MarkersPart(t) + ChildrenPart(t, stamp), CTag("notes"))
  {
    var title := [Node("title", t.title, [])];
    CTagInjective("labels", "notes");
    CTagInjective("marker-refs", "notes");
    CTagInjective("children", "notes");
    Assoc(title + NotesPart(t), LabelsPart(t), MarkersPart(t));
    Assoc(title + NotesPart(t), LabelsPart(t) + MarkersPart(t), ChildrenPart(t, stamp));
  }

  lemma LegacyFindLabels(t: Topic, stamp: string)
    ensures Find(TopicToLegacy(t, stamp).children, CTag("labels")) ==
              if t.labels != [] then Some(LabelsPart(t)[0]) else None
  {
    var pre := [Node("title", t.title, [])] + NotesPart(t);
    CTagInjective("title", "labels");
    CTagInjective("notes", "labels");
    CTagInjective("marker-refs", "labels");
    CTagInjective("children", "labels");
    Assoc(pre + LabelsPart(t), MarkersPart(t), ChildrenPart(t, stamp));
    FindPart(pre, LabelsPart(t), MarkersPart(t) + ChildrenPart(t, stamp), CTag("labels"));
  }

  lemma LegacyFindMarkers(t: Topic, stamp: string)
    ensures Find(TopicToLegacy(t, stamp).children, CTag("marker-refs")) ==
              if t.markers != [] then Some(MarkersPart(t)[0]) else None
  {
    var pre := [Node("title", t.title, [])] + NotesPart(t) + LabelsPart(t);
    CTagInjective("title", "marker-refs");
    CTagInjective("notes", "marker-refs");
    CTagInjective("labels", "marker-refs");
    CTagInjective("children", "marker-refs");
    FindPart(pre, MarkersPart(t), ChildrenPart(t, stamp), CTag("marker-refs"));
  }

  lemma LegacyFindChildren(t: Topic, stamp: string)
    ensures Find(TopicToLegacy(t, stamp).children, CTag("children")) ==
              if t.children != [] then Some(ChildrenPart(t, stamp)[0]) else None
  {
    var pre := [Node("title", t.title, [])] + NotesPart(t) + LabelsPart(t) + MarkersPart(t);
    CTagInjective("title", "children");
    CTagInjective("notes", "children");
    CTagInjective("labels", "children");
    CTagInjective("marker-refs", "children");
    FindPart(pre, ChildrenPart(t, stamp), [], CTag("children"));
    AppendEmpty(pre + ChildrenPart(t, stamp));
  }

  /** `_parse_legacy_topic(_topic_to_legacy_xml(t))` gives `t` back, whatever
      the timestamp. */
  lemma {:induction false} LegacyTopicRoundTrip(t: Topic, stamp: string)
    requires LegacyReady(t)
    ensures ParseLegacyTopic(TopicToLegacy(t, stamp)) == t
    decreases t, 2
  {
    LegacyFindTitle(t, stamp);
    LegacyFindNotes(t, stamp);
    LegacyFindLabels(t, stamp);
    LegacyFindMarkers(t, stamp);
    if t.labels != [] {
      LabelsRoundTrip(t.labels);
    }
    if t.markers != [] {
      MarkersRoundTrip(t.markers);
    }
    LegacyChildrenRoundTrip(t, stamp);
  }

  lemma {:induction false} LegacyChildrenRoundTrip(t: Topic, stamp: string)
    requires LegacyReady(t)
    ensures ChildTopics(TopicToLegacy(t, stamp)) == t.children
    decreases t, 1
  {
    LegacyFindChildren(t, stamp);
    if t.children != [] {
      var g := AttachedGroup(t.children, stamp);
      SingleGroup(TopicToLegacy(t, stamp), Node("children", "", [g]));
      AttachedGroupRoundTrip(t, stamp);
    }
  }

  /** A `children` element holding one attached group yields that group's
      topics. */
  lemma SingleGroup(e: Elem, c: Elem)
    requires Find(e.children, CTag("children")) == Some(c)
    requires |c.children| == 1 && c.children[0].tag == CTag("topics") && Attached(c.children[0])
    ensures ChildTopics(e) == TopicsIn(c, c.children[0])
  {
    var g := c.children[0];
    FindAllEvery(c.children, CTag("topics"));
    assert GroupTopics(c, [g]) == GroupTopics(c, []) + TopicsIn(c, g);
  }

  lemma {:induction false} AttachedGroupRoundTrip(t: Topic, stamp: string)
    requires LegacyReady(t) && t.children != []
    ensures TopicsIn(Node("children", "", [AttachedGroup(t.children, stamp)]), AttachedGroup(t.children, stamp)) == t.children
    decreases t, 0
  {
    var g := AttachedGroup(t.children, stamp);
    FindAllEvery(g.children, CTag("topic"));
    forall i | 0 <= i < |t.children| ensures ParseLegacyTopic(g.children[i]) == t.children[i] {
      LegacyTopicRoundTrip(t.children[i], stamp);
    }
  }

  /** What a legacy sheet keeps: a non-empty id and title, and a root topic
      that is `LegacyReady`. */
  ghost predicate LegacySheetReady(s: Sheet) {
    s.id != "" && s.title != "" && (s.root.Some? ==> LegacyReady(s.root.value))
  }

  lemma LegacySheetRoundTrip(s: Sheet, stamp: string)
    requires LegacySheetReady(s)
    ensures ParseLegacySheet(SheetToLegacy(s, stamp)) == s
  {
    var e := SheetToLegacy(s, stamp);
    var r := if s.root.Some? then [TopicToLegacy(s.root.value, stamp)] else [];
    var title := Node("title", s.title, []);
    assert e.children == r + [title];
    CTagInjective("topic", "title");
    FindSkip(r, [title], CTag("title"));
    assert e.children == r + [title] + [];
    FindEntry(r, CTag("topic"), [title]);
    if s.root.Some? {
      LegacyTopicRoundTrip(s.root.value, stamp);
    }
  }

  /** `parse_legacy` reads back the tree `create_legacy` builds. */
  lemma LegacyRoundTrip(sheets: seq<Sheet>, stamp: string)
    requires forall i :: 0 <= i < |sheets| ==> LegacySheetReady(sheets[i])
    ensures ParseLegacy(LegacyContent(sheets, stamp)) == sheets
  {
    var root := LegacyContent(sheets, stamp);
    FindAllEvery(root.children, CTag("sheet"));
    forall i | 0 <= i < |sheets| ensures ParseLegacySheet(root.children[i]) == sheets[i] {
      LegacySheetRoundTrip(sheets[i], stamp);
    }
  }

  /** Child topics come from attached groups only: a group of any other type
      contributes nothing, wherever it stands. */
  lemma {:induction false} UnattachedGroupIgnored(c: Elem, a: seq<Elem>, g: Elem, b: seq<Elem>)
    requires forall i :: 0 <= i < |a| ==> a[i] in c.children
    requires forall i :: 0 <= i < |b| ==> b[i] in c.children
    requires g in c.children && !Attached(g)
    ensures GroupTopics(c, a + [g] + b) == GroupTopics(c, a + b)
    decreases |b|
  {
    if b == [] {
      assert (a + [g] + b)[..|a + [g] + b| - 1] == a;
      assert a + b == a;
    } else {
      var b' := b[..|b| - 1];
      UnattachedGroupIgnored(c, a, g, b');
      assert (a + [g] + b)[..|a + [g] + b| - 1] == a + [g] + b';
      assert (a + b)[..|a + b| - 1] == a + b';
      assert (a + [g] + b)[|a + [g] + b| - 1] == (a + b)[|a + b| - 1];
    }
  }

  // ---------------------------------------------------------------------
  // The parsing loops
  // ---------------------------------------------------------------------

  /** `_parse_legacy_topic` as the source runs it: the topic is built, then its
      fields are set and its labels, markers and children appended one by one. */
  method ParseLegacyTopicLoop(e: Elem) returns (t: Topic)
    ensures t == ParseLegacyTopic(e)
    decreases e, 1
  {
    t := NewTopic(TextOf(Find(e.children, CTag("title"))), Attr(e, "id"));
    var notesElem := Find(e.children, CTag("notes"));
    if notesElem.Some? {
      var plain := Find(notesElem.value.children, CTag("plain"));
      if plain.Some? && plain.value.text != "" {
        t := t.(notes := plain.value.text);
      }
    }
    var labelsElem := Find(e.children, CTag("labels"));
    if labelsElem.Some? {
      var labels := LabelsLoop(FindAll(labelsElem.value.children, CTag("label")));
      t := t.(labels := labels);
    }
    var href := Attr(e, Href);
    if href != "" {
      t := t.(link := href);
    }
    var mrefs := Find(e.children, CTag("marker-refs"));
    if mrefs.Some? {
      var markers := MarkersLoop(FindAll(mrefs.value.children, CTag("marker-ref")));
      t := t.(markers := markers);
    }
    var children := ChildrenLoop(e);
    t := t.(children := children);
  }

  /** The label loop: the non-empty texts, appended in order. */
  method LabelsLoop(ls: seq<Elem>) returns (labels: seq<string>)
    ensures labels == NonEmptyTexts(ls)
  {
    labels := [];
    var k := 0;
    while k < |ls|
      invariant 0 <= k <= |ls|
      invariant labels == NonEmptyTexts(ls[..k])
    {
      assert ls[..k + 1][..k] == ls[..k];
      if ls[k].text != "" {
        labels := labels + [ls[k].text];
      }
      k := k + 1;
    }
    assert ls[..k] == ls;
  }

  /** The marker loop: the non-empty `marker-id`s, appended in order. */
  method MarkersLoop(ms: seq<Elem>) returns (markers: seq<string>)
    ensures markers == NonEmptyAttrs(ms, "marker-id")
  {
    markers := [];
    var k := 0;
    while k < |ms|
      invariant 0 <= k <= |ms|
      invariant markers == NonEmptyAttrs(ms[..k], "marker-id")
    {
      assert ms[..k + 1][..k] == ms[..k];
      var mid := Attr(ms[k], "marker-id");
      if mid != "" {
        markers := markers + [mid];
      }
      k := k + 1;
    }
    assert ms[..k] == ms;
  }

  /** The children loop: every `topics` group in turn, and within an attached
      one every `topic` element in turn. */
  method ChildrenLoop(e: Elem) returns (children: seq<Topic>)
    ensures children == ChildTopics(e)
    decreases e, 0
  {
    children := [];
    var childrenElem := Find(e.children, CTag("children"));
    if childrenElem.None? {
      return;
    }
    var c := childrenElem.value;
    var groups := FindAll(c.children, CTag("topics"));
    var gi := 0;
    while gi < |groups|
      invariant 0 <= gi <= |groups|
      invariant children == GroupTopics(c, groups[..gi])
    {
      var g := groups[gi];
      assert groups[..gi + 1][..gi] == groups[..gi];
      if "type" in g.attrs && g.attrs["type"] == "attached" {
        var topics := GroupLoop(c, g);
        children := children + topics;
      }
      gi := gi + 1;
    }
    assert groups[..gi] == groups;
  }

  /** The topics of one attached group, parsed one by one. */
  method GroupLoop(c: Elem, g: Elem) returns (topics: seq<Topic>)
    requires g in c.children
    ensures topics == TopicsIn(c, g)
    decreases c, 0, 0
  {
    var ts := FindAll(g.children, CTag("topic"));
    ghost var all := TopicsIn(c, g);
    topics := [];
    var k := 0;
    while k < |ts|
      invariant 0 <= k <= |ts|
      invariant topics == all[..k]
    {
      var child := ParseLegacyTopicLoop(ts[k]);
      assert child == all[k];
      TakeSnoc(all, k);
      topics := topics + [child];
      k := k + 1;
    }
    assert all[..k] == all;
  }

  /** `parse_legacy` as the source runs it: one sheet appended per `sheet`
      element. */
  method ParseLegacyLoop(root: Elem) returns (sheets: seq<Sheet>)
    ensures sheets == ParseLegacy(root)
  {
    var es := FindAll(root.children, CTag("sheet"));
    ghost var all := ParseLegacy(root);
    sheets := [];
    var k := 0;
    while k < |es|
      invariant 0 <= k <= |es| == |all|
      invariant sheets == all[..k]
    {
      var sheet := ParseLegacySheetOnce(es[k]);
      TakeSnoc(all, k);
      sheets := sheets + [sheet];
      k := k + 1;
    }
  }

  /** The body of the sheet loop of `parse_legacy`. */
  method ParseLegacySheetOnce(e: Elem) returns (sheet: Sheet)
    ensures sheet == ParseLegacySheet(e)
  {
    var titleElem := Find(e.children, CTag("title"));
    var title := if titleElem.Some? && titleElem.value.text != "" then titleElem.value.text else "Sheet 1";
    sheet := NewSheet(title, Attr(e, "id"));
    var topicElem := Find(e.children, CTag("topic"));
    if topicElem.Some? {
      var topic := ParseLegacyTopicLoop(topicElem.value);
      sheet := sheet.(root := Some(topic));
    }
  }
}
