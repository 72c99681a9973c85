/**
 * Inline metadata survives the outline: `_parse_title_meta` applied to the
 * text `_topic_to_md` writes after a bullet gives back the title, labels,
 * link and markers, as long as the title carries no `{`, and no value holds
 * a brace or a comma or needs trimming.
 */
module OutlineTags {
  import opened Wrappers
  import opened Text
  import opened Seqs
  import opened Model
  import opened MarkdownEncode
  import opened MarkdownDecode

  /** A label or marker that an inline tag or a `Labels:` line carries
      unchanged through the comma split. */
  predicate ValueReady(v: string) {
    v != [] && Trimmed(v) && ',' !in v && '{' !in v && '}' !in v && '\n' !in v
  }

  predicate ValuesReady(vs: seq<string>) {
    forall i :: 0 <= i < |vs| ==> ValueReady(vs[i])
  }

  /** A link that an inline tag carries unchanged. */
  predicate LinkReady(link: string) {
    Trimmed(link) && '{' !in link && '}' !in link && '\n' !in link
  }

  /** What the bullet line of a topic needs to be read back: a non-empty,
      trimmed, one-line title without `{`, and tag values as above. */
  predicate InlineReady(t: Topic) {
    && t.title != [] && Trimmed(t.title) && '{' !in t.title && '\n' !in t.title
    && ValuesReady(t.labels) && LinkReady(t.link) && ValuesReady(t.markers)
  }

  /** The text of a bullet line after `- `: the title and the inline tags. */
  function TitleBody(t: Topic): string {
    var tags := InlineTags(t);
    t.title + (if tags != [] then "  " + Join(tags, "  ") else "")
  }

  lemma {:induction false} TitleLineBody(t: Topic, depth: nat)
    ensures TitleLine(t, depth) == Spaces(2 * depth) + "- " + TitleBody(t)
  {
    var tags := InlineTags(t);
    Assoc(Spaces(2 * depth) + "- ", t.title, if tags != [] then "  " + Join(tags, "  ") else "");
  }

  // ---------------------------------------------------------------------
  // Comma lists
  // ---------------------------------------------------------------------

  /** A string without `c` has no one-character match of `c` before its end,
      whatever follows it. */
  lemma {:induction false} CharFree(x: string, y: string, c: char)
    requires c !in x
    ensures forall p :: 0 <= p < |x| ==> !MatchAt(x + y, p, [c])
  {
    forall p | 0 <= p < |x|
      ensures !MatchAt(x + y, p, [c])
    {
      assert (x + y)[p..][..1] == [x[p]];
    }
  }

  lemma {:induction false} KeepStrippedCons(x: string, rest: seq<string>)
    ensures KeepStripped([x] + rest) == (if Strip(x) != "" then [Strip(x)] else []) + KeepStripped(rest)
  {
    assert ([x] + rest)[1..] == rest;
  }

  /** A string without commas is one piece. */
  lemma {:induction false} SplitOne(x: string)
    requires ',' !in x
    ensures Split(x, ",") == [x]
  {
    CharFree(x, "", ',');
    assert x + "" == x;
    SplitNoMatch(x, ",");
  }

  /** The first comma of `x + "," + z` is the one after `x`. */
  lemma {:induction false} SplitFirst(x: string, z: string)
    requires ',' !in x
    ensures Split(x + "," + z, ",") == [x] + Split(z, ",")
  {
    CharFree(x, "," + z, ',');
    assert x + "," + z == x + ("," + z);
    SplitAtFirst(x, z, ",");
  }

  lemma {:induction false} JoinCommaCons(sp: string, vs: seq<string>)
    requires |vs| >= 2
    ensures sp + Join(vs, ", ") == (sp + vs[0]) + "," + (" " + Join(vs[1..], ", "))
  {
    var j := Join(vs[1..], ", ");
    assert Join(vs, ", ") == vs[0] + ", " + j;
    assert ", " == "," + " ";
    Regroup6(sp, vs[0], ",", " ", j);
  }

  lemma {:induction false} ValuesReadyTail(vs: seq<string>)
    requires |vs| >= 1 && ValuesReady(vs)
    ensures ValuesReady(vs[1..]) && ValueReady(vs[0])
  {
    forall i | 0 <= i < |vs[1..]| ensures ValueReady(vs[1..][i]) {
      assert vs[1..][i] == vs[i + 1];
    }
  }

  /** One value behind optional padding is read back stripped. */
  lemma {:induction false} StripValue(sp: string, v: string)
    requires (sp == "" || sp == " ") && ValueReady(v)
    ensures Strip(sp + v) == v && ',' !in sp + v
  {
    StripPadded(sp, v, "");
    assert sp + v + "" == sp + v;
  }

  /** `[v.strip() for v in (sp + ", ".join(vs)).split(',') if v.strip()]`
      gives `vs` back. */
  lemma {:induction false} SplitJoined(sp: string, vs: seq<string>)
    requires sp == "" || sp == " "
    requires |vs| >= 1 && ValuesReady(vs)
    ensures KeepStripped(Split(sp + Join(vs, ", "), ",")) == vs
    decreases |vs|
  {
    ValuesReadyTail(vs);
    StripValue(sp, vs[0]);
    if |vs| == 1 {
      SplitOne(sp + vs[0]);
      KeepStrippedCons(sp + vs[0], []);
    } else {
      var rest := Split(" " + Join(vs[1..], ", "), ",");
      JoinCommaCons(sp, vs);
      SplitFirst(sp + vs[0], " " + Join(vs[1..], ", "));
      SplitJoined(" ", vs[1..]);
      KeepStrippedCons(sp + vs[0], rest);
      assert [vs[0]] + vs[1..] == vs;
    }
  }

  /** The join of trimmed, non-empty values is trimmed. */
  lemma {:induction false} JoinedTrimmed(vs: seq<string>)
    requires |vs| >= 1 && ValuesReady(vs)
    ensures var j := Join(vs, ", "); j != [] && Trimmed(j) && '}' !in j && '{' !in j && '\n' !in j
    decreases |vs|
  {
    assert ValueReady(vs[0]);
    if |vs| > 1 {
      assert ValuesReady(vs[1..]) by {
        forall i | 0 <= i < |vs[1..]| ensures ValueReady(vs[1..][i]) {
          assert vs[1..][i] == vs[i + 1];
        }
      }
      JoinedTrimmed(vs[1..]);
      assert Join(vs, ", ") == vs[0] + ", " + Join(vs[1..], ", ");
    }
  }

  /** A comma list written with `, ` is read back. */
  lemma {:induction false} SplitListJoined(sp: string, vs: seq<string>)
    requires sp == "" || sp == " "
    requires |vs| >= 1 && ValuesReady(vs)
    ensures SplitList(sp + Join(vs, ", ")) == vs
  {
    SplitJoined(sp, vs);
  }

  // ---------------------------------------------------------------------
  // Searching for a tag
  // ---------------------------------------------------------------------

  /** `{key: value}` as `_topic_to_md` writes it. */
  function TagText(key: string, val: string): string {
    TagOpen(key) + TagRest(val)
  }

  /** What follows the opening of a tag: a space, the value, the brace. */
  function TagRest(val: string): string {
    " " + val + "}"
  }

  /** A tag behind the two spaces that separate it from what precedes it. */
  function Part(key: string, val: string): string {
    "  " + TagText(key, val)
  }

  /** The part for a tag that is written only when `present`. */
  function OptPart(present: bool, key: string, val: string): string {
    if present then Part(key, val) else ""
  }

  /** No tag of `open` starts in `[p, q)`. */
  predicate NoMatchIn(t: string, open: string, p: nat, q: nat) {
    forall i :: p <= i < q ==> !MatchAt(t, i, open)
  }

  /** The search moves past positions where no tag starts. */
  lemma {:induction false} SearchSkips(t: string, open: string, p: nat, q: nat)
    requires p <= q <= |t| && NoMatchIn(t, open, p, q)
    ensures SearchTag(t, open, p) == SearchTag(t, open, q)
    decreases q - p
  {
    if p < q {
      assert !MatchAt(t, p, open);
      SearchSkips(t, open, p + 1, q);
    }
  }

  lemma {:induction false} NoMatchJoin(t: string, open: string, p: nat, q: nat, r: nat)
    requires p <= q <= r && NoMatchIn(t, open, p, q) && NoMatchIn(t, open, q, r)
    ensures NoMatchIn(t, open, p, r)
  {
  }

  lemma {:induction false} NoOpenAt(t: string, open: string, p: nat)
    requires p < |t| && |open| >= 1 && open[0] == '{' && t[p] != '{'
    ensures !MatchAt(t, p, open)
  {
    if p + |open| <= |t| {
      assert t[p..][..|open|][0] == t[p];
    }
  }

  /** Positions without `{` start no tag. */
  lemma {:induction false} BraceFree(t: string, open: string, p: nat, q: nat)
    requires q <= |t| && |open| >= 1 && open[0] == '{'
    requires forall i :: p <= i < q ==> t[i] != '{'
    ensures NoMatchIn(t, open, p, q)
  {
    forall i | p <= i < q
      ensures !MatchAt(t, i, open)
    {
      NoOpenAt(t, open, i);
    }
  }

  /** `TagOpen` of two different keys disagree within both lengths. */
  lemma {:induction false} KeysDiffer(key: string, key2: string)
    requires key in TagKeys && key2 in TagKeys && key != key2
    ensures var j := if key == "markers" || key2 == "markers" then 1 else 2;
      j < |TagOpen(key)| && j < |TagOpen(key2)| && TagOpen(key)[j] != TagOpen(key2)[j]
  {
  }

  /** Past its two spaces and its `{`, a part holds no `{`. */
  lemma {:induction false} PartNoBrace(t: string, p: nat, key: string, val: string)
    requires key in TagKeys && '{' !in val
    requires p + |Part(key, val)| <= |t| && t[p..p + |Part(key, val)|] == Part(key, val)
    ensures forall i :: p + 3 <= i < p + |Part(key, val)| ==> t[i] != '{'
  {
    var pt := Part(key, val);
    var tail := key + ": " + val + "}";
    assert '{' !in tail;
    assert pt == "  {" + tail;
    forall i | p + 3 <= i < p + |pt|
      ensures t[i] != '{'
    {
      assert t[i] == t[p..p + |pt|][i - p];
      assert pt[i - p] == tail[i - p - 3];
    }
  }

  /** A part opens with two spaces and the opening of its own key, which is
      not the opening of any other key. */
  lemma {:induction false} PartHead(t: string, p: nat, key: string, val: string, key2: string)
    requires key in TagKeys && key2 in TagKeys && key != key2
    requires p + |Part(key, val)| <= |t| && t[p..p + |Part(key, val)|] == Part(key, val)
    ensures t[p] == ' ' && t[p + 1] == ' ' && !MatchAt(t, p + 2, TagOpen(key2))
  {
    var pt := Part(key, val);
    var open := TagOpen(key2);
    assert t[p] == pt[0] && t[p + 1] == pt[1];
    KeysDiffer(key, key2);
    var j := if key == "markers" || key2 == "markers" then 1 else 2;
    assert pt == "  " + TagOpen(key) + (" " + val + "}");
    assert t[p + 2 + j] == pt[2 + j] == TagOpen(key)[j];
    if p + 2 + |open| <= |t| {
      assert t[p + 2..][..|open|][j] == t[p + 2 + j];
    }
  }

  /** A tag of another key starts no tag of `key2`. */
  lemma {:induction false} PartNoMatch(t: string, p: nat, key: string, val: string, key2: string)
    requires key in TagKeys && key2 in TagKeys && key != key2 && '{' !in val
    requires p + |Part(key, val)| <= |t| && t[p..p + |Part(key, val)|] == Part(key, val)
    ensures NoMatchIn(t, TagOpen(key2), p, p + |Part(key, val)|)
  {
    var open := TagOpen(key2);
    PartHead(t, p, key, val, key2);
    BraceFree(t, open, p, p + 2);
    PartNoBrace(t, p, key, val);
    BraceFree(t, open, p + 3, p + |Part(key, val)|);
  }

  /** The first `}` of `x + "}" + y` when `x` has none. */
  lemma {:induction false} IndexOfBrace(x: string, y: string)
    requires '}' !in x
    ensures IndexOf(x + "}" + y, '}') == |x|
  {
    var s := x + "}" + y;
    assert s[|x|] == '}';
    IndexOfFirst(s, '}', |x|);
    IndexOfShape(s, '}');
    assert forall k :: 0 <= k < |x| ==> s[k] == x[k];
  }

  /** The first occurrence is at or before any occurrence. */
  lemma {:induction false} IndexOfFirst(s: string, c: char, k: nat)
    requires k < |s| && s[k] == c
    ensures 0 <= IndexOf(s, c) <= k
  {
    if s[0] != c {
      IndexOfFirst(s[1..], c, k - 1);
    }
  }

  /** Where a tag is written, the closing brace follows its value. */
  lemma {:induction false} TagAtWritten(t: string, pre: string, open: string, val: string, post: string)
    requires t == pre + (open + TagRest(val)) + post && '}' !in val
    ensures TagAt(t, open, |pre|) == Some(|pre| + |open| + 1 + |val|)
  {
    var p := |pre|;
    Pieces(pre, open + TagRest(val), post);
    assert t[p..] == open + TagRest(val) + post;
    Pieces(open, TagRest(val), post);
    DropDrop(t, p, |open|);
    assert MatchAt(t, p, open);
    assert t[p + |open|..] == (" " + val) + "}" + post;
    IndexOfBrace(" " + val, post);
    assert IndexOf(t[p + |open|..], '}') == 1 + |val|;
  }

  /** Where a tag is written, its value follows the opening and a space. */
  lemma {:induction false} ValueWindow(t: string, pre: string, open: string, val: string, post: string)
    requires t == pre + (open + TagRest(val)) + post
    ensures |pre| + |open| + 1 + |val| < |t|
    ensures t[|pre| + |open|..|pre| + |open| + 1 + |val|] == " " + val
  {
    Regroup4(pre, open, " " + val, "}", post);
    Pieces(pre + open, " " + val, "}" + post);
  }

  /** The value between the opening and `}` is read back, stripped. */
  lemma {:induction false} TagValueSlice(t: string, pre: string, open: string, val: string)
    requires |pre| + |open| + 1 + |val| <= |t| && val != [] && Trimmed(val)
    requires t[|pre| + |open|..|pre| + |open| + 1 + |val|] == " " + val
    ensures TagValue(t, open, |pre|, |pre| + |open| + 1 + |val|) == val
  {
    var q := |pre| + |open|;
    var close := q + 1 + |val|;
    LeadingOne(val);
    SliceSlice(t, q, close, 1, close - q);
    StripTrimmed(val);
  }

  lemma {:induction false} LeadingOne(val: string)
    requires val != [] && !IsSpace(val[0])
    ensures LeadingSpaces(" " + val) == 1 && (" " + val)[1..] == val
  {
    assert (" " + val)[1..] == val;
  }

  lemma {:induction false} CutWritten(t: string, pre: string, open: string, val: string, post: string)
    requires t == pre + (open + TagRest(val)) + post
    ensures |pre| <= |pre| + |open| + 1 + |val| < |t|
    ensures Cut(t, |pre|, |pre| + |open| + 1 + |val|) == pre + post
  {
    Pieces(pre, open + TagRest(val), post);
  }

  /** A tag right after brace-free text is found there. */
  lemma {:induction false} TagSearched(t: string, pre: string, open: string, val: string, post: string)
    requires t == pre + (open + TagRest(val)) + post
    requires |open| >= 1 && open[0] == '{' && '{' !in pre && '}' !in val
    ensures SearchTag(t, open, 0) == Some((|pre|, |pre| + |open| + 1 + |val|))
  {
    Pieces(pre, open + TagRest(val), post);
    BraceFree(t, open, 0, |pre|);
    SearchSkips(t, open, 0, |pre|);
    TagAtWritten(t, pre, open, val, post);
  }

  /** The optional parts, one after the other. */
  function Parts(ps: seq<(bool, string, string)>): string {
    if ps == [] then "" else OptPart(ps[0].0, ps[0].1, ps[0].2) + Parts(ps[1..])
  }

  /** A part for another key than `key`, with a brace-free value. */
  predicate OtherKey(e: (bool, string, string), key: string) {
    e.1 in TagKeys && e.1 != key && '{' !in e.2
  }

  /** Parts whose keys differ from `key` hold no tag of it. */
  predicate OtherKeys(ps: seq<(bool, string, string)>, key: string) {
    forall i :: 0 <= i < |ps| ==> OtherKey(ps[i], key)
  }

  lemma {:induction false} PartsCons(ps: seq<(bool, string, string)>, key: string)
    requires ps != [] && OtherKeys(ps, key)
    ensures Parts(ps) == OptPart(ps[0].0, ps[0].1, ps[0].2) + Parts(ps[1..])
    ensures OtherKeys(ps[1..], key) && OtherKey(ps[0], key)
  {
    assert OtherKeys(ps[1..], key) by {
      forall i | 0 <= i < |ps[1..]| ensures ps[1..][i] == ps[i + 1] {}
    }
  }

  lemma {:induction false} OptPartNoMatch(t: string, p: nat, e: (bool, string, string), key: string)
    requires key in TagKeys && OtherKey(e, key)
    requires At(t, p, OptPart(e.0, e.1, e.2))
    ensures NoMatchIn(t, TagOpen(key), p, p + |OptPart(e.0, e.1, e.2)|)
  {
    if e.0 {
      PartNoMatch(t, p, e.1, e.2, key);
    }
  }

  lemma {:induction false} PartsNoMatch(t: string, p: nat, ps: seq<(bool, string, string)>, key: string)
    requires key in TagKeys && OtherKeys(ps, key)
    requires At(t, p, Parts(ps))
    ensures NoMatchIn(t, TagOpen(key), p, p + |Parts(ps)|)
    decreases |ps|
  {
    if ps != [] {
      var x := OptPart(ps[0].0, ps[0].1, ps[0].2);
      PartsCons(ps, key);
      AtSplit(t, p, x, Parts(ps[1..]));
      PartsNoMatch(t, p + |x|, ps[1..], key);
      OptPartNoMatch(t, p, ps[0], key);
      NoMatchJoin(t, TagOpen(key), p, p + |x|, p + |x| + |Parts(ps[1..])|);
    }
  }

  /** With no tag of `key` anywhere, the search finds nothing. */
  lemma {:induction false} NoTagOf(title: string, key: string, ps: seq<(bool, string, string)>)
    requires key in TagKeys && '{' !in title && OtherKeys(ps, key)
    ensures SearchTag(title + Parts(ps), TagOpen(key), 0).None?
  {
    var t := title + Parts(ps);
    var open := TagOpen(key);
    assert forall i :: 0 <= i < |title| ==> t[i] == title[i];
    BraceFree(t, open, 0, |title|);
    assert At(t, |title|, Parts(ps));
    PartsNoMatch(t, |title|, ps, key);
    NoMatchJoin(t, open, 0, |title|, |t|);
    SearchSkips(t, open, 0, |t|);
  }

  // ---------------------------------------------------------------------
  // The three passes of `_parse_title_meta`
  // ---------------------------------------------------------------------

  function LabelsVal(t: Topic): string {
    Join(t.labels, ", ")
  }

  function MarkersVal(t: Topic): string {
    Join(t.markers, ", ")
  }

  /** The tag list of a topic, one optional tag per key. */
  function OptTag(present: bool, key: string, val: string): seq<string> {
    if present then [TagText(key, val)] else []
  }

  lemma {:induction false} TagLiterals(v: string)
    ensures "{labels: " + v + "}" == TagText("labels", v)
    ensures "{link: " + v + "}" == TagText("link", v)
    ensures "{markers: " + v + "}" == TagText("markers", v)
  {
  }

  lemma {:induction false} InlineTagsParts(t: Topic)
    ensures InlineTags(t) == OptTag(t.labels != [], "labels", LabelsVal(t))
      + OptTag(t.link != "", "link", t.link) + OptTag(t.markers != [], "markers", MarkersVal(t))
  {
    TagLiterals(LabelsVal(t));
    TagLiterals(t.link);
    TagLiterals(MarkersVal(t));
  }

  /** Each tag behind two spaces. */
  function Cat(xs: seq<string>): string {
    if xs == [] then "" else "  " + xs[0] + Cat(xs[1..])
  }

  lemma {:induction false} CatJoin(xs: seq<string>)
    requires xs != []
    ensures "  " + Join(xs, "  ") == Cat(xs)
    decreases |xs|
  {
    if |xs| > 1 {
      CatJoin(xs[1..]);
      JoinCons(xs[0], xs[1..], "  ");
      assert [xs[0]] + xs[1..] == xs;
    } else {
      assert Cat(xs[1..]) == "";
    }
  }

  lemma {:induction false} CatAppend(xs: seq<string>, ys: seq<string>)
    ensures Cat(xs + ys) == Cat(xs) + Cat(ys)
    decreases |xs|
  {
    if xs == [] {
      assert xs + ys == ys;
    } else {
      CatAppend(xs[1..], ys);
      assert (xs + ys)[1..] == xs[1..] + ys;
    }
  }

  lemma {:induction false} CatOptTag(present: bool, key: string, val: string)
    ensures Cat(OptTag(present, key, val)) == OptPart(present, key, val)
  {
    if present {
      assert OptTag(present, key, val)[1..] == [];
    }
  }

  lemma {:induction false} TitleBodyCat(t: Topic)
    ensures TitleBody(t) == t.title + Cat(InlineTags(t))
  {
    if InlineTags(t) != [] {
      CatJoin(InlineTags(t));
    } else {
      AppendEmpty(t.title);
    }
  }

  /** The tags after the bullet's title, as parts. */
  lemma {:induction false} BodyParts(t: Topic)
    ensures TitleBody(t) == t.title
      + OptPart(t.labels != [], "labels", LabelsVal(t))
      + OptPart(t.link != "", "link", t.link)
      + OptPart(t.markers != [], "markers", MarkersVal(t))
  {
    var l := OptTag(t.labels != [], "labels", LabelsVal(t));
    var k := OptTag(t.link != "", "link", t.link);
    var m := OptTag(t.markers != [], "markers", MarkersVal(t));
    TitleBodyCat(t);
    InlineTagsParts(t);
    CatAppend(l + k, m);
    CatAppend(l, k);
    CatOptTag(t.labels != [], "labels", LabelsVal(t));
    CatOptTag(t.link != "", "link", t.link);
    CatOptTag(t.markers != [], "markers", MarkersVal(t));
    Assoc(t.title, Cat(l) + Cat(k), Cat(m));
    Assoc(t.title, Cat(l), Cat(k));
  }

  /** Two spaces where a tag was cut out. */
  function Pad(present: bool): string {
    if present then "  " else ""
  }

  lemma {:induction false} PadsSpace(a: bool, b: bool, c: bool)
    ensures AllSpace(Pad(a) + Pad(b) + Pad(c)) && '{' !in Pad(a) + Pad(b)
  {
  }

  /** The first tag of `open` in `t` runs from `s` to the brace at `c`, its
      value reads `val`, and cutting it out leaves `rest`. */
  predicate FoundAt(t: string, open: string, s: nat, c: nat, val: string, rest: string) {
    && s + |open| < c < |t|
    && SearchTag(t, open, 0) == Some((s, c))
    && TagValue(t, open, s, c) == val
    && Cut(t, s, c) == rest
  }

  /** A tag right after brace-free text is found there; its value is read
      back and cutting it out leaves the text around it. */
  lemma {:induction false} TagFound(t: string, pre: string, open: string, val: string, post: string)
    requires t == pre + (open + TagRest(val)) + post && |open| >= 1 && open[0] == '{'
    requires '{' !in pre && val != [] && Trimmed(val) && '}' !in val
    ensures FoundAt(t, open, |pre|, |pre| + |open| + 1 + |val|, val, pre + post)
  {
    TagSearched(t, pre, open, val, post);
    ValueWindow(t, pre, open, val, post);
    TagValueSlice(t, pre, open, val);
    CutWritten(t, pre, open, val, post);
  }

  /** What a pass does when its tag is found: the field of `key` is set from
      `val` and the text becomes `rest`. */
  predicate Applied(acc: TitleAcc, key: string, val: string, rest: string) {
    var r := TagStep(acc, key);
    && r.topic.labels == (if key == "labels" then SplitList(val) else acc.topic.labels)
    && r.topic.markers == (if key == "markers" then SplitList(val) else acc.topic.markers)
    && r.topic.link == (if key != "labels" && key != "markers" then val else acc.topic.link)
    && r.remaining == rest
  }

  /** A pass that finds its tag sets the field from the value and cuts the
      tag out. */
  lemma {:induction false} StepFound(acc: TitleAcc, key: string, s: nat, c: nat, val: string, rest: string)
    requires FoundAt(acc.remaining, TagOpen(key), s, c, val, rest)
    ensures Applied(acc, key, val, rest)
  {
  }

  /** A pass over text holding a tag of `key` right after brace-free text
      reads the value back and leaves the text around the tag. */
  lemma {:induction false} PassFound(acc: TitleAcc, key: string, pre: string, val: string, post: string)
    requires acc.remaining == pre + (TagOpen(key) + TagRest(val)) + post
    requires '{' !in pre && val != [] && Trimmed(val) && '}' !in val
    ensures Applied(acc, key, val, pre + post)
  {
    TagFound(acc.remaining, pre, TagOpen(key), val, post);
    StepFound(acc, key, |pre|, |pre| + |TagOpen(key)| + 1 + |val|, val, pre + post);
  }

  /** Without a tag of `key`, the pass changes nothing. */
  lemma {:induction false} StepAbsent(acc: TitleAcc, title: string, key: string, ps: seq<(bool, string, string)>)
    requires key in TagKeys && '{' !in title && OtherKeys(ps, key)
    requires acc.remaining == title + Parts(ps)
    ensures TagStep(acc, key) == acc
  {
    NoTagOf(title, key, ps);
  }

  lemma {:induction false} PartsOne(a: (bool, string, string))
    ensures Parts([a]) == OptPart(a.0, a.1, a.2)
  {
    assert [a][1..] == [];
    AppendEmpty(OptPart(a.0, a.1, a.2));
  }

  lemma {:induction false} PartsTwo(a: (bool, string, string), b: (bool, string, string))
    ensures Parts([a, b]) == OptPart(a.0, a.1, a.2) + OptPart(b.0, b.1, b.2)
  {
    assert [a, b][1..] == [b];
    PartsOne(b);
  }

  /** The labels pass, when the topic has labels: they are read back and
      their tag is cut out. */
  lemma {:induction false} LabelsFound(t: Topic, acc: TitleAcc)
    requires InlineReady(t) && t.labels != []
    requires acc.remaining == t.title + Part("labels", LabelsVal(t))
      + OptPart(t.link != "", "link", t.link) + OptPart(t.markers != [], "markers", MarkersVal(t))
    ensures var r := TagStep(acc, "labels");
      && r.topic.labels == t.labels && r.topic.link == acc.topic.link && r.topic.markers == acc.topic.markers
      && r.remaining == t.title + "  "
           + OptPart(t.link != "", "link", t.link) + OptPart(t.markers != [], "markers", MarkersVal(t))
  {
    var v := LabelsVal(t);
    var pk := OptPart(t.link != "", "link", t.link);
    var pm := OptPart(t.markers != [], "markers", MarkersVal(t));
    var pre := t.title + "  ";
    JoinedTrimmed(t.labels);
    Regroup5(t.title, "  ", TagOpen("labels") + TagRest(v), pk, pm);
    PassFound(acc, "labels", pre, v, pk + pm);
    Assoc(pre, pk, pm);
    SplitListJoined("", t.labels);
    AppendEmpty(v);
  }

  /** The labels pass, when the topic has none: nothing changes. */
  lemma {:induction false} LabelsAbsent(t: Topic, acc: TitleAcc)
    requires InlineReady(t) && t.labels == []
    requires acc.remaining == t.title + ""
      + OptPart(t.link != "", "link", t.link) + OptPart(t.markers != [], "markers", MarkersVal(t))
    ensures TagStep(acc, "labels") == acc
  {
    var pk := OptPart(t.link != "", "link", t.link);
    var pm := OptPart(t.markers != [], "markers", MarkersVal(t));
    if t.markers != [] {
      JoinedTrimmed(t.markers);
    }
    var others := [(t.link != "", "link", t.link), (t.markers != [], "markers", MarkersVal(t))];
    PartsTwo(others[0], others[1]);
    Assoc(t.title + "", pk, pm);
    StepAbsent(acc, t.title + "", "labels", others);
  }

  /** The link pass, when the topic has a link. */
  lemma {:induction false} LinkFound(t: Topic, acc: TitleAcc, a: string)
    requires InlineReady(t) && t.link != "" && '{' !in a
    requires acc.remaining == a + Part("link", t.link) + OptPart(t.markers != [], "markers", MarkersVal(t))
    ensures var r := TagStep(acc, "link");
      && r.topic.labels == acc.topic.labels && r.topic.link == t.link && r.topic.markers == acc.topic.markers
      && r.remaining == a + "  " + OptPart(t.markers != [], "markers", MarkersVal(t))
  {
    var pm := OptPart(t.markers != [], "markers", MarkersVal(t));
    Regroup3(a, "  ", TagOpen("link") + TagRest(t.link), pm);
    PassFound(acc, "link", a + "  ", t.link, pm);
  }

  /** The link pass, when the topic has none. */
  lemma {:induction false} LinkAbsent(t: Topic, acc: TitleAcc, a: string)
    requires InlineReady(t) && t.link == "" && '{' !in a
    requires acc.remaining == a + "" + OptPart(t.markers != [], "markers", MarkersVal(t))
    ensures TagStep(acc, "link") == acc
  {
    if t.markers != [] {
      JoinedTrimmed(t.markers);
    }
    var others := [(t.markers != [], "markers", MarkersVal(t))];
    PartsOne(others[0]);
    StepAbsent(acc, a + "", "link", others);
  }

  /** The markers pass, when the topic has markers. */
  lemma {:induction false} MarkersFound(t: Topic, acc: TitleAcc, a: string)
    requires InlineReady(t) && t.markers != [] && '{' !in a
    requires acc.remaining == a + Part("markers", MarkersVal(t))
    ensures var r := TagStep(acc, "markers");
      && r.topic.labels == acc.topic.labels && r.topic.link == acc.topic.link && r.topic.markers == t.markers
      && r.remaining == a + "  "
  {
    var v := MarkersVal(t);
    JoinedTrimmed(t.markers);
    Assoc(a, "  ", TagOpen("markers") + TagRest(v));
    AppendEmpty(a + "  " + (TagOpen("markers") + TagRest(v)));
    PassFound(acc, "markers", a + "  ", v, "");
    AppendEmpty(a + "  ");
    SplitListJoined("", t.markers);
    AppendEmpty(v);
  }

  /** The markers pass, when the topic has none. */
  lemma {:induction false} MarkersAbsent(t: Topic, acc: TitleAcc, a: string)
    requires t.markers == [] && '{' !in a
    requires acc.remaining == a
    ensures TagStep(acc, "markers") == acc
  {
    assert Parts([]) == "";
    AppendEmpty(a);
    StepAbsent(acc, a, "markers", []);
  }

  /** The loop over the keys, unrolled. */
  lemma {:induction false} FoldThree(init: TitleAcc)
    ensures TagFold(TagKeys, init) == TagStep(TagStep(TagStep(init, "labels"), "link"), "markers")
  {
    assert TagKeys[..0] == [];
    TagFoldSnoc(TagKeys, 0, init);
    TagFoldSnoc(TagKeys, 1, init);
    TagFoldSnoc(TagKeys, 2, init);
    assert TagKeys[..3] == TagKeys;
  }

  /** `_parse_title_meta` reads back what `_topic_to_md` writes after the
      bullet: the title, labels, link and markers. */
  lemma {:induction false} TitleMetaRoundTrip(t: Topic)
    requires InlineReady(t)
    ensures var r := ParseTitleMeta(TitleBody(t));
      r.title == t.title && r.labels == t.labels && r.link == t.link && r.markers == t.markers
  {
    var init := TitleAcc(NewTopic("", ""), TitleBody(t));
    var a1 := TagStep(init, "labels");
    var a2 := TagStep(a1, "link");
    var a3 := TagStep(a2, "markers");
    FoldThree(init);
    BodyParts(t);
    var pk := OptPart(t.link != "", "link", t.link);
    var pm := OptPart(t.markers != [], "markers", MarkersVal(t));
    if t.labels != [] {
      LabelsFound(t, init);
    } else {
      LabelsAbsent(t, init);
    }
    var a := t.title + Pad(t.labels != []);
    assert a1.remaining == a + pk + pm;
    PadsSpace(t.labels != [], t.link != "", t.markers != []);
    if t.link != "" {
      LinkFound(t, a1, a);
    } else {
      LinkAbsent(t, a1, a);
    }
    var b := a + Pad(t.link != "");
    assert a2.remaining == b + pm;
    if t.markers != [] {
      MarkersFound(t, a2, b);
    } else {
      AppendEmpty(b);
      MarkersAbsent(t, a2, b);
    }
    assert a3.remaining == b + Pad(t.markers != []);
    var w := Pad(t.labels != []) + Pad(t.link != "");
    Assoc(t.title, Pad(t.labels != []), Pad(t.link != ""));
    Assoc(t.title, w, Pad(t.markers != []));
    AppendEmpty(t.title);
    StripPadded("", t.title, w + Pad(t.markers != []));
  }
}
