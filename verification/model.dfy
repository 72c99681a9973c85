/**
 * The document model: a document is a sequence of sheets, each with at most
 * one root topic; topics form a tree. Both are values: the source builds each
 * node fresh, fills in its fields and then never shares or changes it.
 */
module Model {
  import opened Wrappers

  /** The identifier of a node built without one. The source draws a fresh
      26-character uuid4 prefix there; the model leaves generation out and
      writes this placeholder instead. */
  const FreshId: string := ""

  datatype Topic = Topic(
    id: string,
    title: string,
    children: seq<Topic>,
    notes: string,
    labels: seq<string>,
    link: string,
    markers: seq<string>)

  datatype Sheet = Sheet(id: string, title: string, root: Option<Topic>)

  /** `Topic(title, topic_id)`: an empty or missing id becomes a generated one;
      every other field starts empty. */
  function NewTopic(title: string, id: string): (t: Topic)
    ensures t.title == title && t.children == [] && t.notes == ""
    ensures t.labels == [] && t.link == "" && t.markers == []
    ensures id != "" ==> t.id == id
    ensures id == "" ==> t.id == FreshId
  {
    Topic(if id == "" then FreshId else id, title, [], "", [], "", [])
  }

  /** `Sheet(title, sheet_id)`: a sheet without a root topic. */
  function NewSheet(title: string, id: string): (s: Sheet)
    ensures s.title == title && s.root == None
    ensures id != "" ==> s.id == id
    ensures id == "" ==> s.id == FreshId
  {
    Sheet(if id == "" then FreshId else id, title, None)
  }

  /** The same tree with every identifier replaced by the placeholder: what a
      decoder that generates identifiers can at best reproduce. */
  function EraseIds(t: Topic): (r: Topic)
    ensures r.id == FreshId && |r.children| == |t.children|
    ensures r.(id := t.id, children := t.children) == t
    decreases t
  {
    t.(id := FreshId, children := EraseAll(t.children))
  }

  /** `EraseIds` on each topic of a list. */
  function EraseAll(ts: seq<Topic>): (r: seq<Topic>)
    ensures |r| == |ts|
    decreases ts
  {
    if ts == [] then [] else [EraseIds(ts[0])] + EraseAll(ts[1..])
  }

  function EraseSheetIds(s: Sheet): (r: Sheet)
    ensures r.id == FreshId && r.title == s.title && r.root.Some? == s.root.Some?
  {
    Sheet(FreshId, s.title, if s.root.Some? then Some(EraseIds(s.root.value)) else None)
  }

  function EraseDocumentIds(sheets: seq<Sheet>): (r: seq<Sheet>)
    ensures |r| == |sheets|
    ensures forall i :: 0 <= i < |sheets| ==> r[i] == EraseSheetIds(sheets[i])
  {
    seq(|sheets|, i requires 0 <= i < |sheets| => EraseSheetIds(sheets[i]))
  }
}
