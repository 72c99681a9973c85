/**
 * The zen package codec over loaded JSON values: `_parse_zen_topic` and
 * `parse_zen` read topics and sheets from the value `json.loads` returns for
 * content.json; `_topic_to_zen_dict` and `create_zen` build the value that
 * `json.dumps` writes. Archive access and JSON text are not part of this model.
 */
module Zen {
  import opened Wrappers
  import opened Text
  import opened Seqs
  import opened Model

  /** A loaded JSON value. An object is a Python dict: its entries in insertion
      order, with distinct keys. */
  datatype Json =
    | JNull
    | JBool(b: bool)
    | JNumber(n: int)
    | JString(s: string)
    | JArray(items: seq<Json>)
    | JObject(fields: seq<(string, Json)>)

  datatype ZenError =
    /** `.get` on a value that is not a dict (AttributeError in the source). */
    | NotAnObject
    /** Iteration over null, a number or a bool (TypeError in the source). */
    | NotIterable
    /** A non-string where a string is read: a TypeError in `''.join` for an
        `insert`; for the other keys the source would store the value verbatim,
        which the model's string fields cannot hold. */
    | NotAString(key: string)

  /** Python truthiness of a loaded value. */
  predicate Truthy(v: Json) {
    match v
    case JNull => false
    case JBool(b) => b
    case JNumber(n) => n != 0
    case JString(s) => s != ""
    case JArray(a) => a != []
    case JObject(f) => f != []
  }

  /** `d.get(key)`: the value stored under `key`, if any. */
  function Get(fields: seq<(string, Json)>, key: string): (r: Option<Json>)
    ensures r.Some? ==> (key, r.value) in fields
    ensures r.None? ==> forall i :: 0 <= i < |fields| ==> fields[i].0 != key
  {
    if fields == [] then None
    else if fields[0].0 == key then Some(fields[0].1)
    else Get(fields[1..], key)
  }

  /** `d.get(key, default)` for a value the source keeps as a str. */
  function StringOr(v: Option<Json>, default: string, key: string): (r: Result<string, ZenError>)
    ensures v.None? ==> r == Ok(default)
    ensures r.Ok? && v.Some? ==> v.value == JString(r.value)
  {
    match v
    case None => Ok(default)
    case Some(JString(s)) => Ok(s)
    case Some(_) => Err(NotAString(key))
  }

  /** `d.get('id')` passed as `topic_id`/`sheet_id`: a falsy id is replaced by
      a generated one. */
  function IdOf(v: Option<Json>): (r: Result<string, ZenError>)
    ensures v == Some(JString(FreshId)) || v.None? ==> r == Ok(FreshId)
    ensures forall s :: v == Some(JString(s)) ==> r == Ok(s)
  {
    match v
    case None => Ok(FreshId)
    case Some(JString(s)) => Ok(if s == "" then FreshId else s)
    case Some(x) => if Truthy(x) then Err(NotAString("id")) else Ok(FreshId)
  }

  function Concat(parts: seq<string>): string {
    if parts == [] then "" else parts[0] + Concat(parts[1..])
  }

  /** The `insert` strings of the dict entries of a rich-text op list, in order;
      iterating a string or a dict yields no dicts, so no inserts. */
  function OpInserts(ops: Json): Result<seq<string>, ZenError> {
    match ops
    case JArray(items) => InsertsOf(items)
    case JString(_) => Ok([])
    case JObject(_) => Ok([])
    case _ => Err(NotIterable)
  }

  function InsertsOf(items: seq<Json>): Result<seq<string>, ZenError> {
    if items == [] then Ok([])
    else
      var head :- (match items[0]
                   case JObject(f) =>
                     var insert :- StringOr(Get(f, "insert"), "", "insert");
                     Ok([insert])
                   case _ => Ok([]));
      var tail :- InsertsOf(items[1..]);
      Ok(head + tail)
  }

  /** The notes of a topic: `{plain: {content}}` first, then a rich-text op
      list `{ops: [...]}` or `{ops: {ops: [...]}}` whose inserts are joined and
      stripped; any other shape leaves the notes empty. */
  function ParseNotes(v: Option<Json>): Result<string, ZenError> {
    match v
    case Some(JObject(nf)) =>
      var plain := Get(nf, "plain");
      if plain.Some? then
        (match plain.value
         case JObject(pf) => StringOr(Get(pf, "content"), "", "content")
         case _ => Err(NotAnObject))
      else
        var ops := Get(nf, "ops");
        if ops.None? then Ok("")
        else
          OpsText(OpList(ops.value))
    case _ => Ok("")
  }

  /** `notes['ops']`, or the list under its own `ops` key when it is a dict. */
  function OpList(ops: Json): Json {
    match ops
    case JObject(inner) => Get(inner, "ops").GetOr(JArray([]))
    case _ => ops
  }

  /** The stripped concatenation of the inserts of an op list. */
  function OpsText(list: Json): Result<string, ZenError> {
    var inserts :- OpInserts(list);
    Ok(Strip(Concat(inserts)))
  }

  /** `list(d.get('labels', []))`: a string yields its characters and a dict its
      keys, as Python's `list` does. */
  function ParseLabels(v: Option<Json>): Result<seq<string>, ZenError> {
    match v
    case None => Ok([])
    case Some(JArray(items)) => StringsOf(items)
    case Some(JString(s)) => Ok(seq(|s|, i requires 0 <= i < |s| => [s[i]]))
    case Some(JObject(f)) => Ok(seq(|f|, i requires 0 <= i < |f| => f[i].0))
    case Some(_) => Err(NotIterable)
  }

  function StringsOf(items: seq<Json>): (r: Result<seq<string>, ZenError>)
    ensures r.Ok? ==> |r.value| == |items| && forall i :: 0 <= i < |items| ==> items[i] == JString(r.value[i])
    ensures (forall i :: 0 <= i < |items| ==> items[i].JString?) ==> r.Ok?
  {
    if items == [] then Ok([])
    else if !items[0].JString? then Err(NotAString("labels"))
    else
      var tail :- StringsOf(items[1..]);
      Ok([items[0].s] + tail)
  }

  /** The marker ids: the `markerId` of every dict entry whose `markerId` is
      truthy; other entries are dropped. */
  function ParseMarkers(v: Option<Json>): Result<seq<string>, ZenError> {
    match v
    case None => Ok([])
    case Some(JArray(items)) => MarkerIds(items)
    case Some(JString(_)) => Ok([])
    case Some(JObject(_)) => Ok([])
    case Some(_) => Err(NotIterable)
  }

  function MarkerIds(items: seq<Json>): (r: Result<seq<string>, ZenError>)
    ensures r.Ok? ==> |r.value| <= |items|
    ensures r.Ok? ==> forall m :: m in r.value ==> m != ""
  {
    if items == [] then Ok([])
    else
      var head :- (match items[0]
                   case JObject(f) =>
                     var mid := Get(f, "markerId");
                     if mid.Some? && Truthy(mid.value) then
                       (match mid.value
                        case JString(s) => Ok([s])
                        case _ => Err(NotAString("markerId")))
                     else Ok([])
                   case _ => Ok([]));
      var tail :- MarkerIds(items[1..]);
      Ok(head + tail)
  }

  /** The first error of a list of results, or all their values in order. */
  function Collect<T>(rs: seq<Result<T, ZenError>>): (r: Result<seq<T>, ZenError>)
    ensures r.Ok? ==> |r.value| == |rs|
  {
    if rs == [] then Ok([])
    else
      var init :- Collect(rs[..|rs| - 1]);
      var last :- rs[|rs| - 1];
      Ok(init + [last])
  }

  /** `_parse_zen_topic`, as a value: the topic a JSON node decodes to. */
  function ParseZenTopic(data: Json): Result<Topic, ZenError>
    decreases data, 2
  {
    match data
    case JObject(fields) =>
      var topic :- ZenScalars(fields);
      var children :- ParseAttached(fields);
      Ok(topic.(children := children))
    case _ => Err(NotAnObject)
  }

  /** The fields of a topic other than its children, read in the source's
      order, so that the first failing read decides the error. */
  function ZenScalars(fields: seq<(string, Json)>): (r: Result<Topic, ZenError>)
    ensures r.Ok? ==> r.value.children == []
  {
    var title :- StringOr(Get(fields, "title"), "", "title");
    var id :- IdOf(Get(fields, "id"));
    var notes :- ParseNotes(Get(fields, "notes"));
    var labels :- ParseLabels(Get(fields, "labels"));
    var link :- StringOr(Get(fields, "href"), "", "href");
    var markers :- ParseMarkers(Get(fields, "markers"));
    Ok(NewTopic(title, id).(notes := notes, labels := labels, link := link, markers := markers))
  }

  /** The topics under `children.attached`; other child categories are not
      read. Iterating a non-empty string or dict reaches a str, which has no
      `.get`. */
  function ParseAttached(fields: seq<(string, Json)>): Result<seq<Topic>, ZenError>
    decreases JObject(fields), 1
  {
    var cv := Get(fields, "children");
    if cv.None? then Ok([])
    else match cv.value
      case JObject(cf) =>
        var av := Get(cf, "attached");
        if av.None? then Ok([])
        else
          (match av.value
           case JArray(items) =>
             assert ("attached", JArray(items)) in cf;
             assert ("children", JObject(cf)) in fields;
             ParseChildren(items)
           case JString(s) => if s == "" then Ok([]) else Err(NotAnObject)
           case JObject(f) => if f == [] then Ok([]) else Err(NotAnObject)
           case _ => Err(NotIterable))
      case _ => Err(NotAnObject)
  }

  /** Each entry of `attached` parsed as a topic, stopping at the first error. */
  function ParseChildren(items: seq<Json>): (r: Result<seq<Topic>, ZenError>)
    ensures r.Ok? ==> |r.value| == |items|
    decreases JArray(items), 0
  {
    Collect(seq(|items|, k requires 0 <= k < |items| => ParseZenTopic(items[k])))
  }

  // ---------------------------------------------------------------------
  // Encoding
  // ---------------------------------------------------------------------

  function Strings(xs: seq<string>): (r: seq<Json>)
    ensures |r| == |xs| && forall i :: 0 <= i < |xs| ==> r[i] == JString(xs[i])
  {
    seq(|xs|, i requires 0 <= i < |xs| => JString(xs[i]))
  }

  /** One single-entry dict per string, the string stored under `key`: the
      marker references `{'markerId': m}`, or the ops `{'insert': x}` of a
      rich-text note. */
  function Keyed(key: string, xs: seq<string>): (r: seq<Json>)
    ensures |r| == |xs| && forall i :: 0 <= i < |xs| ==> r[i] == JObject([(key, JString(xs[i]))])
  {
    seq(|xs|, i requires 0 <= i < |xs| => JObject([(key, JString(xs[i]))]))
  }

  /** A dict entry written only when `present`. */
  function Entry(present: bool, key: string, v: Json): (r: seq<(string, Json)>)
    ensures |r| <= 1 && forall i :: 0 <= i < |r| ==> r[i] == (key, v)
    ensures present <==> r != []
  {
    if present then [(key, v)] else []
  }

  /** `_topic_to_zen_dict`: `id`, `class` and `title` always; `notes` (always in
      the plain shape), `labels`, `href`, `markers` and `children.attached`
      only when non-empty. */
  function TopicToZen(t: Topic): (j: Json)
    ensures j.JObject? && |j.fields| >= 3
    ensures j.fields[0] == ("id", JString(t.id)) && j.fields[1] == ("class", JString("topic"))
    ensures j.fields[2] == ("title", JString(t.title))
    decreases t, 1
  {
    JObject(ZenHead(t) + (ZenNotes(t) + (ZenLabels(t) + (ZenHref(t) + (ZenMarkers(t) + ZenChildren(t))))))
  }

  function ZenHead(t: Topic): seq<(string, Json)> {
    [("id", JString(t.id)), ("class", JString("topic")), ("title", JString(t.title))]
  }

  function ZenNotes(t: Topic): seq<(string, Json)> {
    Entry(t.notes != "", "notes", PlainNotes(t.notes))
  }

  function ZenLabels(t: Topic): seq<(string, Json)> {
    Entry(t.labels != [], "labels", JArray(Strings(t.labels)))
  }

  function ZenHref(t: Topic): seq<(string, Json)> {
    Entry(t.link != "", "href", JString(t.link))
  }

  function ZenMarkers(t: Topic): seq<(string, Json)> {
    Entry(t.markers != [], "markers", JArray(Keyed("markerId", t.markers)))
  }

  function ZenChildren(t: Topic): seq<(string, Json)>
    decreases t, 0
  {
    Entry(t.children != [], "children", JObject([("attached", JArray(ZenTopics(t.children)))]))
  }

  function ZenTopics(ts: seq<Topic>): (r: seq<Json>)
    ensures |r| == |ts|
    decreases ts
  {
    seq(|ts|, i requires 0 <= i < |ts| => TopicToZen(ts[i]))
  }

  function PlainNotes(notes: string): Json {
    JObject([("plain", JObject([("content", JString(notes))]))])
  }

  /** `get` skips entries under other keys. */
  lemma {:induction false} GetSkip(a: seq<(string, Json)>, b: seq<(string, Json)>, key: string)
    requires Lacks(a, key)
    ensures Get(a + b, key) == Get(b, key)
    decreases |a|
  {
    if a != [] {
      assert (a + b)[0] == a[0];
      assert (a + b)[1..] == a[1..] + b;
      GetSkip(a[1..], b, key);
      assert Get(a + b, key) == Get(a[1..] + b, key);
    } else {
      assert a + b == b;
    }
  }

  /** No entry of `fields` is under `key`. */
  predicate Lacks(fields: seq<(string, Json)>, key: string) {
    forall i :: 0 <= i < |fields| ==> fields[i].0 != key
  }

  /** `get` on a dict whose first entries, `e`, hold at most one under `key`. */
  lemma GetEntry(e: seq<(string, Json)>, key: string, b: seq<(string, Json)>)
    requires Lacks(b, key)
    requires |e| <= 1 && forall i :: 0 <= i < |e| ==> e[i].0 == key
    ensures Get(e + b, key) == if e != [] then Some(e[0].1) else None
  {
    if e != [] {
      assert (e + b)[0] == e[0];
    } else {
      assert e + b == b;
    }
  }

  /** What `_parse_zen_topic` finds in the dict `_topic_to_zen_dict` writes. */
  lemma ZenGetId(t: Topic)
    ensures Get(TopicToZen(t).fields, "id") == Some(JString(t.id))
  {
  }

  lemma ZenGetTitle(t: Topic)
    ensures Get(TopicToZen(t).fields, "title") == Some(JString(t.title))
  {
    var f := TopicToZen(t).fields;
    assert f[0].0 == "id" && f[1].0 == "class" && f[2] == ("title", JString(t.title));
    assert Get(f[2..], "title") == Some(JString(t.title));
    assert f[1..][1..] == f[2..];
    assert Get(f[1..], "title") == Get(f[2..], "title");
  }

  lemma ZenGetNotes(t: Topic)
    ensures Get(TopicToZen(t).fields, "notes") == if t.notes != "" then Some(PlainNotes(t.notes)) else None
  {
    var rest := ZenLabels(t) + (ZenHref(t) + (ZenMarkers(t) + ZenChildren(t)));
    var x := ZenNotes(t) + rest;
    GetSkip(ZenHead(t), x, "notes");
    GetEntry(ZenNotes(t), "notes", rest);
    Chain(Get(ZenHead(t) + x, "notes"), Get(x, "notes"), if t.notes != "" then Some(PlainNotes(t.notes)) else None);
  }

  lemma ZenGetLabels(t: Topic)
    ensures Get(TopicToZen(t).fields, "labels") == if t.labels != [] then Some(JArray(Strings(t.labels))) else None
  {
    var rest := ZenHref(t) + (ZenMarkers(t) + ZenChildren(t));
    var x := ZenLabels(t) + rest;
    GetSkip(ZenHead(t), ZenNotes(t) + x, "labels");
    GetSkip(ZenNotes(t), x, "labels");
    GetEntry(ZenLabels(t), "labels", rest);
    Chain(Get(ZenHead(t) + (ZenNotes(t) + x), "labels"), Get(ZenNotes(t) + x, "labels"), Get(x, "labels"));
  }

  lemma ZenGetHref(t: Topic)
    ensures Get(TopicToZen(t).fields, "href") == if t.link != "" then Some(JString(t.link)) else None
  {
    var rest := ZenMarkers(t) + ZenChildren(t);
    var x := ZenHref(t) + rest;
    var y := ZenLabels(t) + x;
    GetSkip(ZenHead(t), ZenNotes(t) + y, "href");
    GetSkip(ZenNotes(t), y, "href");
    GetSkip(ZenLabels(t), x, "href");
    GetEntry(ZenHref(t), "href", rest);
    Chain(Get(ZenHead(t) + (ZenNotes(t) + y), "href"), Get(ZenNotes(t) + y, "href"), Get(y, "href"));
    Chain(Get(ZenHead(t) + (ZenNotes(t) + y), "href"), Get(y, "href"), Get(x, "href"));
  }

  lemma ZenGetMarkers(t: Topic)
    ensures Get(TopicToZen(t).fields, "markers") == if t.markers != [] then Some(JArray(Keyed("markerId", t.markers))) else None
  {
    var rest := ZenChildren(t);
    var x := ZenMarkers(t) + rest;
    var y := ZenHref(t) + x;
    var z := ZenLabels(t) + y;
    GetSkip(ZenHead(t), ZenNotes(t) + z, "markers");
    GetSkip(ZenNotes(t), z, "markers");
    GetSkip(ZenLabels(t), y, "markers");
    GetSkip(ZenHref(t), x, "markers");
    GetEntry(ZenMarkers(t), "markers", rest);
    Chain(Get(ZenHead(t) + (ZenNotes(t) + z), "markers"), Get(ZenNotes(t) + z, "markers"), Get(z, "markers"));
    Chain(Get(ZenHead(t) + (ZenNotes(t) + z), "markers"), Get(z, "markers"), Get(y, "markers"));
    Chain(Get(ZenHead(t) + (ZenNotes(t) + z), "markers"), Get(y, "markers"), Get(x, "markers"));
  }

  lemma ZenGetChildren(t: Topic)
    ensures Get(TopicToZen(t).fields, "children") ==
              if t.children != [] then Some(JObject([("attached", JArray(ZenTopics(t.children)))])) else None
  {
    var c := ZenChildren(t);
    var x := ZenMarkers(t) + c;
    var y := ZenHref(t) + x;
    var z := ZenLabels(t) + y;
    GetSkip(ZenHead(t), ZenNotes(t) + z, "children");
    GetSkip(ZenNotes(t), z, "children");
    GetSkip(ZenLabels(t), y, "children");
    GetSkip(ZenHref(t), x, "children");
    GetSkip(ZenMarkers(t), c, "children");
    AppendEmpty(c);
    GetEntry(c, "children", []);
    Chain(Get(ZenHead(t) + (ZenNotes(t) + z), "children"), Get(ZenNotes(t) + z, "children"), Get(z, "children"));
    Chain(Get(ZenHead(t) + (ZenNotes(t) + z), "children"), Get(z, "children"), Get(y, "children"));
    Chain(Get(ZenHead(t) + (ZenNotes(t) + z), "children"), Get(y, "children"), Get(x, "children"));
    Chain(Get(ZenHead(t) + (ZenNotes(t) + z), "children"), Get(x, "children"), Get(c, "children"));
  }

  // ---------------------------------------------------------------------
  // Round trip
  // ---------------------------------------------------------------------

  /** What the zen encoding preserves: identifiers are non-empty (an empty one
      reads back as a generated one) and marker ids are non-empty (entries with
      a falsy `markerId` are dropped). */
  ghost predicate ZenReady(t: Topic)
    decreases t
  {
    && t.id != FreshId
    && (forall m :: m in t.markers ==> m != "")
    && forall i :: 0 <= i < |t.children| ==> ZenReady(t.children[i])
  }

  lemma {:induction false} MarkerIdsOfRefs(ms: seq<string>)
    requires forall m :: m in ms ==> m != ""
    ensures MarkerIds(Keyed("markerId", ms)) == Ok(ms)
    decreases |ms|
  {
    if ms != [] {
      assert forall m :: m in ms[1..] ==> m in ms;
      MarkerIdsOfRefs(ms[1..]);
      assert ms[0] in ms;
      MarkerIdsCons(ms);
    }
  }

  /** One step of `MarkerIdsOfRefs`: the first reference contributes its id. */
  lemma MarkerIdsCons(ms: seq<string>)
    requires ms != [] && ms[0] != ""
    requires MarkerIds(Keyed("markerId", ms[1..])) == Ok(ms[1..])
    ensures MarkerIds(Keyed("markerId", ms)) == Ok(ms)
  {
    var items := Keyed("markerId", ms);
    var f := [("markerId", JString(ms[0]))];
    assert items[0] == JObject(f);
    assert Get(f, "markerId") == Some(JString(ms[0]));
    assert items[1..] == Keyed("markerId", ms[1..]);
    assert [ms[0]] + ms[1..] == ms;
  }

  /** `_parse_zen_topic(_topic_to_zen_dict(t))` gives `t` back. */
  lemma {:induction false} ZenTopicRoundTrip(t: Topic)
    requires ZenReady(t)
    ensures ParseZenTopic(TopicToZen(t)) == Ok(t)
    decreases t, 2
  {
    ZenScalarsRoundTrip(t);
    ZenChildrenRoundTrip(t);
  }

  /** Everything but the children reads back. */
  lemma ZenScalarsRoundTrip(t: Topic)
    requires t.id != FreshId && forall m :: m in t.markers ==> m != ""
    ensures ZenScalars(TopicToZen(t).fields) == Ok(t.(children := []))
  {
    ZenGetId(t);
    ZenGetTitle(t);
    ZenNotesRoundTrip(t);
    ZenHrefRoundTrip(t);
    ZenLabelsRoundTrip(t);
    ZenMarkersRoundTrip(t);
  }

  lemma ZenNotesRoundTrip(t: Topic)
    ensures ParseNotes(Get(TopicToZen(t).fields, "notes")) == Ok(t.notes)
  {
    ZenGetNotes(t);
    PlainNotesRoundTrip(t.notes);
  }

  /** Notes in the plain shape read back as written; no notes read as "". */
  lemma PlainNotesRoundTrip(notes: string)
    ensures ParseNotes(if notes != "" then Some(PlainNotes(notes)) else None) == Ok(notes)
  {
    if notes != "" {
      var pf := [("content", JString(notes))];
      assert Get(pf, "content") == Some(JString(notes));
      assert Get([("plain", JObject(pf))], "plain") == Some(JObject(pf));
    }
  }

  lemma ZenHrefRoundTrip(t: Topic)
    ensures StringOr(Get(TopicToZen(t).fields, "href"), "", "href") == Ok(t.link)
  {
    ZenGetHref(t);
  }

  lemma ZenLabelsRoundTrip(t: Topic)
    ensures ParseLabels(Get(TopicToZen(t).fields, "labels")) == Ok(t.labels)
  {
    ZenGetLabels(t);
    if t.labels != [] {
      var r := StringsOf(Strings(t.labels));
      assert r.value == t.labels;
    }
  }

  lemma ZenMarkersRoundTrip(t: Topic)
    requires forall m :: m in t.markers ==> m != ""
    ensures ParseMarkers(Get(TopicToZen(t).fields, "markers")) == Ok(t.markers)
  {
    ZenGetMarkers(t);
    if t.markers != [] {
      MarkerIdsOfRefs(t.markers);
    }
  }

  lemma {:induction false} ZenChildrenRoundTrip(t: Topic)
    requires ZenReady(t)
    ensures ParseAttached(TopicToZen(t).fields) == Ok(t.children)
    decreases t, 1
  {
    ZenGetChildren(t);
    AttachedOf(TopicToZen(t).fields, if t.children != [] then Some(ZenTopics(t.children)) else None);
    if t.children != [] {
      ZenTopicsRoundTrip(t);
    }
  }

  /** The topics read from a dict whose `children` entry is absent or holds
      only an `attached` list. */
  lemma AttachedOf(fields: seq<(string, Json)>, items: Option<seq<Json>>)
    requires Get(fields, "children") == if items.Some? then Some(JObject([("attached", JArray(items.value))])) else None
    ensures ParseAttached(fields) == if items.Some? then ParseChildren(items.value) else Ok([])
  {
    if items.Some? {
      var cf := [("attached", JArray(items.value))];
      assert Get(cf, "attached") == Some(JArray(items.value));
    }
  }

  lemma {:induction false} ZenTopicsRoundTrip(t: Topic)
    requires ZenReady(t)
    ensures ParseChildren(ZenTopics(t.children)) == Ok(t.children)
    decreases t, 0
  {
    var items := ZenTopics(t.children);
    var rs := seq(|items|, k requires 0 <= k < |items| => ParseZenTopic(items[k]));
    forall i | 0 <= i < |items| ensures rs[i] == Ok(t.children[i]) {
      ZenTopicRoundTrip(t.children[i]);
    }
    CollectAll(rs, t.children);
  }

  /** Results that are all values collect to those values. */
  lemma {:induction false} CollectAll<T>(rs: seq<Result<T, ZenError>>, vs: seq<T>)
    requires |rs| == |vs| && forall i :: 0 <= i < |rs| ==> rs[i] == Ok(vs[i])
    ensures Collect(rs) == Ok(vs)
    decreases |rs|
  {
    if rs != [] {
      var n := |rs| - 1;
      CollectAll(rs[..n], vs[..n]);
      assert vs[..n] + [vs[n]] == vs;
    }
  }

  /** A successful collection holds the value of every result, in order. */
  lemma {:induction false} CollectOk<T>(rs: seq<Result<T, ZenError>>)
    requires Collect(rs).Ok?
    ensures forall i :: 0 <= i < |rs| ==> rs[i] == Ok(Collect(rs).value[i])
    decreases |rs|
  {
    if rs != [] {
      var n := |rs| - 1;
      CollectOk(rs[..n]);
      assert forall i :: 0 <= i < n ==> rs[..n][i] == rs[i];
    }
  }

  // ---------------------------------------------------------------------
  // Sheets
  // ---------------------------------------------------------------------

  /** One entry of content.json: the title defaults to "Sheet 1" only when the
      key is absent; `rootTopic` is parsed when the key is present. */
  function ParseZenSheet(data: Json): (r: Result<Sheet, ZenError>)
    ensures !data.JObject? ==> r == Err(NotAnObject)
    ensures r.Ok? ==> data.JObject?
    ensures r.Ok? && Get(data.fields, "title").None? ==> r.value.title == "Sheet 1"
    ensures r.Ok? && Get(data.fields, "title").Some? ==> Get(data.fields, "title").value == JString(r.value.title)
    ensures r.Ok? ==> IdOf(Get(data.fields, "id")) == Ok(r.value.id)
    ensures r.Ok? ==> (r.value.root.Some? <==> Get(data.fields, "rootTopic").Some?)
    ensures r.Ok? && r.value.root.Some? ==> ParseZenTopic(Get(data.fields, "rootTopic").value) == Ok(r.value.root.value)
  {
    match data
    case JObject(fields) =>
      var title :- StringOr(Get(fields, "title"), "Sheet 1", "title");
      var id :- IdOf(Get(fields, "id"));
      var rt := Get(fields, "rootTopic");
      if rt.None? then Ok(NewSheet(title, id))
      else
        var root :- ParseZenTopic(rt.value);
        Ok(NewSheet(title, id).(root := Some(root)))
    case _ => Err(NotAnObject)
  }

  /** `parse_zen` after `json.loads`: one sheet per entry of the top-level
      list, in order. */
  function ParseZen(content: Json): (r: Result<seq<Sheet>, ZenError>)
    ensures r.Ok? && content.JArray? ==> |r.value| == |content.items|
  {
    match content
    case JArray(items) => Collect(seq(|items|, k requires 0 <= k < |items| => ParseZenSheet(items[k])))
    case JString(s) => if s == "" then Ok([]) else Err(NotAnObject)
    case JObject(f) => if f == [] then Ok([]) else Err(NotAnObject)
    case _ => Err(NotIterable)
  }

  /** A successful `parse_zen` holds one sheet per entry, in order. */
  lemma ParseZenEntries(content: Json)
    requires content.JArray? && ParseZen(content).Ok?
    ensures forall i :: 0 <= i < |content.items| ==> ParseZenSheet(content.items[i]) == Ok(ParseZen(content).value[i])
  {
    var items := content.items;
    CollectOk(seq(|items|, k requires 0 <= k < |items| => ParseZenSheet(items[k])));
  }

  /** One entry of content.json as `create_zen` writes it. */
  function SheetToZen(s: Sheet): Json {
    JObject(SheetHead(s) + SheetRoot(s))
  }

  function SheetHead(s: Sheet): seq<(string, Json)> {
    [("id", JString(s.id)), ("class", JString("sheet")), ("title", JString(s.title))]
  }

  function SheetRoot(s: Sheet): seq<(string, Json)> {
    Entry(s.root.Some?, "rootTopic", if s.root.Some? then TopicToZen(s.root.value) else JNull)
  }

  /** The value `create_zen` dumps into content.json. */
  function ZenContent(sheets: seq<Sheet>): (j: Json)
    ensures j.JArray? && |j.items| == |sheets|
    ensures forall i :: 0 <= i < |sheets| ==> j.items[i] == SheetToZen(sheets[i])
  {
    JArray(seq(|sheets|, i requires 0 <= i < |sheets| => SheetToZen(sheets[i])))
  }

  /** The value `create_zen` dumps into metadata.json. */
  const ZenMetadata: Json :=
    JObject([("creator", JObject([("name", JString("xmind-tool")), ("version", JString("1.0.0"))]))])

  /** What a zen document keeps: sheet ids are non-empty and every root topic
      is `ZenReady`. */
  ghost predicate ZenSheetReady(s: Sheet) {
    s.id != FreshId && (s.root.Some? ==> ZenReady(s.root.value))
  }

  lemma ZenSheetRoundTrip(s: Sheet)
    requires ZenSheetReady(s)
    ensures ParseZenSheet(SheetToZen(s)) == Ok(s)
  {
    ZenSheetGets(s);
    if s.root.Some? {
      ZenTopicRoundTrip(s.root.value);
    }
  }

  lemma ZenSheetGets(s: Sheet)
    ensures Get(SheetToZen(s).fields, "id") == Some(JString(s.id))
    ensures Get(SheetToZen(s).fields, "title") == Some(JString(s.title))
    ensures Get(SheetToZen(s).fields, "rootTopic") == if s.root.Some? then Some(TopicToZen(s.root.value)) else None
  {
    ZenSheetGetTitle(s);
    ZenSheetGetRoot(s);
  }

  lemma ZenSheetGetTitle(s: Sheet)
    ensures Get(SheetToZen(s).fields, "title") == Some(JString(s.title))
  {
    var f := SheetToZen(s).fields;
    assert f[0].0 == "id" && f[1].0 == "class" && f[2] == ("title", JString(s.title));
    assert Get(f[2..], "title") == Some(JString(s.title));
    assert f[1..][1..] == f[2..];
    assert Get(f[1..], "title") == Get(f[2..], "title");
  }

  lemma ZenSheetGetRoot(s: Sheet)
    ensures Get(SheetToZen(s).fields, "rootTopic") == if s.root.Some? then Some(TopicToZen(s.root.value)) else None
  {
    GetSkip(SheetHead(s), SheetRoot(s), "rootTopic");
    AppendEmpty(SheetRoot(s));
    GetEntry(SheetRoot(s), "rootTopic", []);
  }

  /** `parse_zen` reads back what `create_zen` writes. */
  lemma ZenRoundTrip(sheets: seq<Sheet>)
    requires forall i :: 0 <= i < |sheets| ==> ZenSheetReady(sheets[i])
    ensures ParseZen(ZenContent(sheets)) == Ok(sheets)
  {
    var items := ZenContent(sheets).items;
    var rs := seq(|items|, k requires 0 <= k < |items| => ParseZenSheet(items[k]));
    forall i | 0 <= i < |items| ensures rs[i] == Ok(sheets[i]) {
      ZenSheetRoundTrip(sheets[i]);
    }
    CollectAll(rs, sheets);
  }

  // ---------------------------------------------------------------------
  // Rich-text notes and markers
  // ---------------------------------------------------------------------

  lemma {:induction false} InsertsOfOps(xs: seq<string>)
    ensures InsertsOf(Keyed("insert", xs)) == Ok(xs)
    decreases |xs|
  {
    if xs != [] {
      InsertsOfOps(xs[1..]);
      assert Keyed("insert", xs)[1..] == Keyed("insert", xs[1..]);
      assert [xs[0]] + xs[1..] == xs;
    }
  }

  /** Rich-text notes, flat or nested one level under a second `ops` key, read
      as the stripped concatenation of their inserts. */
  lemma OpsNotes(xs: seq<string>)
    ensures ParseNotes(Some(JObject([("ops", JArray(Keyed("insert", xs)))]))) == Ok(Strip(Concat(xs)))
  {
    NotesOfOps(JArray(Keyed("insert", xs)));
    InsertsOfOps(xs);
  }

  lemma NestedOpsNotes(xs: seq<string>)
    ensures ParseNotes(Some(JObject([("ops", JObject([("ops", JArray(Keyed("insert", xs)))]))]))) == Ok(Strip(Concat(xs)))
  {
    var list := JArray(Keyed("insert", xs));
    var inner := [("ops", list)];
    NotesOfOps(JObject(inner));
    assert Get(inner, "ops") == Some(list);
    assert OpList(JObject(inner)) == list;
    InsertsOfOps(xs);
    assert OpsText(list) == Ok(Strip(Concat(xs)));
  }

  /** Notes holding only an `ops` entry are read from its op list. */
  lemma NotesOfOps(ops: Json)
    ensures ParseNotes(Some(JObject([("ops", ops)]))) == OpsText(OpList(ops))
  {
    var nf := [("ops", ops)];
    assert Get(nf, "plain") == None;
    assert Get(nf, "ops") == Some(ops);
  }

  /** Op-list entries that are not dicts contribute nothing. */
  lemma {:induction false} InsertsSkipNonDicts(a: seq<Json>, x: Json, b: seq<Json>)
    requires !x.JObject?
    ensures InsertsOf(a + [x] + b) == InsertsOf(a + b)
    decreases |a|
  {
    if a == [] {
      assert (a + [x] + b)[0] == x;
      assert (a + [x] + b)[1..] == b;
      assert a + b == b;
      var rb := InsertsOf(b);
      if rb.Ok? {
        assert [] + rb.value == rb.value;
      }
    } else {
      InsertsSkipNonDicts(a[1..], x, b);
      InsertsCons(a[0], a[1..] + [x] + b, a[1..] + b);
      assert a + [x] + b == [a[0]] + (a[1..] + [x] + b);
      assert a + b == [a[0]] + (a[1..] + b);
    }
  }

  /** Op lists that read alike still read alike behind the same first entry. */
  lemma InsertsCons(y: Json, r1: seq<Json>, r2: seq<Json>)
    requires InsertsOf(r1) == InsertsOf(r2)
    ensures InsertsOf([y] + r1) == InsertsOf([y] + r2)
  {
    assert ([y] + r1)[0] == y && ([y] + r1)[1..] == r1;
    assert ([y] + r2)[0] == y && ([y] + r2)[1..] == r2;
  }

  /** A marker entry without a truthy `markerId`, or that is not a dict, is
      dropped. */
  lemma {:induction false} MarkersSkipUnnamed(a: seq<Json>, x: Json, b: seq<Json>)
    requires !x.JObject? || Get(x.fields, "markerId").None? || !Truthy(Get(x.fields, "markerId").value)
    ensures MarkerIds(a + [x] + b) == MarkerIds(a + b)
    decreases |a|
  {
    if a == [] {
      assert (a + [x] + b)[0] == x;
      assert (a + [x] + b)[1..] == b;
      assert a + b == b;
      var rb := MarkerIds(b);
      if rb.Ok? {
        assert [] + rb.value == rb.value;
      }
    } else {
      MarkersSkipUnnamed(a[1..], x, b);
      assert (a + [x] + b)[1..] == a[1..] + [x] + b;
      assert (a + b)[1..] == a[1..] + b;
      assert (a + [x] + b)[0] == (a + b)[0];
    }
  }

  // ---------------------------------------------------------------------
  // The parsing loops
  // ---------------------------------------------------------------------

  /** When the results before index `k` are all values and the one at `k` is an
      error, that error is the outcome. */
  lemma {:induction false} CollectFirstErr<T>(rs: seq<Result<T, ZenError>>, k: nat)
    requires k < |rs| && Collect(rs[..k]).Ok? && rs[k].Err?
    ensures Collect(rs) == Err(rs[k].error)
    decreases |rs|
  {
    if |rs| == k + 1 {
      assert rs[..|rs| - 1] == rs[..k];
    } else {
      var init := rs[..|rs| - 1];
      assert init[..k] == rs[..k];
      CollectFirstErr(init, k);
    }
  }

  /** The last step of `Collect` over a prefix. */
  lemma CollectSnoc<T>(rs: seq<Result<T, ZenError>>, k: nat, v: T)
    requires k < |rs| && Collect(rs[..k]).Ok? && rs[k] == Ok(v)
    ensures Collect(rs[..k + 1]) == Ok(Collect(rs[..k]).value + [v])
  {
    assert rs[..k + 1][..k] == rs[..k];
  }

  /** `_parse_zen_topic` as the source runs it: the scalar fields are read
      with `ZenScalars` (the source reads notes and markers in comprehensions),
      then the child topics are appended one by one. */
  method ParseZenTopicLoop(data: Json) returns (r: Result<Topic, ZenError>)
    ensures r == ParseZenTopic(data)
    decreases data, 2
  {
    if !data.JObject? {
      return Err(NotAnObject);
    }
    var topic :- ZenScalars(data.fields);
    var children :- ParseAttachedLoop(data.fields);
    return Ok(topic.(children := children));
  }

  method ParseAttachedLoop(fields: seq<(string, Json)>) returns (r: Result<seq<Topic>, ZenError>)
    ensures r == ParseAttached(fields)
    decreases JObject(fields), 1
  {
    var cv := Get(fields, "children");
    if cv.None? {
      return Ok([]);
    }
    if !cv.value.JObject? {
      return Err(NotAnObject);
    }
    var cf := cv.value.fields;
    var av := Get(cf, "attached");
    if av.None? {
      return Ok([]);
    }
    match av.value {
      case JArray(items) =>
        assert ("attached", JArray(items)) in cf;
        assert ("children", JObject(cf)) in fields;
        r := ParseChildrenLoop(items);
      case JString(s) =>
        return if s == "" then Ok([]) else Err(NotAnObject);
      case JObject(f) =>
        return if f == [] then Ok([]) else Err(NotAnObject);
      case _ =>
        return Err(NotIterable);
    }
  }

  method ParseChildrenLoop(items: seq<Json>) returns (r: Result<seq<Topic>, ZenError>)
    ensures r == ParseChildren(items)
    decreases JArray(items), 0
  {
    ghost var rs := seq(|items|, k requires 0 <= k < |items| => ParseZenTopic(items[k]));
    var children: seq<Topic> := [];
    var k := 0;
    while k < |items|
      invariant 0 <= k <= |items|
      invariant Collect(rs[..k]) == Ok(children)
    {
      var child := ParseZenTopicLoop(items[k]);
      if child.Err? {
        CollectFirstErr(rs, k);
        return Err(child.error);
      }
      CollectSnoc(rs, k, child.value);
      children := children + [child.value];
      k := k + 1;
    }
    assert rs[..k] == rs;
    return Ok(children);
  }

  /** `parse_zen` as the source runs it: one sheet appended per entry. */
  method ParseZenLoop(content: Json) returns (r: Result<seq<Sheet>, ZenError>)
    ensures r == ParseZen(content)
  {
    match content {
      case JArray(items) =>
        ghost var rs := seq(|items|, k requires 0 <= k < |items| => ParseZenSheet(items[k]));
        var sheets: seq<Sheet> := [];
        var k := 0;
        while k < |items|
          invariant 0 <= k <= |items|
          invariant Collect(rs[..k]) == Ok(sheets)
        {
          var sheet := ParseZenSheet(items[k]);
          if sheet.Err? {
            CollectFirstErr(rs, k);
            return Err(sheet.error);
          }
          CollectSnoc(rs, k, sheet.value);
          sheets := sheets + [sheet.value];
          k := k + 1;
        }
        assert rs[..k] == rs;
        return Ok(sheets);
      case JString(s) =>
        return if s == "" then Ok([]) else Err(NotAnObject);
      case JObject(f) =>
        return if f == [] then Ok([]) else Err(NotAnObject);
      case _ =>
        return Err(NotIterable);
    }
  }
}
