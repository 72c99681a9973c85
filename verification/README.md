# XMind document codecs, modelled in Dafny

`xmind_tool.py` converts XMind mind maps to and from an indented Markdown
outline. A document is a list of sheets. Each sheet has an optional root
topic. Topics form a tree and carry a title, notes, labels, a link and
marker ids. The tool reads and writes two package variants:

- the zen variant, a `content.json` list of sheet dictionaries;
- the XMind 8 ("legacy") variant, a `content.xml` element tree.

It tells them apart by the entry names in the archive.

This project models:

- the document model: `Topic`, `Sheet` and the identifier defaults (`model.dfy`);
- `detect_format` (`detect.dfy`);
- the zen codec over loaded JSON values (`zen.dfy`);
- the legacy codec over ElementTree element trees (`legacy.dfy`);
- the outline encoder `sheets_to_markdown`, with `_format_meta_block` and
  `_topic_to_md` (`markdown_encode.dfy`);
- the outline decoder `markdown_to_sheets`, with `_parse_sheet_block`,
  `_parse_md_items`, `_parse_title_meta` and `_apply_block_meta`
  (`markdown_decode.dfy`);
- the outline round trip, in layers: inline tags (`outline_tags.dfy`),
  bullet lines (`outline_items.dfy`), sheet blocks and whole documents
  (`outline_sheets.dfy`);
- the Python string primitives these use: `strip`, `split`, `join`,
  `splitlines`, `startswith`, `find`, and the `\s` class (`text.dfy`).

Each loop of the source that appends results (over sheets, children,
lines, labels, markers or tag keys) is a method with the same loop. Values
the source computes in one expression or a comprehension are read through
the specification function instead: `Zen.ParseZenTopicLoop` reads the
scalar fields with `ZenScalars`. Each method is proved equal to a
specification function. The properties are proved about those functions.

The main results are round trips:

- `parse_zen` reads back what `create_zen` writes (`Zen.ZenRoundTrip`).
- `parse_legacy` reads back what `create_legacy` writes
  (`Legacy.LegacyRoundTrip`).
- `_parse_title_meta` reads back the bullet text `_topic_to_md` writes
  (`OutlineTags.TitleMetaRoundTrip`).
- `_parse_md_items` reads back the topics, notes and children written as
  bullet lines (`OutlineItems.ParseForest`). Identifiers are not kept here,
  because the outline does not carry them.
- `markdown_to_sheets` reads back the document `sheets_to_markdown` writes
  (`OutlineSheets.OutlineRoundTrip`). This covers the `---` separators, the
  sheet and root headings and the root's quoted metadata block. A sheet
  without a root is written as a heading alone, and the reader drops it.

Each round trip holds under a readiness predicate. The predicate names what
the encoding cannot carry. Examples:

- an empty id reads back as a generated one;
- an empty marker id or label is dropped;
- a title containing a `{labels: …}`, `{link: …}` or `{markers: …}` tag
  closed by a later `}` is taken apart as inline tags (the predicate
  excludes every `{`, which is sufficient but stronger than needed);
- a value containing a comma is split.

Generated identifiers are the constant `Model.FreshId`. Timestamps are a
parameter `stamp`.

## Model

| member | source | states |
|---|---|---|
| Model.NewTopic | skills/xmind/scripts/xmind_tool.py:35-45 | a new topic has the given title, no children, notes, labels, link or markers; an empty id is replaced by a generated one |
| Model.NewSheet | skills/xmind/scripts/xmind_tool.py:48-54 | a new sheet has the given title and no root topic; an empty id is replaced by a generated one |
| Detect.DetectFormat | skills/xmind/scripts/xmind_tool.py:61-73 | zen exactly when `content.json` is present; legacy exactly when only `content.xml` is; an error carrying the entry names exactly when neither is |
| Detect.PackageEntries | skills/xmind/scripts/xmind_tool.py:608-622 | the entries each encoder writes are detected as that encoder's variant, so an update never switches variant |
| Zen.Get | skills/xmind/scripts/xmind_tool.py:86-89 | `dict.get` returns a value stored under the key, and nothing only when no entry has the key |
| Zen.StringOr | skills/xmind/scripts/xmind_tool.py:121 | a missing key gives the default; a value read is the string stored |
| Zen.IdOf | skills/xmind/scripts/xmind_tool.py:98-102 | a missing or empty id becomes a generated one; any other string id is kept |
| Zen.MarkerIds | skills/xmind/scripts/xmind_tool.py:124-128 | the marker ids read are non-empty and no more than the entries |
| Zen.ZenScalars | skills/xmind/scripts/xmind_tool.py:98-128 | the fields other than children, read in the source's order; the children start empty |
| Zen.ParseChildren | skills/xmind/scripts/xmind_tool.py:131-133 | one topic per `attached` entry, or the first error |
| Zen.TopicToZen | skills/xmind/scripts/xmind_tool.py:495-500 | `_topic_to_zen_dict` builds a dict that starts with `id`, `class` `topic` and `title`; the optional keys are stated by the `Zen.ZenGet*` lemmas |
| Zen.Entry | skills/xmind/scripts/xmind_tool.py:501-512 | an optional key is written exactly when `present` holds, once; each caller passes its field's truthiness test |
| Zen.ZenGetNotes | skills/xmind/scripts/xmind_tool.py:501-502 | the written dict holds notes in the plain shape exactly when the notes are non-empty |
| Zen.ZenGetLabels | skills/xmind/scripts/xmind_tool.py:503-504 | the written dict holds the label list exactly when it is non-empty |
| Zen.ZenGetHref | skills/xmind/scripts/xmind_tool.py:505-506 | the written dict holds `href` exactly when the link is non-empty |
| Zen.ZenGetMarkers | skills/xmind/scripts/xmind_tool.py:507-508 | the written dict holds marker references exactly when there are markers |
| Zen.ZenGetChildren | skills/xmind/scripts/xmind_tool.py:509-512 | the written dict holds an `attached` list exactly when there are children |
| Zen.ZenNotesRoundTrip | skills/xmind/scripts/xmind_tool.py:106-110 | the notes written are read back unchanged |
| Zen.PlainNotesRoundTrip | skills/xmind/scripts/xmind_tool.py:108-109 | notes in the plain shape are read as written; no notes read as empty |
| Zen.ZenHrefRoundTrip | skills/xmind/scripts/xmind_tool.py:121 | the link written is read back |
| Zen.ZenLabelsRoundTrip | skills/xmind/scripts/xmind_tool.py:118 | the labels written are read back |
| Zen.MarkerIdsOfRefs | skills/xmind/scripts/xmind_tool.py:124-128 | non-empty marker ids written as references are read back in order |
| Zen.ZenMarkersRoundTrip | skills/xmind/scripts/xmind_tool.py:124-128 | the non-empty markers written are read back |
| Zen.ZenScalarsRoundTrip | skills/xmind/scripts/xmind_tool.py:98-128 | everything but the children reads back when the id and marker ids are non-empty |
| Zen.ZenChildrenRoundTrip | skills/xmind/scripts/xmind_tool.py:131-133 | the children written under `attached` are read back |
| Zen.ZenTopicsRoundTrip | skills/xmind/scripts/xmind_tool.py:131-133 | the encoded children list parses to the children |
| Zen.ZenTopicRoundTrip | skills/xmind/scripts/xmind_tool.py:98-135 | `_parse_zen_topic(_topic_to_zen_dict(t)) == t` for a topic with non-empty ids and marker ids |
| Zen.CollectAll | skills/xmind/scripts/xmind_tool.py:131-133 | results that are all values collect to those values in order |
| Zen.CollectOk | skills/xmind/scripts/xmind_tool.py:131-133 | a successful collection holds every result's value in order |
| Zen.CollectFirstErr | skills/xmind/scripts/xmind_tool.py:131-133 | the first error stops the collection |
| Zen.ParseZenSheet | skills/xmind/scripts/xmind_tool.py:86-94 | a sheet comes from a dict; a missing `title` becomes `Sheet 1`, a present one is the stored string; the id is read through `IdOf`, so a missing or empty one is generated; the root exists exactly when `rootTopic` is present, and is that value parsed |
| Zen.ParseZen | skills/xmind/scripts/xmind_tool.py:80-95 | one sheet per entry of the top-level list |
| Zen.ParseZenEntries | skills/xmind/scripts/xmind_tool.py:85-94 | a successful parse holds each entry's sheet in order |
| Zen.ZenContent | skills/xmind/scripts/xmind_tool.py:468-478 | `create_zen` writes one sheet dict per sheet, in order |
| Zen.ZenSheetGets | skills/xmind/scripts/xmind_tool.py:470-477 | the sheet dict holds the id, the title, and the root exactly when there is one |
| Zen.ZenSheetRoundTrip | skills/xmind/scripts/xmind_tool.py:86-94 | a written sheet reads back unchanged when its ids are non-empty |
| Zen.ZenRoundTrip | skills/xmind/scripts/xmind_tool.py:80-95 | `parse_zen` reads back every sheet `create_zen` writes |
| Zen.InsertsOfOps | skills/xmind/scripts/xmind_tool.py:113-115 | the inserts of an op list are read in order |
| Zen.OpsNotes | skills/xmind/scripts/xmind_tool.py:111-115 | rich-text notes read as the stripped concatenation of their inserts |
| Zen.NestedOpsNotes | skills/xmind/scripts/xmind_tool.py:111-115 | an op list nested under a second `ops` key is read the same way |
| Zen.NotesOfOps | skills/xmind/scripts/xmind_tool.py:106-115 | notes holding only `ops` are read from the op list |
| Zen.InsertsSkipNonDicts | skills/xmind/scripts/xmind_tool.py:113-115 | op entries that are not dicts contribute nothing |
| Zen.MarkersSkipUnnamed | skills/xmind/scripts/xmind_tool.py:124-128 | marker entries that are not dicts, or lack a truthy `markerId`, are skipped |
| Zen.ParseZenTopicLoop | skills/xmind/scripts/xmind_tool.py:98-135 | the method reads the scalar fields with `ZenScalars`, then appends the children one by one, and computes `ParseZenTopic` |
| Zen.ParseAttachedLoop | skills/xmind/scripts/xmind_tool.py:131-133 | the children loop computes `ParseAttached` |
| Zen.ParseChildrenLoop | skills/xmind/scripts/xmind_tool.py:132-133 | appending each parsed child computes `ParseChildren` |
| Zen.ParseZenLoop | skills/xmind/scripts/xmind_tool.py:85-95 | the sheet loop computes `ParseZen` |
| Legacy.Find | skills/xmind/scripts/xmind_tool.py:169 | `find` returns a child with the tag, and nothing exactly when no child has it; `Legacy.FindFirst` states that it is the first such child |
| Legacy.FindFirst | skills/xmind/scripts/xmind_tool.py:169 | a child with the tag and none before it is the one `find` returns, for any children |
| Legacy.FindAll | skills/xmind/scripts/xmind_tool.py:154 | `findall` returns children with the tag; `Legacy.FindAllConcat` and `Legacy.FindAllSnoc` state that it returns every such child, in order |
| Legacy.FindAllConcat | skills/xmind/scripts/xmind_tool.py:154 | `findall` of two runs of children is the `findall` of the first followed by that of the second, for any children |
| Legacy.FindAllSnoc | skills/xmind/scripts/xmind_tool.py:154 | one more child is added to the `findall` result exactly when it has the tag |
| Legacy.NonEmptyTexts | skills/xmind/scripts/xmind_tool.py:184-187 | only non-empty label texts are kept; the lemmas below state which and in what order |
| Legacy.TextsConcat | skills/xmind/scripts/xmind_tool.py:184-187 | the label filter over two runs of labels is the filter of the first followed by that of the second |
| Legacy.TextsSkipEmpty | skills/xmind/scripts/xmind_tool.py:184-187 | a label with empty text is skipped wherever it stands, for any surrounding labels |
| Legacy.TextsKeep | skills/xmind/scripts/xmind_tool.py:184-187 | a label with non-empty text is kept in its place, for any surrounding labels |
| Legacy.NonEmptyAttrs | skills/xmind/scripts/xmind_tool.py:195-199 | only non-empty marker ids are kept; the lemmas below state which and in what order |
| Legacy.AttrsConcat | skills/xmind/scripts/xmind_tool.py:195-199 | the marker-id filter over two runs of references is the filter of the first followed by that of the second |
| Legacy.AttrsSkipEmpty | skills/xmind/scripts/xmind_tool.py:195-199 | a reference with an empty or missing `marker-id` is skipped wherever it stands, for any surrounding references |
| Legacy.AttrsKeep | skills/xmind/scripts/xmind_tool.py:195-199 | a reference with a non-empty `marker-id` keeps that id in its place, for any surrounding references |
| Legacy.TopicsIn | skills/xmind/scripts/xmind_tool.py:206-207 | one topic per `topic` child of an attached group |
| Legacy.ParseLegacySheet | skills/xmind/scripts/xmind_tool.py:154-163 | an empty or missing title becomes `Sheet 1`; the id is the `id` attribute, or the generated one when that is empty or missing; the root exists exactly when a `topic` child does |
| Legacy.ParseLegacy | skills/xmind/scripts/xmind_tool.py:146-165 | one sheet per `sheet` element |
| Legacy.TopicToLegacy | skills/xmind/scripts/xmind_tool.py:568-601 | a `topic` element carrying the id and the link |
| Legacy.AttachedGroup | skills/xmind/scripts/xmind_tool.py:596-601 | the children are written in an attached group |
| Legacy.LegacyContent | skills/xmind/scripts/xmind_tool.py:534-546 | `create_legacy` writes a versioned root with one sheet element per sheet, in order |
| Legacy.FindSkip | skills/xmind/scripts/xmind_tool.py:169 | `find` skips children with other tags |
| Legacy.FindAllEvery | skills/xmind/scripts/xmind_tool.py:154 | `findall` over children that all have the tag returns them all |
| Legacy.CTagInjective | skills/xmind/scripts/xmind_tool.py:524-526 | distinct local names give distinct qualified tags |
| Legacy.LabelTexts | skills/xmind/scripts/xmind_tool.py:184-187 | non-empty labels written as elements read back |
| Legacy.LabelsRoundTrip | skills/xmind/scripts/xmind_tool.py:184-187 | the label group written reads back as the labels |
| Legacy.MarkerIdAttrs | skills/xmind/scripts/xmind_tool.py:195-199 | non-empty marker ids written as attributes read back |
| Legacy.MarkersRoundTrip | skills/xmind/scripts/xmind_tool.py:195-199 | the marker group written reads back as the markers |
| Legacy.LegacyFindTitle | skills/xmind/scripts/xmind_tool.py:169 | the title written is the one found |
| Legacy.LegacyFindNotes | skills/xmind/scripts/xmind_tool.py:176-180 | notes are found exactly when written |
| Legacy.LegacyFindLabels | skills/xmind/scripts/xmind_tool.py:183-187 | labels are found exactly when written |
| Legacy.LegacyFindMarkers | skills/xmind/scripts/xmind_tool.py:194-199 | marker references are found exactly when written |
| Legacy.LegacyFindChildren | skills/xmind/scripts/xmind_tool.py:202-207 | a children element is found exactly when written |
| Legacy.LegacyTopicRoundTrip | skills/xmind/scripts/xmind_tool.py:168-210 | `_parse_legacy_topic(_topic_to_legacy_xml(t)) == t` for non-empty ids, labels and marker ids, whatever the timestamp |
| Legacy.LegacyChildrenRoundTrip | skills/xmind/scripts/xmind_tool.py:202-207 | the children written read back |
| Legacy.SingleGroup | skills/xmind/scripts/xmind_tool.py:202-207 | one attached group yields that group's topics |
| Legacy.AttachedGroupRoundTrip | skills/xmind/scripts/xmind_tool.py:204-207 | the attached group written reads back as the children |
| Legacy.LegacySheetRoundTrip | skills/xmind/scripts/xmind_tool.py:154-163 | a written sheet reads back when its id and title are non-empty |
| Legacy.LegacyRoundTrip | skills/xmind/scripts/xmind_tool.py:146-165 | `parse_legacy` reads back the tree `create_legacy` builds |
| Legacy.UnattachedGroupIgnored | skills/xmind/scripts/xmind_tool.py:204-205 | a group of any type other than `attached` contributes no topics |
| Legacy.ParseLegacyTopicLoop | skills/xmind/scripts/xmind_tool.py:168-210 | the step-by-step method computes `ParseLegacyTopic` |
| Legacy.LabelsLoop | skills/xmind/scripts/xmind_tool.py:183-187 | the label loop appends the non-empty texts in order |
| Legacy.MarkersLoop | skills/xmind/scripts/xmind_tool.py:194-199 | the marker loop appends the non-empty ids in order |
| Legacy.ChildrenLoop | skills/xmind/scripts/xmind_tool.py:202-207 | the children loop computes `ChildTopics` |
| Legacy.GroupLoop | skills/xmind/scripts/xmind_tool.py:206-207 | the inner loop parses a group's topics in order |
| Legacy.ParseLegacyLoop | skills/xmind/scripts/xmind_tool.py:146-165 | the sheet loop computes `ParseLegacy` |
| Legacy.ParseLegacySheetOnce | skills/xmind/scripts/xmind_tool.py:155-163 | one turn of the sheet loop computes `ParseLegacySheet` |
| Text.LStrip | skills/xmind/scripts/xmind_tool.py:316 | the result is no longer and starts with no whitespace |
| Text.LStripShape | skills/xmind/scripts/xmind_tool.py:316 | `lstrip` removes an all-whitespace prefix and keeps the rest |
| Text.RStripShape | skills/xmind/scripts/xmind_tool.py:316 | `rstrip` removes an all-whitespace suffix and keeps the rest |
| Text.JoinSplit | skills/xmind/scripts/xmind_tool.py:295 | joining the parts of a split with the separator gives the string back |
| Text.SplitAtFirst | skills/xmind/scripts/xmind_tool.py:295 | the first cut is at the leftmost separator |
| Text.SplitJoinChar | skills/xmind/scripts/xmind_tool.py:306 | splitting a join of separator-free parts on a one-character separator gives the parts back |
| Text.SplitLinesJoin | skills/xmind/scripts/xmind_tool.py:252 | `splitlines` of a newline join of non-empty one-line strings gives them back |
| Text.StripPadded | skills/xmind/scripts/xmind_tool.py:298 | `strip` removes exactly the whitespace around a trimmed string |
| MarkdownEncode.SheetsToMarkdownLoop | skills/xmind/scripts/xmind_tool.py:217-239 | the loop over sheets computes `SheetsToMarkdown` |
| MarkdownEncode.AppendRoot | skills/xmind/scripts/xmind_tool.py:226-234 | the root's heading, metadata block and blank part are appended |
| MarkdownEncode.AppendChildren | skills/xmind/scripts/xmind_tool.py:236-237 | each child's text is appended at depth 0 |
| MarkdownEncode.TopicLines | skills/xmind/scripts/xmind_tool.py:257-285 | a topic's text starts with its bullet line |
| MarkdownEncode.TopicToMdLines | skills/xmind/scripts/xmind_tool.py:257-285 | `_topic_to_md` is the newline join of the topic's lines |
| MarkdownEncode.MetaBlockEmpty | skills/xmind/scripts/xmind_tool.py:242-254 | the metadata block is empty exactly when it has no lines |
| MarkdownEncode.SheetsToMarkdownLines | skills/xmind/scripts/xmind_tool.py:217-239 | `sheets_to_markdown` is the newline join of the document's lines |
| MarkdownDecode.LineBody | skills/xmind/scripts/xmind_tool.py:361 | `(.+)$` captures a one-line prefix of the rest, all of it when there is no newline |
| MarkdownDecode.ItemMatch | skills/xmind/scripts/xmind_tool.py:361 | an item line has its indent, then `- `, then a non-empty one-line title |
| MarkdownDecode.BulletIndent | skills/xmind/scripts/xmind_tool.py:382 | a line is a bullet exactly when `- ` follows its indent |
| MarkdownDecode.QuoteMatch | skills/xmind/scripts/xmind_tool.py:393 | a quote line has its indent, then `> `, then one line of text |
| MarkdownDecode.BlankStrip | skills/xmind/scripts/xmind_tool.py:376-378 | a line is all whitespace exactly when `strip()` empties it |
| MarkdownDecode.TagAtShape | skills/xmind/scripts/xmind_tool.py:432-434 | a tag match is the opening, at least one value character, and the closing brace |
| MarkdownDecode.SearchTag | skills/xmind/scripts/xmind_tool.py:434 | a match found starts at or after the search position |
| MarkdownDecode.SearchTagLeftmost | skills/xmind/scripts/xmind_tool.py:434 | the match found is the leftmost one, and none is found only when there is none |
| MarkdownDecode.KeepStripped | skills/xmind/scripts/xmind_tool.py:438 | the values kept are non-empty and no more than the parts |
| MarkdownDecode.ApplyTag | skills/xmind/scripts/xmind_tool.py:436-441 | a tag sets only labels, link or markers |
| MarkdownDecode.TagStep | skills/xmind/scripts/xmind_tool.py:433-442 | the text is cut exactly when a tag of the key is found |
| MarkdownDecode.TagFold | skills/xmind/scripts/xmind_tool.py:432-442 | the tag passes never grow the text and leave title, children, notes and id alone |
| MarkdownDecode.ParseTitleMeta | skills/xmind/scripts/xmind_tool.py:427-444 | a fresh topic with a trimmed title no longer than the text |
| MarkdownDecode.ParseTitleMetaLoop | skills/xmind/scripts/xmind_tool.py:427-444 | the loop over the keys computes `ParseTitleMeta` |
| MarkdownDecode.ParseTag | skills/xmind/scripts/xmind_tool.py:433-442 | one turn of the key loop computes `TagStep` |
| MarkdownDecode.PlainTitle | skills/xmind/scripts/xmind_tool.py:427-444 | a text without `{` carries no tags and becomes the stripped title |
| MarkdownDecode.Unquote | skills/xmind/scripts/xmind_tool.py:451 | a leading `>` and the whitespace after it are removed; other lines are kept |
| MarkdownDecode.MetaStep | skills/xmind/scripts/xmind_tool.py:450-459 | a line sets a field or adds one unquoted note line |
| MarkdownDecode.ApplyBlockMeta | skills/xmind/scripts/xmind_tool.py:447-461 | the title, children and id are kept |
| MarkdownDecode.ApplyBlockMetaLoop | skills/xmind/scripts/xmind_tool.py:447-461 | the loop over the quoted lines computes `ApplyBlockMeta` |
| MarkdownDecode.ApplyMetaLine | skills/xmind/scripts/xmind_tool.py:450-459 | one turn of that loop computes `MetaStep` |
| MarkdownDecode.NotesInOrder | skills/xmind/scripts/xmind_tool.py:450-461 | quoted lines with no field prefix all become notes, unquoted, in order |
| MarkdownDecode.Classify | skills/xmind/scripts/xmind_tool.py:373-414 | a note is taken only before any child line, and holds no newline |
| MarkdownDecode.Scan | skills/xmind/scripts/xmind_tool.py:373-414 | the inner loop stops within the lines and collects at most the lines it passed |
| MarkdownDecode.ParseItemsFrom | skills/xmind/scripts/xmind_tool.py:359-422 | at most one topic per remaining line |
| MarkdownDecode.MakeItem | skills/xmind/scripts/xmind_tool.py:416-422 | a fresh topic with a trimmed title; no child lines give no children, no note lines give no notes |
| MarkdownDecode.ParseMdItems | skills/xmind/scripts/xmind_tool.py:354-424 | the outer loop computes `ParseItems` |
| MarkdownDecode.ParseItem | skills/xmind/scripts/xmind_tool.py:360-422 | one item yields one topic and moves forward |
| MarkdownDecode.ScanItem | skills/xmind/scripts/xmind_tool.py:373-414 | the inner loop computes `Scan` |
| MarkdownDecode.ScanLine | skills/xmind/scripts/xmind_tool.py:374-414 | one turn of the inner loop either stops or advances `Scan` by one line |
| MarkdownDecode.ClassifyLine | skills/xmind/scripts/xmind_tool.py:374-414 | the source's tests, in order, compute `Classify` |
| MarkdownDecode.SkipNonItems | skills/xmind/scripts/xmind_tool.py:361-364 | lines that start no item are skipped |
| MarkdownDecode.SiblingEndsItem | skills/xmind/scripts/xmind_tool.py:382-389 | a bullet at or above the item's indent ends the item |
| MarkdownDecode.BlockStep | skills/xmind/scripts/xmind_tool.py:315-339 | the body phase is never left, and each line adds at most one body line |
| MarkdownDecode.BlockRoot | skills/xmind/scripts/xmind_tool.py:344-349 | the root has the block's root title and a generated id; no body lines give no children |
| MarkdownDecode.ParseSheetBlockShape | skills/xmind/scripts/xmind_tool.py:341-342 | a block describes no sheet exactly when it has no root title and no body lines |
| MarkdownDecode.ParseSheetBlockLoop | skills/xmind/scripts/xmind_tool.py:304-351 | the method computes `ParseSheetBlock` |
| MarkdownDecode.RunBlockLoop | skills/xmind/scripts/xmind_tool.py:313-339 | the phase loop computes `RunBlock` |
| MarkdownDecode.DefaultSheetTitle | skills/xmind/scripts/xmind_tool.py:308-326 | without a `# Sheet:` heading the title stays `Sheet 1` |
| MarkdownDecode.BlankBlock | skills/xmind/scripts/xmind_tool.py:318-321 | a block of blank lines leaves the initial state |
| MarkdownDecode.KeepSome | skills/xmind/scripts/xmind_tool.py:299-300 | only present sheets are kept |
| MarkdownDecode.MarkdownToSheetsLoop | skills/xmind/scripts/xmind_tool.py:292-301 | the method computes `MarkdownToSheets` |
| MarkdownDecode.KeepBlockSheets | skills/xmind/scripts/xmind_tool.py:297-300 | the block loop keeps the sheets of the blocks that describe one, in order |
| MarkdownDecode.KeepSomeAppend | skills/xmind/scripts/xmind_tool.py:297-300 | order is kept across runs of blocks |
| MarkdownDecode.KeepSomeAll | skills/xmind/scripts/xmind_tool.py:297-300 | when every block describes a sheet, all are kept in order |
| MarkdownDecode.KeepSomeNone | skills/xmind/scripts/xmind_tool.py:297-300 | blocks that describe no sheet leave nothing |
| OutlineTags.SplitListJoined | skills/xmind/scripts/xmind_tool.py:437-438 | a `, ` join of ready values splits back into the values |
| OutlineTags.TitleMetaRoundTrip | skills/xmind/scripts/xmind_tool.py:427-444 | `_parse_title_meta` reads back the title, labels, link and markers of the bullet text `_topic_to_md` writes |
| OutlineItems.NoteLinesTexts | skills/xmind/scripts/xmind_tool.py:277-279 | a topic's note lines are its note texts behind the quote prefix |
| OutlineItems.TopicBelow | skills/xmind/scripts/xmind_tool.py:373-412 | every line of a ready topic written one level deeper stays inside the item |
| OutlineItems.ForestBelow | skills/xmind/scripts/xmind_tool.py:373-412 | so does every line of its ready children |
| OutlineItems.ScanNotes | skills/xmind/scripts/xmind_tool.py:393-400 | the inner loop takes a topic's note lines as its notes |
| OutlineItems.ScanChildren | skills/xmind/scripts/xmind_tool.py:382-412 | the inner loop takes the children's lines as child lines |
| OutlineItems.TopicItem | skills/xmind/scripts/xmind_tool.py:359-422 | one topic's lines parse back to the topic, without its identifiers |
| OutlineItems.ForestItems | skills/xmind/scripts/xmind_tool.py:359-422 | sibling topics' lines parse back to the siblings, followed by what comes after them |
| OutlineItems.ParseForest | skills/xmind/scripts/xmind_tool.py:354-424 | `_parse_md_items` reads back, up to identifiers, the ready sibling topics whose lines `_topic_to_md` writes |
| OutlineSheets.RunBlockFrom | skills/xmind/scripts/xmind_tool.py:313-339 | the phase loop over a block is the step function run over its lines from the initial state |
| OutlineSheets.BlanksRun | skills/xmind/scripts/xmind_tool.py:318-321 | blank lines before the body change nothing |
| OutlineSheets.BodyRun | skills/xmind/scripts/xmind_tool.py:318-320 | once in the body, every line is kept as a body line, blank or not |
| OutlineSheets.MetaRun | skills/xmind/scripts/xmind_tool.py:333-335 | after the root heading, `>` lines are collected stripped, in order, and the phase stays |
| OutlineSheets.BodyStart | skills/xmind/scripts/xmind_tool.py:337-339 | a bullet line after the root's metadata starts the body and is its first line |
| OutlineSheets.SheetHeadingRead | skills/xmind/scripts/xmind_tool.py:323-324 | the `# Sheet:` heading `sheets_to_markdown` writes gives back a trimmed one-line title |
| OutlineSheets.RootHeadingRead | skills/xmind/scripts/xmind_tool.py:328-329 | the `## ` heading written for the root gives back a trimmed one-line, non-empty title |
| OutlineSheets.HeadRun | skills/xmind/scripts/xmind_tool.py:224-227 | the sheet heading, the blank line and the root heading lead the machine to the root-metadata phase with both titles |
| OutlineSheets.MetaQuoted | skills/xmind/scripts/xmind_tool.py:242-254 | every line of the metadata block starts with `>` |
| OutlineSheets.LabelsLineRead | skills/xmind/scripts/xmind_tool.py:246 | the `Labels:` line written gives back the labels |
| OutlineSheets.LinkLineRead | skills/xmind/scripts/xmind_tool.py:248 | the `Link:` line written gives back the link |
| OutlineSheets.MarkersLineRead | skills/xmind/scripts/xmind_tool.py:250 | the `Markers:` line written gives back the markers |
| OutlineSheets.NoteLineRead | skills/xmind/scripts/xmind_tool.py:253 | a quoted note line gives back the note line |
| OutlineSheets.NotesPartRead | skills/xmind/scripts/xmind_tool.py:458-461 | quoted note lines that are not field lines give back the notes joined by newlines |
| OutlineSheets.RootMetaRead | skills/xmind/scripts/xmind_tool.py:447-461 | `_apply_block_meta` on the stripped metadata block gives back the root's labels, link, markers and notes |
| OutlineSheets.SheetPlain | skills/xmind/scripts/xmind_tool.py:217-239 | no line of a ready sheet's text holds a newline or is `---` |
| OutlineSheets.NotesSolid | skills/xmind/scripts/xmind_tool.py:251-253 | notes that end with a kept character write a last line that does |
| OutlineSheets.CoreSplit | skills/xmind/scripts/xmind_tool.py:224-237 | a sheet's lines are its core lines followed by blank lines only |
| OutlineSheets.CoreRun | skills/xmind/scripts/xmind_tool.py:313-339 | the core lines of a sheet with a root leave both titles, the stripped metadata lines and the outline as the body |
| OutlineSheets.CoreSolid | skills/xmind/scripts/xmind_tool.py:224-237 | the core lines start with the sheet heading and end with a kept character |
| OutlineSheets.Recovered | skills/xmind/scripts/xmind_tool.py:341-351 | a sheet is read back exactly when it has a root, with its title and the root up to identifiers |
| OutlineSheets.RootBack | skills/xmind/scripts/xmind_tool.py:344-349 | the state the core lines leave gives back the root topic, up to identifiers |
| OutlineSheets.CoreParse | skills/xmind/scripts/xmind_tool.py:304-351 | `_parse_sheet_block` of the joined core lines gives back the sheet, up to identifiers |
| OutlineSheets.BlockStrip | skills/xmind/scripts/xmind_tool.py:298 | `strip()` of a sheet's block, padded with blank lines, leaves its joined core lines |
| OutlineSheets.RootlessBlock | skills/xmind/scripts/xmind_tool.py:341-342 | the block of a sheet without a root holds only its heading and describes no sheet |
| OutlineSheets.SheetBlockRead | skills/xmind/scripts/xmind_tool.py:298-300 | a ready sheet's padded block reads back as the sheet up to identifiers, or as nothing when the sheet has no root |
| OutlineSheets.LineStart | skills/xmind/scripts/xmind_tool.py:295 | a written line never starts the `---` of a separator |
| OutlineSheets.NoSepIn | skills/xmind/scripts/xmind_tool.py:295 | the separator `\n---\n` never occurs inside the joined lines of a block |
| OutlineSheets.DocLinesCons | skills/xmind/scripts/xmind_tool.py:220-224 | a document of several sheets is the first sheet's lines, the rule, then the rest |
| OutlineSheets.DocSplit | skills/xmind/scripts/xmind_tool.py:295 | cutting at the separator takes off exactly the first sheet's block |
| OutlineSheets.LastSplit | skills/xmind/scripts/xmind_tool.py:295 | the last sheet's block is not cut |
| OutlineSheets.DocBlocks | skills/xmind/scripts/xmind_tool.py:295-298 | each block of the written document reads back as its sheet, in order |
| OutlineSheets.EmptyDocument | skills/xmind/scripts/xmind_tool.py:292-301 | no sheets are written as an empty text, which reads back as no sheets |
| OutlineSheets.OutlineRoundTrip | skills/xmind/scripts/xmind_tool.py:217-301 | `markdown_to_sheets(sheets_to_markdown(sheets))` gives back, in order, every ready sheet that has a root, up to identifiers; a sheet without a root is dropped |
| OutlineSheets.OutlineRoundTripRooted | skills/xmind/scripts/xmind_tool.py:217-301 | when every sheet is ready and has a root, the round trip gives back all the sheets, up to identifiers |

## Left out

- Archive access (`zipfile`), JSON text (`json.loads`, `json.dumps`) and XML text (`ElementTree` parsing and serialisation) are left out. The codecs work on the loaded values: `Zen.Json` and `Legacy.Elem`.
- The uuid generator is left out. Every generated identifier is the constant `Model.FreshId`. Results are stated up to identifiers where the source generates them.
- The clock (`time.time()`) is left out. Timestamps are a parameter. One `stamp` stands for all clock reads of one `create_legacy` call, so every sheet and topic element carries the same timestamp, where the source may write different ones. Timestamps are never read back, so the round trips do not depend on this.
- File reading and writing in `update_xmind`, the memory-file helpers and the command line are left out. Only the choice of encoder by detected variant is modelled (`Detect.PackageEntries`).
- Python's general regular-expression engine is left out. Each pattern the core uses is modelled as the function it computes on a line.
- A loaded JSON object is a list of key-value entries whose keys are assumed distinct, as `json.loads` gives them; the assumption is not enforced. For text with a repeated key, `json.loads` keeps the last value, while `Zen.Get` returns the first entry.
- In the zen codec, a JSON value of another type where the source keeps whatever it reads (a non-string title, say) is an error in the model. The model's string fields cannot hold such a value.
- The outline round trip over whole documents (`OutlineSheets.OutlineRoundTrip`) holds for ready sheets only. Readiness excludes what the Markdown cannot carry:
  - a sheet or root title with surrounding whitespace or a newline;
  - an empty root title;
  - a root label or marker that is empty, untrimmed, or holds `,` or a newline (the predicate also excludes `{` and `}`: the `Labels:` and `Markers:` lines carry braces, but the model reuses the value predicate of the inline tags, so this condition is sufficient and stronger than needed);
  - a root link with surrounding whitespace or a newline;
  - root notes whose last character is whitespace, whose lines are untrimmed, or that have a line starting with `Labels:`, `Link:` or `Markers:`, or a line boundary other than `\n`;
  - a child topic that is not ready for `OutlineItems.ParseForest`;
  - an outline whose last written line ends in whitespace.
