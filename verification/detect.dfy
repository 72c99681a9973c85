/** Which package variant an archive holds, decided from its entry names only. */
module Detect {
  import opened Wrappers

  datatype Format = Zen | Legacy

  /** The archive holds neither marker entry; carries the names found. */
  datatype FormatUnrecognized = FormatUnrecognized(names: seq<string>)

  /** `detect_format`: `content.json` wins over `content.xml`; neither fails. */
  function DetectFormat(names: seq<string>): (r: Result<Format, FormatUnrecognized>)
    ensures r == Ok(Zen) <==> "content.json" in names
    ensures r == Ok(Legacy) <==> "content.json" !in names && "content.xml" in names
    ensures r.Err? <==> "content.json" !in names && "content.xml" !in names
    ensures r.Err? ==> r.error.names == names
  {
    if "content.json" in names then Ok(Zen)
    else if "content.xml" in names then Ok(Legacy)
    else Err(FormatUnrecognized(names))
  }

  /** The entries each encoder writes (`create_zen`: content.json and
      metadata.json; `create_legacy`: content.xml and META-INF/manifest.xml).
      Detection recognises each package as the variant that wrote it, so an
      update, which re-encodes with the detected variant, never switches it. */
  function PackageEntries(f: Format): (names: seq<string>)
    ensures DetectFormat(names) == Ok(f)
  {
    match f
    case Zen => ["content.json", "metadata.json"]
    case Legacy => ["content.xml", "META-INF/manifest.xml"]
  }
}
