/** The template store used outside production: templates read from an
    embedded directory tree `templates/<event>/<channel>/<locale><ext>`, with
    the subject in the sibling `<locale>.json`. The embedded tree is a map
    from file path to contents. */
module TemplateFiles {
  import opened Common
  import opened NotificationRepository

  const HtmlType: string := "text/html"
  const JsonType: string := "application/json"
  const TextType: string := "text/plain"
  const HtmlExt: string := ".html"
  const JsonExt: string := ".json"
  const TextExt: string := ".txt"

  /** The extensions the store prefers for its three content types. */
  const Preferred: map<string, string> := map[HtmlType := HtmlExt, JsonType := JsonExt, TextType := TextExt]

  /** `PreferredExt`: the preferred extension, else the first one the system's
      MIME table lists (`systemExts`, an input), else "". */
  function PreferredExt(mimeType: string, systemExts: string -> seq<string>): (ext: string)
    ensures mimeType in Preferred ==> ext == Preferred[mimeType]
    ensures mimeType !in Preferred && systemExts(mimeType) != [] ==> ext == systemExts(mimeType)[0]
    ensures mimeType !in Preferred && systemExts(mimeType) == [] ==> ext == ""
  {
    if mimeType in Preferred then Preferred[mimeType]
    else if systemExts(mimeType) != [] then systemExts(mimeType)[0]
    else ""
  }

  /** The three content types get their own extensions whatever the system table says. */
  lemma PreferredExtensions(systemExts: string -> seq<string>)
    ensures PreferredExt("text/html", systemExts) == ".html"
    ensures PreferredExt("application/json", systemExts) == ".json"
    ensures PreferredExt("text/plain", systemExts) == ".txt"
  {
    assert HtmlType in Preferred && JsonType in Preferred && TextType in Preferred;
  }

  /** The non-empty elements of `elems`, joined by "/" (`path.Join` on
      elements that are already clean). */
  function Join(elems: seq<string>): (p: string)
    decreases |elems|
  {
    if elems == [] then ""
    else if elems[0] == "" then Join(elems[1..])
    else if Join(elems[1..]) == "" then elems[0]
    else elems[0] + "/" + Join(elems[1..])
  }

  /** Joining names that are all non-empty puts one "/" between neighbours. */
  lemma JoinPair(a: string, b: string)
    requires a != "" && b != ""
    ensures Join([a, b]) == a + "/" + b
  {
    assert [a, b][1..] == [b];
    assert [b][1..] == [];
    assert Join([b]) == b;
  }

  lemma JoinTriple(a: string, b: string, c: string)
    requires a != "" && b != "" && c != ""
    ensures Join([a, b, c]) == a + "/" + b + "/" + c
  {
    assert [a, b, c][1..] == [b, c];
    JoinPair(b, c);
  }

  const TemplatesDir: string := "templates"

  /** `directory()`: the event's and channel's folder; the scope takes no part. */
  function Directory(t: FindTemplateParams): (d: string)
    ensures d != ""
    ensures t.event != "" && t.channel != "" ==> d == TemplatesDir + "/" + t.event + "/" + t.channel
  {
    if t.event != "" && t.channel != "" then JoinTriple(TemplatesDir, t.event, t.channel); Join([TemplatesDir, t.event, t.channel])
    else Join([TemplatesDir, t.event, t.channel])
  }

  /** Parameters that differ only in scope name the same directory. */
  lemma DirectoryIgnoresScope(t: FindTemplateParams, scope: string)
    ensures Directory(t.(scope := scope)) == Directory(t)
  {
  }

  function UnsupportedMimetype(m: string): string {
    "unsupported mimetype: " + m
  }

  /** `contentPath()`: only the three preferred types have a content file. */
  function ContentPath(t: FindTemplateParams): (r: Result<string, string>)
    ensures t.mimetype !in Preferred <==> r == Err(UnsupportedMimetype(t.mimetype))
    ensures r.Ok? ==> t.mimetype in Preferred && r.value == Join([Directory(t), t.locale + Preferred[t.mimetype]])
  {
    if t.mimetype !in Preferred then Err(UnsupportedMimetype(t.mimetype))
    else Ok(Join([Directory(t), t.locale + Preferred[t.mimetype]]))
  }

  /** `metadataPath()`: the locale's JSON file in the same directory. */
  function MetadataPath(t: FindTemplateParams): string {
    Join([Directory(t), t.locale + JsonExt])
  }

  /** A JSON template is its own metadata file. */
  lemma JsonTemplateIsItsMetadata(t: FindTemplateParams)
    requires t.mimetype == JsonType
    ensures ContentPath(t) == Ok(MetadataPath(t))
  {
  }

  /** Every other supported type has a content file distinct from the metadata. */
  lemma ContentBesideMetadata(t: FindTemplateParams)
    requires t.mimetype == HtmlType || t.mimetype == TextType
    ensures ContentPath(t).Ok? && ContentPath(t).value != MetadataPath(t)
  {
    var d := Directory(t);
    var ext := Preferred[t.mimetype];
    JoinPair(d, t.locale + ext);
    JoinPair(d, t.locale + JsonExt);
    var a := d + "/" + (t.locale + ext);
    var b := d + "/" + (t.locale + JsonExt);
    assert a[|a| - 1] == ext[|ext| - 1] && b[|b| - 1] == 'n';
  }

  /** `fs.ErrNotExist` as `ReadFile` reports it for a path. */
  function NotExist(path: string): string {
    "open " + path + ": file does not exist"
  }

  /** `string(content)`: a Go string holds the bytes as they are. */
  function BytesToString(b: seq<Byte>): (s: string)
    ensures |s| == |b|
    ensures forall i :: 0 <= i < |b| ==> s[i] as int == b[i] as int
  {
    seq(|b|, i requires 0 <= i < |b| => (b[i] as int) as char)
  }

  /** `FindTemplate` over the embedded tree `files`: the content path, the
      content file, the metadata file and its JSON (`decodeSubject`, which
      yields the `subject` field) must all succeed, in that order. `uid` is
      the fresh `uuid.New()`. */
  function FindTemplate(files: map<string, seq<Byte>>, params: FindTemplateParams, uid: Uuid,
                        decodeSubject: seq<Byte> -> Result<string, string>): (r: Result<Template, string>)
    ensures params.mimetype !in Preferred ==> r == Err(UnsupportedMimetype(params.mimetype))
    ensures ContentPath(params).Ok? && ContentPath(params).value !in files ==> r == Err(NotExist(ContentPath(params).value))
    ensures (ContentPath(params).Ok? && ContentPath(params).value in files && MetadataPath(params) !in files) ==>
              r == Err(NotExist(MetadataPath(params)))
    ensures (ContentPath(params).Ok? && ContentPath(params).value in files && MetadataPath(params) in files
             && decodeSubject(files[MetadataPath(params)]).Err?) ==>
              r == Err(decodeSubject(files[MetadataPath(params)]).error)
    ensures r.Ok? <==> && ContentPath(params).Ok? && ContentPath(params).value in files && MetadataPath(params) in files
                       && decodeSubject(files[MetadataPath(params)]).Ok?
    ensures r.Ok? ==>
              && r.value.id == Directory(params) && r.value.uid == uid
              && r.value.body == BytesToString(files[ContentPath(params).value])
              && r.value.subject == decodeSubject(files[MetadataPath(params)]).value
              && r.value.event == params.event && r.value.channel == params.channel && r.value.locale == params.locale
              && r.value.mimetype == params.mimetype && r.value.scope == params.scope
  {
    match ContentPath(params)
    case Err(e) => Err(e)
    case Ok(contentPath) =>
      if contentPath !in files then Err(NotExist(contentPath))
      else if MetadataPath(params) !in files then Err(NotExist(MetadataPath(params)))
      else
        match decodeSubject(files[MetadataPath(params)])
        case Err(e) => Err(e)
        case Ok(subject) =>
          Ok(Template(Directory(params), uid, params.event, params.channel, params.locale, subject,
                      BytesToString(files[contentPath]), params.mimetype, params.scope))
  }

  /** A template found on disk matches the parameters it was looked up with,
      in all five fields, as the document store's lookup would require. */
  lemma FoundTemplateMatches(files: map<string, seq<Byte>>, params: FindTemplateParams, uid: Uuid,
                             decodeSubject: seq<Byte> -> Result<string, string>)
    requires FindTemplate(files, params, uid, decodeSubject).Ok?
    ensures Matches(FindTemplate(files, params, uid, decodeSubject).value, params)
  {
  }

  /** `CreateTemplate`: the embedded tree is read-only. */
  function CreateTemplate(template: Template): (r: Result<Template, string>)
    ensures r == Err("not supported")
  {
    Err("not supported")
  }
}
