/**
 * The native commands of src-tauri/src/lib.rs that carry logic: building a
 * new generation task, exporting content to a file in one of three formats,
 * exporting a batch, and previewing an export. The file system is a map from
 * path to file text, plus a fixed set of paths whose writes fail.
 */
module Backend {
  import opened Js

  /** Rust's `u32` and `u64`. */
  type U32 = x: int | 0 <= x < 0x1_0000_0000

  type U64 = x: int | 0 <= x < 0x1_0000_0000_0000_0000

  /** `Uuid::new_v4().to_string()`: the 36-character hyphenated form. */
  type UuidText = s: string | |s| == 36 witness "00000000-0000-0000-0000-000000000000"

  datatype GeneratedArticle = GeneratedArticle(title: string, content: string, wordCount: U32)

  datatype GenerationTask = GenerationTask(
    id: string,
    companyInfo: string,
    productInfo: string,
    articleCount: U32,
    status: string,
    progress: U32,
    createdAt: U64,
    completedAt: Option<U64>,
    articles: Option<seq<GeneratedArticle>>)

  // ---------------------------------------------------------------------
  // create_generation_task

  /**
   * `create_generation_task`: a new task keeps the caller's inputs, gets the
   * generated id and the clock reading `now` (seconds since the epoch), and
   * starts pending, at progress 0, unfinished and without articles.
   */
  function CreateGenerationTask(companyInfo: string, productInfo: string, articleCount: U32,
                                id: UuidText, now: U64): (t: GenerationTask)
    ensures t.id == id && t.id != []
    ensures t.companyInfo == companyInfo && t.productInfo == productInfo && t.articleCount == articleCount
    ensures t.status == "pending" && t.progress == 0 && t.createdAt == now
    ensures t.completedAt.None? && t.articles.None?
  {
    GenerationTask(id, companyInfo, productInfo, articleCount, "pending", 0, now, None, None)
  }

  // ---------------------------------------------------------------------
  // export_content

  datatype ExportOptions = ExportOptions(format: string, filename: Option<string>)

  datatype ExportResult = ExportResult(success: bool, filePath: Option<string>, error: Option<string>, fileSize: Option<nat>)

  /** `export_{secs}.{format}`, the file name used when the caller gives none. */
  function DefaultFilename(format: string, now: nat): string
  {
    "export_" + NatToString(now) + "." + format
  }

  /** The default file name carries the clock reading, which parseInt reads back from it. */
  lemma DefaultFilenameShape(format: string, now: nat)
    ensures var f := DefaultFilename(format, now);
            && |f| > 7 && f[..7] == "export_"
            && f[|f| - |format| - 1..] == "." + format
            && ParseInt(f[7..]) == Some(now)
  {
    var f := DefaultFilename(format, now);
    var digits := NatToString(now);
    var ext := "." + format;
    assert f == "export_" + (digits + ext);
    assert f[7..] == digits + ext;
    assert f[|f| - |format| - 1..] == ext;
    ParseIntOfNumeral(now, ext);
  }

  function FilenameOf(options: ExportOptions, now: nat): string
  {
    match options.filename
    case Some(name) => name
    case None => DefaultFilename(options.format, now)
  }

  /** `PathBuf::from("./exports").join(filename)` on a Unix system: an absolute name replaces the directory. */
  function ExportPath(filename: string): string
  {
    if filename != [] && filename[0] == '/' then filename else "./exports/" + filename
  }

  /** Different file names never end up at the same path. */
  lemma ExportPathInjective(f1: string, f2: string)
    ensures ExportPath(f1) == ExportPath(f2) ==> f1 == f2
  {
    var p1, p2 := ExportPath(f1), ExportPath(f2);
    if p1 == p2 {
      var rel1 := !(f1 != [] && f1[0] == '/');
      var rel2 := !(f2 != [] && f2[0] == '/');
      assert rel1 ==> p1[0] == '.';
      assert rel2 ==> p2[0] == '.';
      if rel1 && rel2 {
        assert f1 == p1[10..] && f2 == p2[10..];
      }
    }
  }

  const HtmlTail: string := "</pre></body></html>"

  /** The start of the fixed html page, up to the opening `<pre>`. */
  function HtmlHead(title: string): string
  {
    "<!DOCTYPE html><html><head><title>" + title + "</title></head><body><pre>"
  }

  /** The fixed html page around exported or previewed text, with the given page title. */
  function HtmlPage(title: string, body: string): string
  {
    HtmlHead(title) + body + HtmlTail
  }

  /** What `export_content` decides to do before touching the disk. */
  datatype ExportPlan = Unsupported(format: string) | WriteFile(path: string, data: string)

  function PlanExport(content: string, options: ExportOptions, now: nat): ExportPlan
  {
    var path := ExportPath(FilenameOf(options, now));
    match options.format
    case "txt" => WriteFile(path, content)
    case "html" => WriteFile(path, HtmlPage("Export", content))
    case "markdown" => WriteFile(path, content)
    case _ => Unsupported(options.format)
  }

  /**
   * Only txt, html and markdown are written, to the path of the given file
   * name or of the default one; txt and markdown write the content as it is.
   */
  lemma PlanExportSpec(content: string, options: ExportOptions, now: nat)
    ensures var plan := PlanExport(content, options, now);
            && (plan.Unsupported? <==> options.format !in {"txt", "html", "markdown"})
            && (plan.Unsupported? ==> plan.format == options.format)
            && (plan.WriteFile? ==> plan.path == ExportPath(FilenameOf(options, now)))
            && (options.format in {"txt", "markdown"} ==> plan.WriteFile? && plan.data == content)
  {
  }

  /** The html export puts the content, unescaped, between a fixed head and tail. */
  lemma PlanExportHtml(content: string, filename: Option<string>, now: nat)
    ensures var plan := PlanExport(content, ExportOptions("html", filename), now);
            var head := HtmlHead("Export");
            && plan.WriteFile?
            && |plan.data| == |head| + |content| + |HtmlTail|
            && plan.data[..|head|] == head
            && plan.data[|head|..|head| + |content|] == content
            && plan.data[|head| + |content|..] == HtmlTail
  {
    var head := HtmlHead("Export");
    var data := HtmlPage("Export", content);
    assert PlanExport(content, ExportOptions("html", filename), now).data == data;
    assert data[..|head|] == head;
    assert data[|head|..|head| + |content|] == content;
    assert data[|head| + |content|..] == HtmlTail;
  }

  /** The byte length of the UTF-8 encoding of `s`, which `fs::metadata(..).len()` reports. */
  function Utf8Length(s: string): nat
  {
    if s == [] then 0
    else
      var c := s[|s| - 1] as int;
      Utf8Length(s[..|s| - 1]) + (if c < 0x80 then 1 else if c < 0x800 then 2 else if c < 0x1_0000 then 3 else 4)
  }

  /** Each character takes one to four bytes, and exactly one when all are ASCII. */
  lemma {:induction false} Utf8LengthBounds(s: string)
    ensures |s| <= Utf8Length(s) <= 4 * |s|
    ensures (forall i :: 0 <= i < |s| ==> s[i] as int < 0x80) ==> Utf8Length(s) == |s|
  {
    if s != [] {
      Utf8LengthBounds(s[..|s| - 1]);
    }
  }

  /** The outcome of carrying out `plan` when the writes to the paths in `failures` fail with the given message. */
  function ExportOutcome(plan: ExportPlan, failures: map<string, string>): Result<ExportResult, string>
  {
    match plan
    case Unsupported(f) => Ok(ExportResult(false, None, Some("Unsupported format: " + f), None))
    case WriteFile(path, data) =>
      if path in failures then Err(failures[path])
      else Ok(ExportResult(true, Some(path), None, Some(Utf8Length(data))))
  }

  /** The files after carrying out `plan`. */
  function AfterExport(files: map<string, string>, plan: ExportPlan, failures: map<string, string>): map<string, string>
  {
    if plan.WriteFile? && plan.path !in failures then files[plan.path := plan.data] else files
  }

  /**
   * A successful export names a file that now holds exactly the written
   * text and reports that file's size; an unsupported format reports no
   * path and no size and leaves the files alone.
   */
  lemma ExportOutcomeSpec(files: map<string, string>, plan: ExportPlan, failures: map<string, string>)
    ensures var out := ExportOutcome(plan, failures);
            var after := AfterExport(files, plan, failures);
            && (out.Ok? && out.value.success ==>
                  && plan.WriteFile?
                  && out.value.filePath == Some(plan.path)
                  && plan.path in after && after[plan.path] == plan.data
                  && out.value.fileSize == Some(Utf8Length(after[plan.path]))
                  && out.value.error.None?)
            && (plan.Unsupported? ==>
                  && out == Ok(ExportResult(false, None, Some("Unsupported format: " + plan.format), None))
                  && after == files)
            && (out.Err? ==> plan.WriteFile? && plan.path in failures && after == files)
  {
  }

  /** The disk: file contents by path, and the paths whose writes fail with an error message. */
  class FileSystem {
    var files: map<string, string>
    const failures: map<string, string>

    constructor(files0: map<string, string>, failures0: map<string, string>)
      ensures files == files0 && failures == failures0
    {
      files := files0;
      failures := failures0;
    }

    /** `fs::write(path, data)`. */
    method Write(path: string, data: string) returns (r: Result<(), string>)
      modifies this
      ensures path in failures ==> r == Err(failures[path]) && files == old(files)
      ensures path !in failures ==> r == Ok(()) && files == old(files)[path := data]
    {
      if path in failures {
        r := Err(failures[path]);
      } else {
        files := files[path := data];
        r := Ok(());
      }
    }

    /** `fs::metadata(path).map(|m| m.len()).unwrap_or(0)`. */
    function FileSize(path: string): (n: nat)
      reads this
      ensures path !in files ==> n == 0
    {
      if path in files then Utf8Length(files[path]) else 0
    }
  }

  /** `export_content(content, options)`, with `now` the clock reading in seconds. */
  method ExportContent(fs: FileSystem, content: string, options: ExportOptions, now: nat)
    returns (r: Result<ExportResult, string>)
    modifies fs
    ensures r == ExportOutcome(PlanExport(content, options, now), fs.failures)
    ensures fs.files == AfterExport(old(fs.files), PlanExport(content, options, now), fs.failures)
  {
    var filename := if options.filename.Some? then options.filename.value else DefaultFilename(options.format, now);
    var filePath := ExportPath(filename);
    var written: Result<(), string>;
    match options.format {
      case "txt" =>
        written := fs.Write(filePath, content);
      case "html" =>
        written := fs.Write(filePath, HtmlPage("Export", content));
      case "markdown" =>
        written := fs.Write(filePath, content);
      case _ =>
        return Ok(ExportResult(false, None, Some("Unsupported format: " + options.format), None));
    }
    if written.Err? {
      return Err(written.error);
    }
    var fileSize := fs.FileSize(filePath);
    r := Ok(ExportResult(true, Some(filePath), None, Some(fileSize)));
  }

  // ---------------------------------------------------------------------
  // export_batch

  /** A JSON value of a batch item: only strings matter here. */
  datatype Json = JString(text: string) | JOther

  /** `item["content"]` when it is a string, otherwise `""`. */
  function ItemContent(item: map<string, Json>): string
  {
    if "content" in item && item["content"].JString? then item["content"].text else ""
  }

  /** `{title}_{index}.{format}`. */
  function TitledFilename(title: string, index: nat, format: string): string
  {
    title + "_" + NatToString(index) + "." + format
  }

  /** The shared options, with the file name replaced when the item has a string title. */
  function ItemOptions(item: map<string, Json>, index: nat, options: ExportOptions): ExportOptions
  {
    if "title" in item && item["title"].JString? then
      options.(filename := Some(TitledFilename(item["title"].text, index, options.format)))
    else options
  }

  /** The plan for item `k` of a batch, whose own clock reading is `clock(k)`. */
  function ItemPlan(contents: seq<map<string, Json>>, k: nat, options: ExportOptions, clock: nat -> nat): ExportPlan
    requires k < |contents|
  {
    PlanExport(ItemContent(contents[k]), ItemOptions(contents[k], k, options), clock(k))
  }

  /** The result `export_batch` records for item `k`: the export result, or an error result built from the error. */
  function ItemResult(contents: seq<map<string, Json>>, k: nat, options: ExportOptions, clock: nat -> nat,
                      failures: map<string, string>): ExportResult
    requires k < |contents|
  {
    match ExportOutcome(ItemPlan(contents, k, options, clock), failures)
    case Ok(result) => result
    case Err(e) => ExportResult(false, None, Some(e), None)
  }

  /** The files after exporting the items of `contents` in order. */
  function BatchFiles(files: map<string, string>, contents: seq<map<string, Json>>, options: ExportOptions,
                      clock: nat -> nat, failures: map<string, string>): map<string, string>
    decreases |contents|
  {
    if contents == [] then files
    else
      var k := |contents| - 1;
      AfterExport(BatchFiles(files, contents[..k], options, clock, failures), ItemPlan(contents, k, options, clock), failures)
  }

  /** The files after the first `k + 1` items: the files after the first `k`, then item `k` exported. */
  lemma BatchFilesStep(files: map<string, string>, contents: seq<map<string, Json>>, k: nat, options: ExportOptions,
                       clock: nat -> nat, failures: map<string, string>)
    requires k < |contents|
    ensures BatchFiles(files, contents[..k + 1], options, clock, failures)
         == AfterExport(BatchFiles(files, contents[..k], options, clock, failures), ItemPlan(contents, k, options, clock), failures)
  {
    var prefix := contents[..k + 1];
    assert prefix[..k] == contents[..k];
    assert prefix[k] == contents[k];
  }

  /** Item `index` of a batch: its export, with an error turned into an error result. */
  method ExportItem(fs: FileSystem, contents: seq<map<string, Json>>, index: nat, options: ExportOptions, clock: nat -> nat)
    returns (result: ExportResult)
    requires index < |contents|
    modifies fs
    ensures result == ItemResult(contents, index, options, clock, fs.failures)
    ensures fs.files == AfterExport(old(fs.files), ItemPlan(contents, index, options, clock), fs.failures)
  {
    var item := contents[index];
    var content := ItemContent(item);
    var itemOptions := ItemOptions(item, index, options);
    var r := ExportContent(fs, content, itemOptions, clock(index));
    assert PlanExport(content, itemOptions, clock(index)) == ItemPlan(contents, index, options, clock);
    result := match r case Ok(result) => result case Err(e) => ExportResult(false, None, Some(e), None);
  }

  /**
   * `export_batch(contents, options)`: one result per item, in item order,
   * a failed write included; `clock(k)` is the clock reading while item `k`
   * is exported.
   */
  method ExportBatch(fs: FileSystem, contents: seq<map<string, Json>>, options: ExportOptions, clock: nat -> nat)
    returns (results: seq<ExportResult>)
    modifies fs
    ensures |results| == |contents|
    ensures forall k :: 0 <= k < |contents| ==> results[k] == ItemResult(contents, k, options, clock, fs.failures)
    ensures fs.files == BatchFiles(old(fs.files), contents, options, clock, fs.failures)
  {
    results := [];
    for index := 0 to |contents|
      invariant |results| == index
      invariant forall k :: 0 <= k < index ==> results[k] == ItemResult(contents, k, options, clock, fs.failures)
      invariant fs.files == BatchFiles(old(fs.files), contents[..index], options, clock, fs.failures)
    {
      var result := ExportItem(fs, contents, index, options, clock);
      results := results + [result];
      BatchFilesStep(old(fs.files), contents, index, options, clock, fs.failures);
    }
    assert contents[..|contents|] == contents;
  }

  /** The length of the run of digits that ends `s`. */
  function TrailingDigits(s: string): (n: nat)
    ensures n <= |s|
  {
    if s != [] && IsDigit(s[|s| - 1]) then 1 + TrailingDigits(s[..|s| - 1]) else 0
  }

  lemma {:induction false} TrailingDigitsAfterUnderscore(title: string, digits: string)
    requires AllDigits(digits)
    ensures TrailingDigits(title + "_" + digits) == |digits|
    decreases |digits|
  {
    var s := title + "_" + digits;
    if digits != [] {
      assert s[..|s| - 1] == title + "_" + digits[..|digits| - 1];
      TrailingDigitsAfterUnderscore(title, digits[..|digits| - 1]);
    } else {
      assert s[|s| - 1] == '_';
    }
  }

  /** The index can be read back from a titled file name, so two items of a batch never share one. */
  lemma TitledFilenameIndex(t1: string, k1: nat, t2: string, k2: nat, format: string)
    ensures TitledFilename(t1, k1, format) == TitledFilename(t2, k2, format) ==> k1 == k2
  {
    var f1, f2 := TitledFilename(t1, k1, format), TitledFilename(t2, k2, format);
    if f1 == f2 {
      var a, b := t1 + "_" + NatToString(k1), t2 + "_" + NatToString(k2);
      assert f1 == a + ("." + format) && f2 == b + ("." + format);
      assert a == f1[..|f1| - |format| - 1] == b;
      TrailingDigitsAfterUnderscore(t1, NatToString(k1));
      TrailingDigitsAfterUnderscore(t2, NatToString(k2));
      var n := |NatToString(k1)|;
      assert NatToString(k1) == a[|a| - n..] == NatToString(k2);
      NatToStringValue(k1);
      NatToStringValue(k2);
    }
  }

  /** Two titled items at different positions of a batch are written to different paths. */
  lemma TitledItemsDoNotCollide(contents: seq<map<string, Json>>, options: ExportOptions, clock: nat -> nat, k1: nat, k2: nat)
    requires k1 < |contents| && k2 < |contents| && k1 != k2
    requires "title" in contents[k1] && contents[k1]["title"].JString?
    requires "title" in contents[k2] && contents[k2]["title"].JString?
    ensures var p1, p2 := ItemPlan(contents, k1, options, clock), ItemPlan(contents, k2, options, clock);
            p1.WriteFile? && p2.WriteFile? ==> p1.path != p2.path
  {
    var f1 := TitledFilename(contents[k1]["title"].text, k1, options.format);
    var f2 := TitledFilename(contents[k2]["title"].text, k2, options.format);
    ExportPathInjective(f1, f2);
    TitledFilenameIndex(contents[k1]["title"].text, k1, contents[k2]["title"].text, k2, options.format);
  }

  // ---------------------------------------------------------------------
  // preview_export

  /** `preview_export(content, options)`. */
  function PreviewExport(content: string, format: string): string
  {
    match format
    case "html" => HtmlPage("Preview", content)
    case "markdown" => content
    case "txt" => content
    case _ => "Preview for " + format + " format"
  }

  /**
   * The preview is what the export would write, except that the html page
   * is titled "Preview"; an unsupported format gets a one-line notice.
   */
  lemma PreviewMatchesExport(content: string, options: ExportOptions, now: nat)
    ensures var plan := PlanExport(content, options, now);
            && (options.format in {"txt", "markdown"} ==> PreviewExport(content, options.format) == plan.data == content)
            && (options.format == "html" ==>
                  && PreviewExport(content, options.format) == HtmlPage("Preview", content)
                  && plan.data == HtmlPage("Export", content))
            && (plan.Unsupported? ==> PreviewExport(content, options.format) == "Preview for " + options.format + " format")
  {
  }

  // ---------------------------------------------------------------------
  // get_supported_formats

  /** The formats `get_supported_formats` advertises. */
  function AdvertisedFormats(): seq<string>
  {
    ["txt", "html", "markdown", "pdf", "docx"]
  }

  /** "pdf" and "docx" are advertised, but `export_content` rejects them. */
  lemma AdvertisedFormatRejected(content: string, filename: Option<string>, now: nat)
    ensures "pdf" in AdvertisedFormats() && PlanExport(content, ExportOptions("pdf", filename), now).Unsupported?
    ensures "docx" in AdvertisedFormats() && PlanExport(content, ExportOptions("docx", filename), now).Unsupported?
  {
    assert AdvertisedFormats()[3] == "pdf" && AdvertisedFormats()[4] == "docx";
  }

  /** The formats `export_content` can write. */
  const ExportableFormats: seq<string> := ["txt", "html", "markdown"]

  /** Every format in the corrected list is exported. */
  lemma ExportableFormatsWritten(content: string, filename: Option<string>, now: nat, i: nat)
    requires i < |ExportableFormats|
    ensures PlanExport(content, ExportOptions(ExportableFormats[i], filename), now).WriteFile?
  {
  }
}
