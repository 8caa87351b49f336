/** The parse agent: it turns a DOCX, TXT or JSON file into a PDF laid out on letter pages,
    or takes a PDF as it is, and reports the file's path, size and a preview of its text.
    The file system, the document readers and the PDF reader are parameters (`Files`); the
    page layout each converter draws is modelled exactly. */
module ParseAgent {
  import opened Values
  import opened Text
  import opened BaseAgent

  // ---------------------------------------------------------------- the file system

  /** Where a PDF to read comes from: the file the caller passed, or the converted document
      written with these pages of lines. */
  datatype PdfSource = Given(file: Value) | Written(pages: seq<seq<string>>)

  /** What the agent reads and writes. Each reader either answers or raises an exception
      whose text it gives. */
  datatype Files = Files(
    tempDir: string,                                   // `tempfile.gettempdir()`
    readDocx: Value -> Call<seq<string>>,              // the paragraphs' texts of a DOCX file
    readText: Value -> Call<string>,                   // a text file read as UTF-8
    readJson: Value -> Call<string>,                   // `json.dumps(json.load(f), indent=2)`
    readPdf: PdfSource -> Call<seq<string>>,           // the text PyPDF2 extracts, page by page
    sizeOf: seq<seq<string>> -> nat)                   // bytes of the PDF written with these pages

  const ConvertedName := "converted_document.pdf"

  /** POSIX `os.path.join(dir, name)` for a relative `name`. */
  function JoinPath(dir: string, name: string): (r: string)
    ensures EndsWith(r, name)
    ensures dir != [] ==> StartsWith(r, dir)
  {
    if dir == [] || EndsWith(dir, "/") then dir + name else dir + "/" + name
  }

  /** Every converter writes to the same file in the temporary directory. */
  function OutputPath(f: Files): string {
    JoinPath(f.tempDir, ConvertedName)
  }

  // ---------------------------------------------------------------- page layout

  /** Letter paper is 792 points high; text starts 40 points below the top edge and a page
      is finished once the next line would fall below 40 points. */
  const PageTop := 752
  const PageBottom := 40
  /** `drawString` is given the first 100 characters of each line. */
  const LineWidth := 100
  const TxtLineHeight := 12
  const TxtLinesPerPage := 50
  const DocxLineHeight := 20
  const JsonLineHeight := 12
  /** The lines the DOCX and JSON loops fit on a page before `y` drops below the margin. */
  const DocxLinesPerPage := 36
  const JsonLinesPerPage := 60

  /** `lines` cut into pages of `n` lines, the last page holding what is left. */
  function Chunks(lines: seq<string>, n: nat): (pages: seq<seq<string>>)
    requires n > 0
    ensures forall i :: 0 <= i < |pages| ==> 0 < |pages[i]| <= n
    ensures forall i :: 0 <= i < |pages| - 1 ==> |pages[i]| == n
    ensures Flatten(pages) == lines
    decreases |lines|
  {
    if lines == [] then []
    else if |lines| <= n then
      assert [lines][1..] == [];
      [lines]
    else
      var rest := Chunks(lines[n..], n);
      assert ([lines[..n]] + rest)[1..] == rest;
      assert lines[..n] + lines[n..] == lines;
      [lines[..n]] + rest
  }

  /** A full page in front is cut off as the first page. */
  lemma ChunksCons(page: seq<string>, rest: seq<string>, n: nat)
    requires n > 0 && |page| == n
    ensures Chunks(page + rest, n) == [page] + Chunks(rest, n)
  {
    var lines := page + rest;
    if rest == [] {
      assert lines == page;
    } else {
      assert lines[..n] == page;
      assert lines[n..] == rest;
    }
  }

  /** Full pages followed by a shorter one cut back into the same pages. */
  lemma {:induction false} ChunksOfFull(full: seq<seq<string>>, last: seq<string>, n: nat)
    requires n > 0 && |last| <= n
    requires forall i :: 0 <= i < |full| ==> |full[i]| == n
    ensures Chunks(Flatten(full) + last, n) == full + (if last == [] then [] else [last])
    decreases |full|
  {
    if full == [] {
      assert Flatten(full) + last == last;
    } else {
      ChunksOfFull(full[1..], last, n);
      ChunksCons(full[0], Flatten(full[1..]) + last, n);
      assert Flatten(full) + last == full[0] + (Flatten(full[1..]) + last);
      assert full == [full[0]] + full[1..];
    }
  }

  lemma FlattenSnoc<T>(pages: seq<seq<T>>, page: seq<T>)
    ensures Flatten(pages + [page]) == Flatten(pages) + page
  {
    FlattenAppend(pages, [page]);
    assert [page][1..] == [];
  }

  /** Each line cut to what `drawString` is given. */
  function Clip(lines: seq<string>): (r: seq<string>)
    ensures |r| == |lines|
    ensures forall i :: 0 <= i < |r| ==> |r[i]| <= LineWidth && r[i] == Take(lines[i], LineWidth)
  {
    seq(|lines|, i requires 0 <= i < |lines| => Take(lines[i], LineWidth))
  }

  /** `s.strip()` is truthy: some character of `s` is not whitespace. */
  predicate HasText(s: string) {
    exists i :: 0 <= i < |s| && !IsSpace(s[i])
  }

  lemma HasTextIff(s: string)
    ensures HasText(s) <==> Strip(s) != []
  {
    StripEmptyIff(s);
  }

  /** The lines of a DOCX document: its non-blank paragraphs, cut to the line width. */
  function DocxLines(paragraphs: seq<string>): (r: seq<string>)
    ensures |r| <= |paragraphs|
    ensures forall i :: 0 <= i < |r| ==> |r[i]| <= LineWidth
  {
    if paragraphs == [] then []
    else
      var last := paragraphs[|paragraphs| - 1];
      DocxLines(paragraphs[..|paragraphs| - 1])
        + (if HasText(last) then [Take(last, LineWidth)] else [])
  }

  /** Every paragraph with text in it is drawn, and only those: a blank paragraph leaves no
      line behind. */
  lemma {:induction false} DocxLinesSpec(paragraphs: seq<string>)
    ensures forall p :: p in paragraphs && HasText(p) ==> Take(p, LineWidth) in DocxLines(paragraphs)
    ensures (forall p :: p in paragraphs ==> !HasText(p)) <==> DocxLines(paragraphs) == []
  {
    if paragraphs != [] {
      var init := paragraphs[..|paragraphs| - 1];
      DocxLinesSpec(init);
      assert paragraphs == init + [paragraphs[|paragraphs| - 1]];
    }
  }

  /** The positions of the paragraphs with text, in document order. */
  function TextIndices(paragraphs: seq<string>): (idx: seq<nat>)
    ensures forall j :: 0 <= j < |idx| ==> idx[j] < |paragraphs|
  {
    if paragraphs == [] then []
    else
      var n := |paragraphs| - 1;
      TextIndices(paragraphs[..n]) + (if HasText(paragraphs[n]) then [n] else [])
  }

  /** The lines are exactly the non-blank paragraphs, cut to the line width, in paragraph
      order: line j comes from the paragraph at the j-th position that has text. */
  lemma {:induction false} DocxLinesInOrder(paragraphs: seq<string>)
    ensures var idx := TextIndices(paragraphs); var r := DocxLines(paragraphs);
      && |idx| == |r|
      && (forall j :: 0 <= j < |idx| ==> HasText(paragraphs[idx[j]]) && r[j] == Take(paragraphs[idx[j]], LineWidth))
      && (forall j, k :: 0 <= j < k < |idx| ==> idx[j] < idx[k])
      && (forall i :: 0 <= i < |paragraphs| && HasText(paragraphs[i]) ==> i in idx)
  {
    if paragraphs != [] {
      var n := |paragraphs| - 1;
      var init := paragraphs[..n];
      DocxLinesInOrder(init);
      var idx0 := TextIndices(init);
      assert forall j :: 0 <= j < |idx0| ==> paragraphs[idx0[j]] == init[idx0[j]];
      assert forall i :: 0 <= i < n ==> paragraphs[i] == init[i];
    }
  }

  lemma DocxLinesSnoc(paragraphs: seq<string>, i: nat)
    requires i < |paragraphs|
    ensures DocxLines(paragraphs[..i + 1]) == DocxLines(paragraphs[..i])
      + (if HasText(paragraphs[i]) then [Take(paragraphs[i], LineWidth)] else [])
  {
    assert paragraphs[..i + 1][..i] == paragraphs[..i];
  }

  /** The pages `_convert_txt_to_pdf` draws: the file's lines, fifty to a page. */
  function TxtPages(text: string): seq<seq<string>> {
    Chunks(Clip(Split(text, '\n')), TxtLinesPerPage)
  }

  /** The pages `_convert_docx_to_pdf` draws. */
  function DocxPages(paragraphs: seq<string>): seq<seq<string>> {
    Chunks(DocxLines(paragraphs), DocxLinesPerPage)
  }

  /** The pages `_convert_json_to_pdf` draws from the indented JSON text. */
  function JsonPages(json: string): seq<seq<string>> {
    Chunks(Clip(Split(json, '\n')), JsonLinesPerPage)
  }

  /** The TXT loop: a counter of the lines on the page starts a new page before the 51st. */
  method LayOutTxt(text: string) returns (pages: seq<seq<string>>)
    ensures pages == TxtPages(text)
  {
    var lines := Split(text, '\n');
    pages := [];
    var current: seq<string> := [];
    var y := PageTop;
    var pageLines := 0;
    for i := 0 to |lines|
      invariant pageLines == |current| <= TxtLinesPerPage
      invariant y == PageTop - 12 * pageLines
      invariant forall k :: 0 <= k < |pages| ==> |pages[k]| == TxtLinesPerPage
      invariant Flatten(pages) + current == Clip(lines)[..i]
    {
      if pageLines >= TxtLinesPerPage {
        FlattenSnoc(pages, current);
        pages := pages + [current];
        current := [];
        y := PageTop;
        pageLines := 0;
      }
      assert Clip(lines)[..i + 1] == Clip(lines)[..i] + [Take(lines[i], LineWidth)];
      current := current + [Take(lines[i], LineWidth)];
      y := y - TxtLineHeight;
      pageLines := pageLines + 1;
    }
    assert Clip(lines)[..|lines|] == Clip(lines);
    ChunksOfFull(pages, current, TxtLinesPerPage);
    // `save()` emits the page in progress when something was drawn on it
    if current != [] {
      pages := pages + [current];
    }
  }

  /** The DOCX loop: each non-blank paragraph lowers `y` by 20 points, and the page is
      finished as soon as `y` is below the margin. */
  method LayOutDocx(paragraphs: seq<string>) returns (pages: seq<seq<string>>)
    ensures pages == DocxPages(paragraphs)
  {
    pages := [];
    var current: seq<string> := [];
    var y := PageTop;
    for i := 0 to |paragraphs|
      invariant |current| < DocxLinesPerPage
      invariant y == PageTop - 20 * |current|
      invariant forall k :: 0 <= k < |pages| ==> |pages[k]| == DocxLinesPerPage
      invariant Flatten(pages) + current == DocxLines(paragraphs[..i])
    {
      DocxLinesSnoc(paragraphs, i);
      ghost var next := DocxLines(paragraphs[..i + 1]);
      if HasText(paragraphs[i]) {
        var line := Take(paragraphs[i], LineWidth);
        assert next == DocxLines(paragraphs[..i]) + [line];
        current := current + [line];
        y := y - DocxLineHeight;
        if y < PageBottom {
          FlattenSnoc(pages, current);
          pages := pages + [current];
          current := [];
          y := PageTop;
        }
      }
    }
    assert paragraphs[..|paragraphs|] == paragraphs;
    ChunksOfFull(pages, current, DocxLinesPerPage);
    if current != [] {
      pages := pages + [current];
    }
  }

  /** The JSON loop: each line lowers `y` by 12 points, and the page is finished as soon as
      `y` is below the margin. */
  method LayOutJson(json: string) returns (pages: seq<seq<string>>)
    ensures pages == JsonPages(json)
  {
    var lines := Split(json, '\n');
    pages := [];
    var current: seq<string> := [];
    var y := PageTop;
    for i := 0 to |lines|
      invariant |current| < JsonLinesPerPage
      invariant y == PageTop - 12 * |current|
      invariant forall k :: 0 <= k < |pages| ==> |pages[k]| == JsonLinesPerPage
      invariant Flatten(pages) + current == Clip(lines)[..i]
    {
      assert Clip(lines)[..i + 1] == Clip(lines)[..i] + [Take(lines[i], LineWidth)];
      current := current + [Take(lines[i], LineWidth)];
      y := y - JsonLineHeight;
      if y < PageBottom {
        FlattenSnoc(pages, current);
        pages := pages + [current];
        current := [];
        y := PageTop;
      }
    }
    assert Clip(lines)[..|lines|] == Clip(lines);
    ChunksOfFull(pages, current, JsonLinesPerPage);
    if current != [] {
      pages := pages + [current];
    }
  }

  /** What the TXT converter draws: every line of the file, in order, at most fifty to a
      page, every page but the last full, and at least one page. */
  lemma TxtPagination(text: string)
    ensures |TxtPages(text)| >= 1
    ensures forall i :: 0 <= i < |TxtPages(text)| ==> 0 < |TxtPages(text)[i]| <= TxtLinesPerPage
    ensures forall i :: 0 <= i < |TxtPages(text)| - 1 ==> |TxtPages(text)[i]| == TxtLinesPerPage
    ensures Flatten(TxtPages(text)) == Clip(Split(text, '\n'))
  {
    assert Flatten(TxtPages(text)) != [];
  }

  // ---------------------------------------------------------------- text preview

  const Unreadable := "Could not extract text preview"
  const PreviewLength := 200
  const PreviewPages := 2

  /** `_extract_pdf_text`: the text of the first two pages, or a fixed notice (with a
      warning) when the PDF cannot be read. */
  function PdfPreview(pdf: Call<seq<string>>, now: int): (string, LogEntry) {
    match pdf
    case Raised(m) => (Unreadable, WarningLog(now, "Could not extract PDF text: " + m))
    case Returned(texts) =>
      (Flatten(texts[..if |texts| < PreviewPages then |texts| else PreviewPages]),
       InfoLog(now, "PDF text extracted"))
  }

  method ExtractPdfText(pdf: Call<seq<string>>, now: int) returns (text: string, logged: LogEntry)
    ensures (text, logged) == PdfPreview(pdf, now)
  {
    match pdf
    case Raised(m) =>
      text := Unreadable;
      logged := WarningLog(now, "Could not extract PDF text: " + m);
    case Returned(texts) =>
      text := "";
      var pagesToRead := if |texts| < PreviewPages then |texts| else PreviewPages;
      for k := 0 to pagesToRead
        invariant text == Flatten(texts[..k])
      {
        assert texts[..k + 1] == texts[..k] + [texts[k]];
        FlattenSnoc(texts[..k], texts[k]);
        text := text + texts[k];
      }
      logged := InfoLog(now, "PDF text extracted");
  }

  /** The preview is the first page's text followed by the second's, whatever follows. */
  lemma PreviewReadsTwoPages(texts: seq<string>, now: int)
    ensures |texts| == 0 ==> PdfPreview(Returned(texts), now).0 == ""
    ensures |texts| == 1 ==> PdfPreview(Returned(texts), now).0 == texts[0]
    ensures |texts| >= 2 ==> PdfPreview(Returned(texts), now).0 == texts[0] + texts[1]
  {
    if |texts| >= 2 {
      assert texts[..2] == [texts[0]] + [texts[1]];
      FlattenAppend([texts[0]], [texts[1]]);
      assert [texts[0]][1..] == [] && [texts[1]][1..] == [];
    } else if |texts| == 1 {
      assert texts[..1] == [texts[0]];
      assert [texts[0]][1..] == [];
    }
  }

  // ---------------------------------------------------------------- converters

  /** A converter that failed: `self.error(...)` and the exception propagates. */
  function ConversionFailed(kind: string, m: string, now: int, start: LogEntry): (e: Effects<seq<seq<string>>>)
    ensures e.call == Raised(m) && |e.errored| == 1
  {
    var message := kind + " conversion failed: " + m;
    Effects(Raised(m), [start, ErrorLog(now, message, Some(m))], [ErrorEntry(now, message, Some(m))])
  }

  /** `_convert_<kind>_to_pdf(file)`: the pages written to the output file. */
  function Convert(f: Files, kind: string, file: Value, now: int): (e: Effects<seq<seq<string>>>)
    requires kind in {"docx", "txt", "json"}
    ensures e.call.Returned? ==> e.errored == [] && |e.logged| == 2
    ensures e.call.Raised? ==> |e.errored| == 1 && e.errored[0].exception == Some(e.call.reason)
    ensures kind == "txt" ==> (e.call.Returned? <==> f.readText(file).Returned?)
    ensures kind == "txt" && e.call.Returned? ==> e.call.value == TxtPages(f.readText(file).value)
    ensures kind == "docx" && e.call.Returned? ==>
              f.readDocx(file).Returned? && e.call.value == DocxPages(f.readDocx(file).value)
    ensures kind == "json" && e.call.Returned? ==>
              f.readJson(file).Returned? && e.call.value == JsonPages(f.readJson(file).value)
  {
    var upper := if kind == "docx" then "DOCX" else if kind == "txt" then "TXT" else "JSON";
    var start := InfoLog(now, "Converting " + upper + " to PDF");
    var done := InfoLog(now, upper + " converted to " + OutputPath(f));
    if kind == "docx" then
      match f.readDocx(file)
      case Raised(m) => ConversionFailed(upper, m, now, start)
      case Returned(ps) => Effects(Returned(DocxPages(ps)), [start, done], [])
    else if kind == "txt" then
      match f.readText(file)
      case Raised(m) => ConversionFailed(upper, m, now, start)
      case Returned(text) => Effects(Returned(TxtPages(text)), [start, done], [])
    else
      match f.readJson(file)
      case Raised(m) => ConversionFailed(upper, m, now, start)
      case Returned(json) => Effects(Returned(JsonPages(json)), [start, done], [])
  }

  // ---------------------------------------------------------------- the agent

  /** `validate_input`: `file` and `file_type` must be present. */
  function Validate(inv: Invocation, input: Value): (e: Effects<bool>)
    ensures e.errored == []
    ensures input.VDict? ==> e.call == Returned("file" in Keys(input.entries) && "file_type" in Keys(input.entries))
  {
    RequireFields(inv.now, input, ["file", "file_type"])
  }

  const Supported: set<string> := {"pdf", "docx", "txt", "json"}

  /** `input_data.get("file_type", "unknown").lower()`. */
  function FileTypeOf(d: seq<Entry>): (r: Call<string>)
    ensures "file_type" !in Keys(d) ==> r == Returned("unknown")
    ensures (Get(d, "file_type").Some? && Get(d, "file_type").value.VStr?) ==>
                  r == Returned(Lower(Get(d, "file_type").value.s))
    ensures r.Raised? <==> Get(d, "file_type").Some? && !Get(d, "file_type").value.VStr?
  {
    var ft := Get(d, "file_type").GetOr(VStr("unknown"));
    assert Lower("unknown") == "unknown";
    if ft.VStr? then Returned(Lower(ft.s)) else Raised(NoAttribute(ft, "lower"))
  }

  /** The data of a successful parse. `fileSize` is absent for a PDF given as it is. */
  datatype Parsed = Parsed(filePath: string, fileType: string, conversionNeeded: bool,
                           fileSize: Option<nat>, preview: string)

  function ParsedValue(p: Parsed): Value {
    VDict([Entry("file_path", VStr(p.filePath)), Entry("file_type", VStr(p.fileType)),
           Entry("output_format", VStr("pdf")), Entry("conversion_needed", VBool(p.conversionNeeded))]
          + (if p.fileSize.Some? then [Entry("file_size", VInt(p.fileSize.value))] else [])
          + [Entry("text_preview", VStr(p.preview))])
  }

  /** The body of `execute`'s `try` for a dict input; `Raised` is the exception its handler
      catches. */
  function ParseOf(f: Files, d: seq<Entry>, now: int): (e: Effects<Parsed>)
    ensures e.call.Returned? ==> var p := e.call.value;
      && p.fileType in Supported && |p.preview| <= PreviewLength
      && (p.conversionNeeded <==> p.fileType != "pdf")
      && (p.conversionNeeded <==> p.fileSize.Some?)
      && (p.conversionNeeded ==> p.filePath == OutputPath(f))
      && e.errored == []
    ensures FileTypeOf(d).Raised? ==> e == Quiet(Raised(FileTypeOf(d).reason))
    ensures (FileTypeOf(d).Returned? && FileTypeOf(d).value !in Supported) ==>
                  (e.call == Raised("Unsupported file type: " + FileTypeOf(d).value) && e.errored == [])
    ensures FileTypeOf(d) == Returned("pdf") ==>
                  (e.call.Returned? && e.errored == []
                   && e.call.value.filePath == Str(Get(d, "file").GetOr(VNone)))
    ensures (FileTypeOf(d).Returned? && FileTypeOf(d).value in Supported - {"pdf"}) ==>
                  ((e.call.Returned? <==> Convert(f, FileTypeOf(d).value, Get(d, "file").GetOr(VNone), now).call.Returned?)
                   && (e.call.Returned? ==> e.call.value.fileType == FileTypeOf(d).value))
  {
    var file := Get(d, "file").GetOr(VNone);
    match FileTypeOf(d)
    case Raised(m) => Quiet(Raised(m))
    case Returned(t) =>
      var converting := InfoLog(now, "Converting " + t + " to " + Str(Get(d, "output_format").GetOr(VStr("pdf"))));
      if t == "pdf" then
        var (preview, l) := PdfPreview(f.readPdf(Given(file)), now);
        Effects(Returned(Parsed(Str(file), "pdf", false, None, Take(preview, PreviewLength))), [converting, l], [])
      else if t in {"docx", "txt", "json"} then
        var conv := Convert(f, t, file, now);
        match conv.call
        case Raised(m) => Effects(Raised(m), [converting] + conv.logged, conv.errored)
        case Returned(pages) =>
          var (preview, l) := PdfPreview(f.readPdf(Written(pages)), now);
          var path := OutputPath(f);
          Effects(Returned(Parsed(path, t, true, Some(f.sizeOf(pages)), Take(preview, PreviewLength))),
                  [converting] + conv.logged + [l, InfoLog(now, "File converted successfully: " + path)], [])
      else
        Effects(Raised("Unsupported file type: " + t), [converting], [])
  }

  const ParsingFailedPrefix := "File parsing failed: "

  /** `execute`: every exception is caught, recorded with `self.error` and reported as an
      error result carrying its text. */
  function Execute(f: Files, inv: Invocation, input: Value): (e: Effects<StageResult>)
    ensures e.call.Returned?
    ensures e.call.value.status == "success" <==> e.errored == []
    ensures e.call.value.status == "error" ==>
      && e.call.value == ErrorResult(inv.agentId, e.call.value.message)
      && e.errored[|e.errored| - 1] == ErrorEntry(inv.now, ParsingFailedPrefix + e.call.value.message,
                                                  Some(e.call.value.message))
    ensures !input.VDict? ==> e.call.value == ErrorResult(inv.agentId, NoAttribute(input, "get"))
    ensures e.call.value.status == "success" ==>
                  (input.VDict? && e.call.value.data.Present?
                   && e.call.value.message == (if FileTypeOf(input.entries) == Returned("pdf")
                                               then "PDF file ready for processing"
                                               else "File converted to PDF successfully"))
    ensures input.VDict? ==>
      var run := ParseOf(f, input.entries, inv.now);
      && (e.call.value.status == "success" <==> run.call.Returned?)
      && (run.call.Returned? ==> e.call.value.data == Present(ParsedValue(run.call.value)))
      && (run.call.Raised? ==> e.call.value == ErrorResult(inv.agentId, run.call.reason))
  {
    var now := inv.now;
    var start := InfoLog(now, "Starting file parsing process");
    var run := if input.VDict? then ParseOf(f, input.entries, now) else Quiet(Raised(NoAttribute(input, "get")));
    match run.call
    case Returned(p) =>
      var message := if p.conversionNeeded then "File converted to PDF successfully" else "PDF file ready for processing";
      Effects(Returned(StageResult("success", inv.agentId, message, Present(ParsedValue(p)))), [start] + run.logged, [])
    case Raised(m) =>
      var message := ParsingFailedPrefix + m;
      Effects(Returned(ErrorResult(inv.agentId, m)),
              [start] + run.logged + [ErrorLog(now, message, Some(m))],
              run.errored + [ErrorEntry(now, message, Some(m))])
  }

  /** The parse agent's class, as the stage framework runs it. */
  function ParseStage(f: Files): Stage {
    Stage("ParseAgent", Validate, (inv, input) => Execute(f, inv, input))
  }

  /** A file whose type is missing is parsed as type "unknown", which is refused. */
  lemma MissingTypeUnsupported(f: Files, inv: Invocation, d: seq<Entry>)
    requires "file_type" !in Keys(d)
    ensures Execute(f, inv, VDict(d)).call.value == ErrorResult(inv.agentId, "Unsupported file type: unknown")
  {
    assert FileTypeOf(d) == Returned("unknown");
  }

  /** A failing converter is recorded twice: once by the converter, once by `execute`. */
  lemma ConversionFailureRecordedTwice(f: Files, inv: Invocation, d: seq<Entry>)
    requires FileTypeOf(d) == Returned("txt") && f.readText(Get(d, "file").GetOr(VNone)).Raised?
    ensures var m := f.readText(Get(d, "file").GetOr(VNone)).reason;
      Execute(f, inv, VDict(d)).errored
        == [ErrorEntry(inv.now, "TXT conversion failed: " + m, Some(m)),
            ErrorEntry(inv.now, ParsingFailedPrefix + m, Some(m))]
  {
    var m := f.readText(Get(d, "file").GetOr(VNone)).reason;
    TxtConversionFailure(f, Get(d, "file").GetOr(VNone), inv.now);
    var run := ParseOf(f, d, inv.now);
    assert run.call == Raised(m) && run.errored == [ErrorEntry(inv.now, "TXT conversion failed: " + m, Some(m))];
  }

  lemma TxtConversionFailure(f: Files, file: Value, now: int)
    requires f.readText(file).Raised?
    ensures var m := f.readText(file).reason;
      && Convert(f, "txt", file, now).call == Raised(m)
      && Convert(f, "txt", file, now).errored == [ErrorEntry(now, "TXT conversion failed: " + m, Some(m))]
  {
    assert "TXT" + " conversion failed: " == "TXT conversion failed: ";
  }
}
