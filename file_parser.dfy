/** Turning an uploaded file into plain text: the extension-based dispatch,
    the text decoding with its UTF-8 to Latin-1 fallback, and the joining of
    PDF page texts and DOCX paragraph texts. The PDF, DOCX and Markdown
    libraries themselves are collaborators given as function parameters. */
module FileParser {
  import opened Common
  import opened Strings
  import opened Utf8

  /** The two exceptions a caller can see: ValueError for an unsupported
      extension, FileParsingError for everything else. */
  datatype ParseError = UnsupportedType(extension: string) | ParsingFailed(message: string)

  datatype ParseResult = Parsed(text: string) | Failed(error: ParseError)

  /** `str(e)` for the two exceptions. */
  function ErrorMessage(e: ParseError): string {
    match e
    case UnsupportedType(ext) => "Unsupported file type: " + ext + ". Supported types are .txt, .pdf, .docx, .md."
    case ParsingFailed(m) => m
  }

  /** `os.path.splitext(p)[1]` on a POSIX path: the text from the last dot of
      the last path component, unless every character before that dot in
      the component is itself a dot (".md", "..txt"), in which case there is
      no extension. */
  function SplitExtension(p: string): (ext: string)
    ensures ext == [] || (ext[0] == '.' && '/' !in ext && '.' !in ext[1..])
    ensures |ext| <= |p| && ext == p[|p| - |ext|..]
  {
    var sepIndex := LastIndexOf(p, '/');
    var dotIndex := LastIndexOf(p, '.');
    if dotIndex > sepIndex && exists k :: sepIndex + 1 <= k < dotIndex && p[k] != '.' then
      p[dotIndex..]
    else
      []
  }

  /** A name made of one leading dot and no other dot or slash (".md") has
      no extension for `splitext`. */
  lemma LeadingDotHasNoExtension(p: string)
    requires |p| >= 1 && p[0] == '.' && '.' !in p[1..] && '/' !in p
    ensures SplitExtension(p) == []
  {
    assert p[0] == '.';
  }

  /** A simple name "stem.ext" with a non-empty stem and no other dot or
      slash has the extension ".ext". */
  lemma SimpleNameExtension(stem: string, ext: string)
    requires stem != [] && '.' !in stem && '/' !in stem && '.' !in ext && '/' !in ext
    ensures SplitExtension(stem + "." + ext) == "." + ext
  {
    var p := stem + "." + ext;
    var dotIndex := LastIndexOf(p, '.');
    assert p[|stem|] == '.';
    assert dotIndex == |stem|;
    assert LastIndexOf(p, '/') == -1 by {
      forall i | 0 <= i < |p| ensures p[i] != '/' {
        if i < |stem| { assert p[i] == stem[i]; }
        else if i > |stem| { assert p[i] == ext[i - |stem| - 1]; }
      }
    }
    assert p[0] == stem[0] && p[0] != '.';
    assert p[dotIndex..] == "." + ext;
  }

  /** `parse_txt`: UTF-8 when the bytes are well formed, otherwise Latin-1,
      which accepts every byte sequence, so byte input never fails. */
  function ParseTxt(b: seq<Byte>): (text: string)
    ensures Decode(b).Some? ==> text == Decode(b).value
    ensures Decode(b).None? ==> |text| == |b| && forall i :: 0 <= i < |b| ==> text[i] as int == b[i]
  {
    match Decode(b)
    case Some(s) => s
    case None => Latin1(b)
  }

  /** Any text written as UTF-8 reads back unchanged. */
  lemma ParseTxtOfUtf8(s: string)
    ensures ParseTxt(Encode(s)) == s
  {
    DecodeEncode(s);
  }

  /** A UTF-8 decoding never has more characters than there are bytes. */
  lemma {:induction false} DecodeLength(b: seq<Byte>)
    requires Decode(b).Some?
    ensures |Decode(b).value| <= |b|
    decreases |b|
  {
    if b != [] {
      var first := DecodeFirst(b).value;
      DecodeLength(b[first.1..]);
    }
  }

  /** The decoded text of a file is at most as long as the file. */
  lemma ParseTxtLength(b: seq<Byte>)
    ensures |ParseTxt(b)| <= |b|
  {
    if Decode(b).Some? {
      DecodeLength(b);
    }
  }

  /** What the PDF library makes of the bytes: a `PdfReadError`, any other
      exception raised while opening the file or reading its pages, or a
      reader telling whether the file is encrypted, whether decrypting with
      the empty password raises, and each page's extracted text (None when
      the page has none). */
  datatype PdfReading =
    | PdfReadError(detail: string)
    | PdfRaised(detail: string)
    | PdfReader(encrypted: bool, decryptRaises: bool, pages: seq<Option<string>>)

  /** `page.extract_text() or ""` */
  function PageText(page: Option<string>): string {
    match page
    case Some(t) => t
    case None => ""
  }

  function PageTexts(pages: seq<Option<string>>): (texts: seq<string>)
    ensures |texts| == |pages|
    ensures forall i :: 0 <= i < |pages| ==> texts[i] == PageText(pages[i])
  {
    seq(|pages|, i requires 0 <= i < |pages| => PageText(pages[i]))
  }

  const EncryptedPdfMessage: string :=
    "Error parsing PDF file: Cannot parse encrypted PDF: File is password protected."

  /** What `parse_pdf` returns or raises. The FileParsingError raised for
      an encrypted file is caught by the function's own generic handler and
      so reaches the caller wrapped in "Error parsing PDF file: ". */
  function PdfResult(reading: PdfReading): (r: ParseResult)
    ensures r.Failed? ==> r.error.ParsingFailed?
    ensures reading.PdfReadError? ==>
      r == Failed(ParsingFailed("Invalid PDF file or PyPDF2 error: " + reading.detail))
    ensures reading.PdfRaised? ==>
      r == Failed(ParsingFailed("Error parsing PDF file: " + reading.detail))
    ensures reading.PdfReader? && reading.encrypted && reading.decryptRaises ==>
      r == Failed(ParsingFailed(EncryptedPdfMessage))
    ensures reading.PdfReader? && !(reading.encrypted && reading.decryptRaises) ==>
      r == Parsed(Join(PageTexts(reading.pages), "\n"))
  {
    match reading
    case PdfReadError(d) => Failed(ParsingFailed("Invalid PDF file or PyPDF2 error: " + d))
    case PdfRaised(d) => Failed(ParsingFailed("Error parsing PDF file: " + d))
    case PdfReader(encrypted, decryptRaises, pages) =>
      if encrypted && decryptRaises then Failed(ParsingFailed(EncryptedPdfMessage))
      else Parsed(Join(PageTexts(pages), "\n"))
  }

  /** `parse_pdf`, collecting the page texts in a loop. */
  method ParsePdf(reading: PdfReading) returns (r: ParseResult)
    ensures r == PdfResult(reading)
  {
    if reading.PdfReadError? {
      return Failed(ParsingFailed("Invalid PDF file or PyPDF2 error: " + reading.detail));
    }
    if reading.PdfRaised? {
      return Failed(ParsingFailed("Error parsing PDF file: " + reading.detail));
    }
    if reading.encrypted && reading.decryptRaises {
      return Failed(ParsingFailed(EncryptedPdfMessage));
    }
    var textParts: seq<string> := [];
    var pageNum := 0;
    while pageNum < |reading.pages|
      invariant 0 <= pageNum <= |reading.pages|
      invariant |textParts| == pageNum
      invariant forall i :: 0 <= i < pageNum ==> textParts[i] == PageText(reading.pages[i])
    {
      textParts := textParts + [PageText(reading.pages[pageNum])];
      pageNum := pageNum + 1;
    }
    assert textParts == PageTexts(reading.pages);
    return Parsed(Join(textParts, "\n"));
  }

  /** When no page text contains a newline, the pages can be recovered
      from the parsed text by splitting on "\n" (one piece per page). */
  lemma PdfPagesRecoverable(pages: seq<Option<string>>)
    requires |pages| >= 1
    requires forall i :: 0 <= i < |pages| ==> '\n' !in PageText(pages[i])
    ensures Split(Join(PageTexts(pages), "\n"), '\n') == PageTexts(pages)
  {
    SplitJoin(PageTexts(pages), '\n');
  }

  /** What the DOCX library makes of the bytes: an error, or the text of
      every paragraph in document order. */
  datatype DocxReading = DocxError(detail: string) | DocxParagraphs(paragraphs: seq<string>)

  /** `parse_docx`: paragraph texts joined with "\n". */
  function ParseDocx(reading: DocxReading): (r: ParseResult)
    ensures reading.DocxError? <==> r.Failed?
    ensures r.Failed? ==> r.error.ParsingFailed? && StartsWith(r.error.message, "Error parsing DOCX file: ")
  {
    match reading
    case DocxError(d) =>
      Failed(ParsingFailed("Error parsing DOCX file: " + d + ". Ensure it's a valid .docx file."))
    case DocxParagraphs(ps) =>
      Parsed(Join(ps, "\n"))
  }

  /** The DOCX text has every paragraph plus one newline between each pair,
      and when no paragraph contains a newline, splitting on "\n" gives the
      paragraphs back. */
  lemma DocxParagraphsRecoverable(paragraphs: seq<string>)
    requires |paragraphs| >= 1
    requires forall i :: 0 <= i < |paragraphs| ==> '\n' !in paragraphs[i]
    ensures |ParseDocx(DocxParagraphs(paragraphs)).text| == TotalLength(paragraphs) + |paragraphs| - 1
    ensures Split(ParseDocx(DocxParagraphs(paragraphs)).text, '\n') == paragraphs
  {
    JoinLength(paragraphs, "\n");
    SplitJoin(paragraphs, '\n');
  }

  /** What the Markdown and HTML libraries make of a text: the text with
      the tags stripped, or the message of the exception one of them raised. */
  datatype Rendering = Rendered(text: string) | RenderRaised(message: string)

  /** `parse_markdown`: the same UTF-8 then Latin-1 decoding as `parse_txt`,
      followed by rendering to HTML and stripping the tags (`render`). A
      library failure after a UTF-8 decoding is a parsing error, after the
      Latin-1 fallback a decoding error. */
  function ParseMarkdown(b: seq<Byte>, render: string -> Rendering): (r: ParseResult)
    ensures r.Parsed? <==> render(ParseTxt(b)).Rendered?
    ensures r.Parsed? ==> r.text == render(ParseTxt(b)).text
    ensures Decode(b).Some? && render(ParseTxt(b)).RenderRaised? ==>
      r == Failed(ParsingFailed("Error parsing Markdown file: " + render(ParseTxt(b)).message))
    ensures Decode(b).None? && render(ParseTxt(b)).RenderRaised? ==>
      r == Failed(ParsingFailed("Error decoding Markdown file: " + render(ParseTxt(b)).message))
  {
    match Decode(b)
    case Some(s) =>
      (match render(s)
       case Rendered(t) => Parsed(t)
       case RenderRaised(e) => Failed(ParsingFailed("Error parsing Markdown file: " + e)))
    case None =>
      (match render(Latin1(b))
       case Rendered(t) => Parsed(t)
       case RenderRaised(e) => Failed(ParsingFailed("Error decoding Markdown file: " + e)))
  }

  /** Markdown written as UTF-8 is rendered as written, and a library
      failure on it is reported as a parsing error, never a decoding one. */
  lemma ParseMarkdownOfUtf8(s: string, render: string -> Rendering)
    ensures render(s).Rendered? ==> ParseMarkdown(Encode(s), render) == Parsed(render(s).text)
    ensures render(s).RenderRaised? ==>
      ParseMarkdown(Encode(s), render) == Failed(ParsingFailed("Error parsing Markdown file: " + render(s).message))
  {
    DecodeEncode(s);
  }

  /** The four extensions the dispatcher accepts. */
  predicate IsSupportedExtension(ext: string) {
    ext == ".txt" || ext == ".pdf" || ext == ".docx" || ext == ".md"
  }

  /** `extract_text_from_file`: dispatch on the extension of the lowercased
      name; any other extension is a ValueError naming it. */
  function ExtractTextFromFile(
    filename: string, content: seq<Byte>,
    readPdf: seq<Byte> -> PdfReading, readDocx: seq<Byte> -> DocxReading,
    render: string -> Rendering): (r: ParseResult)
    ensures !IsSupportedExtension(SplitExtension(Lower(filename))) <==> r.Failed? && r.error.UnsupportedType?
    ensures r.Failed? && r.error.UnsupportedType? ==> r.error.extension == SplitExtension(Lower(filename))
    ensures SplitExtension(Lower(filename)) == ".txt" ==> r == Parsed(ParseTxt(content))
    ensures SplitExtension(Lower(filename)) == ".pdf" ==> r == PdfResult(readPdf(content))
    ensures SplitExtension(Lower(filename)) == ".docx" ==> r == ParseDocx(readDocx(content))
    ensures SplitExtension(Lower(filename)) == ".md" ==> r == ParseMarkdown(content, render)
  {
    var ext := SplitExtension(Lower(filename));
    if ext == ".txt" then Parsed(ParseTxt(content))
    else if ext == ".pdf" then PdfResult(readPdf(content))
    else if ext == ".docx" then ParseDocx(readDocx(content))
    else if ext == ".md" then ParseMarkdown(content, render)
    else Failed(UnsupportedType(ext))
  }

  /** Dispatch ignores letter case in the name: names that lowercase to the
      same string are parsed the same way. */
  lemma DispatchIgnoresCase(
    f1: string, f2: string, content: seq<Byte>,
    readPdf: seq<Byte> -> PdfReading, readDocx: seq<Byte> -> DocxReading, render: string -> Rendering)
    requires Lower(f1) == Lower(f2)
    ensures ExtractTextFromFile(f1, content, readPdf, readDocx, render)
         == ExtractTextFromFile(f2, content, readPdf, readDocx, render)
  {
  }

  /** A name consisting of a dot and an extension only (".md", ".TXT") is
      rejected as unsupported with an empty extension. */
  lemma DotOnlyNameUnsupported(
    name: string, content: seq<Byte>,
    readPdf: seq<Byte> -> PdfReading, readDocx: seq<Byte> -> DocxReading, render: string -> Rendering)
    requires |name| >= 1 && name[0] == '.' && '.' !in name[1..] && '/' !in name
    ensures ExtractTextFromFile(name, content, readPdf, readDocx, render) == Failed(UnsupportedType(""))
  {
    var l := Lower(name);
    assert l[0] == '.';
    assert '.' !in l[1..] by {
      forall i | 1 <= i < |l| ensures l[i] != '.' {
        assert name[i] == name[1..][i - 1];
      }
    }
    assert '/' !in l by {
      forall i | 0 <= i < |l| ensures l[i] != '/' {
        assert name[i] != '/';
      }
    }
    LeadingDotHasNoExtension(l);
  }
}
