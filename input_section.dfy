/**
 * The contract form (components/InputSection.tsx): which reader a file name
 * selects, the page-by-page text a PDF yields, the `isReadingFile` flag
 * across a file read, the sample loader, and when the analyze button is
 * enabled. The browser's file reading and the Word and PDF libraries are
 * inputs: a read ends in one of the `ReadCompletion` outcomes.
 */
module InputForm {
  import opened Wrappers
  import opened Json

  // ---------------------------------------------------------------------------
  // File-type dispatch
  // ---------------------------------------------------------------------------

  datatype FileKind = Word | Pdf | PlainText

  /** The reader for a file, chosen by the ending of its lower-cased name. */
  function FileKindOf(name: string): (k: FileKind)
    ensures k == Word <==> EndsWith(ToLower(name), ".docx")
    ensures k == Pdf <==> !EndsWith(ToLower(name), ".docx") && EndsWith(ToLower(name), ".pdf")
    ensures k == PlainText <==> !EndsWith(ToLower(name), ".docx") && !EndsWith(ToLower(name), ".pdf")
  {
    var lower := ToLower(name);
    if EndsWith(lower, ".docx") then Word
    else if EndsWith(lower, ".pdf") then Pdf
    else PlainText
  }

  /** The dispatch ignores letter case: a name and its lower-cased form pick the same reader. */
  lemma FileKindIgnoresCase(name: string)
    ensures FileKindOf(ToLower(name)) == FileKindOf(name)
  {
    ToLowerIdempotent(name);
  }

  /** Upper-case extensions are recognised: `X.PDF` is read as a PDF and `X.DOCX` as a Word file. */
  lemma UpperCaseExtensions(stem: string)
    ensures FileKindOf(stem + ".PDF") == Pdf
    ensures FileKindOf(stem + ".DOCX") == Word
  {
    var p := ToLower(stem + ".PDF");
    assert p[|p| - 4..] == ".pdf";
    assert p[|p| - 1] == 'f';
    var d := ToLower(stem + ".DOCX");
    assert d[|d| - 5..] == ".docx";
  }

  // ---------------------------------------------------------------------------
  // PDF text
  // ---------------------------------------------------------------------------

  /** `Array.prototype.join`. */
  function Join(items: seq<string>, sep: string): string
  {
    if |items| == 0 then ""
    else if |items| == 1 then items[0]
    else Join(items[..|items| - 1], sep) + sep + items[|items| - 1]
  }

  /** A page's text: its item strings joined with single spaces. */
  function PageText(items: seq<string>): string
  {
    Join(items, " ")
  }

  /** The text of pages `1..numPages`: each page's text followed by a blank line, in page order. */
  function PdfText(pages: seq<seq<string>>): string
  {
    if pages == [] then "" else PdfText(pages[..|pages| - 1]) + PageText(pages[|pages| - 1]) + "\n\n"
  }

  /** The extraction loop: `fullText += pageText + '\n\n'` for each page in turn. */
  method ExtractPdfText(pages: seq<seq<string>>) returns (fullText: string)
    ensures fullText == PdfText(pages)
  {
    fullText := "";
    for i := 0 to |pages|
      invariant fullText == PdfText(pages[..i])
    {
      assert pages[..i + 1][..i] == pages[..i];
      fullText := fullText + PageText(pages[i]) + "\n\n";
    }
    assert pages[..|pages|] == pages;
  }

  /** The text of a document split into two runs of pages is the text of the first run followed by that of the second. */
  lemma {:induction false} PdfTextAppend(a: seq<seq<string>>, b: seq<seq<string>>)
    ensures PdfText(a + b) == PdfText(a) + PdfText(b)
    decreases |b|
  {
    if b == [] {
      assert a + b == a;
    } else {
      var b' := b[..|b| - 1];
      assert (a + b)[..|a + b| - 1] == a + b';
      PdfTextAppend(a, b');
    }
  }

  /** Page `i` (0-based) appears, followed by its blank line, right after the text of the pages before it. */
  lemma PdfTextPage(pages: seq<seq<string>>, i: nat)
    requires i < |pages|
    ensures var start := |PdfText(pages[..i])|;
            var block := PageText(pages[i]) + "\n\n";
            start + |block| <= |PdfText(pages)| && PdfText(pages)[start..start + |block|] == block
  {
    assert pages == (pages[..i] + [pages[i]]) + pages[i + 1..];
    PdfTextAppend(pages[..i] + [pages[i]], pages[i + 1..]);
    assert (pages[..i] + [pages[i]])[..i] == pages[..i];
  }

  /** Every page contributes at least its blank line. */
  lemma {:induction false} PdfTextLength(pages: seq<seq<string>>)
    ensures |PdfText(pages)| >= 2 * |pages|
  {
    if pages != [] {
      PdfTextLength(pages[..|pages| - 1]);
    }
  }

  // ---------------------------------------------------------------------------
  // The analyze button
  // ---------------------------------------------------------------------------

  /**
   * `!text.trim() || isLoading || isReadingFile`: an enabled button always has some non-whitespace
   * text to send, and nothing in progress.
   */
  predicate AnalyzeDisabled(text: string, isLoading: bool, isReadingFile: bool)
    ensures !AnalyzeDisabled(text, isLoading, isReadingFile) ==>
      !isLoading && !isReadingFile && exists i :: 0 <= i < |text| && !IsWhitespace(text[i])
  {
    TrimEmptyIff(text);
    Trim(text) == "" || isLoading || isReadingFile
  }

  /** The button is enabled exactly when the text has a non-whitespace character and nothing is in progress. */
  lemma AnalyzeEnabledIff(text: string, isLoading: bool, isReadingFile: bool)
    ensures !AnalyzeDisabled(text, isLoading, isReadingFile) <==>
            (exists i :: 0 <= i < |text| && !IsWhitespace(text[i])) && !isLoading && !isReadingFile
  {
    TrimEmptyIff(text);
  }

  // ---------------------------------------------------------------------------
  // The component's state
  // ---------------------------------------------------------------------------

  // The sample is one template literal in the component. The leading word is kept as its own literal
  // only because the verifier does not unfold the characters of a long string literal, and
  // `SampleEnablesAnalyze` needs the first character.
  const SampleTitle: string := "CONTRATO" + " DE PRESTAÇÃO DE SERVIÇOS DE MARKETING"
  const SampleBody: string := "\n\nENTRE:\nCLIENTE: Empresa X Ltda...\nCONTRATADA: Agência Y...\n\nCLÁUSULA 3 - PAGAMENTO\nO CLIENTE pagará R$ 5.000,00 mensais. Em caso de atraso, multa de 100% sobre o valor.\n\nCLÁUSULA 7 - RESCISÃO\nA CONTRATADA pode rescindir este contrato a qualquer momento sem aviso prévio. O CLIENTE deve dar aviso prévio de 180 dias.\n\nCLÁUSULA 9 - FORO\nFica eleito o foro da Comarca de Nova Iorque, EUA, para dirimir quaisquer dúvidas."

  /** The fixed example contract the "Carregar Exemplo" button loads. */
  const SampleContract: string := SampleTitle + SampleBody

  const WordFailureAlert: string := "Erro ao processar o arquivo Word. Certifique-se de que é um .docx válido."
  const PdfFailureAlertPrefix: string := "Erro ao processar o arquivo PDF: "
  const ReadFailureAlert: string := "Erro ao ler o arquivo."

  /** How an asynchronous read started by `handleFileChange` ends. */
  datatype ReadCompletion =
    | WordRead(value: string)
    | WordFailed
    | PdfRead(pages: seq<seq<string>>)
    | PdfFailed(message: string)
    | TextRead(content: string)

  /** The text a completed read puts into the form, if any. */
  function ExtractedText(c: ReadCompletion): (r: Option<string>)
    ensures r.None? <==> c.WordFailed? || c.PdfFailed?
    ensures c.PdfRead? ==> r == Some(PdfText(c.pages))
  {
    match c
    case WordRead(value) => Some(value)
    case WordFailed => None
    case PdfRead(pages) => Some(PdfText(pages))
    case PdfFailed(_) => None
    case TextRead(content) => Some(content)
  }

  class InputSection {
    var text: string
    var context: string
    var isReadingFile: bool
    /** The file input's value: the chosen file's name, cleared once a read finishes. */
    var inputValue: string

    constructor()
      ensures text == "" && context == "" && !isReadingFile && inputValue == ""
    {
      text := "";
      context := "";
      isReadingFile := false;
      inputValue := "";
    }

    /**
     * `handleFileChange` up to the start of the read: with no file nothing happens; otherwise the flag is
     * raised and the reader is chosen. `startThrows` is a synchronous throw while starting the read, which
     * is caught, alerted, and lowers the flag again without clearing the input.
     */
    method HandleFileChange(file: Option<string>, startThrows: bool) returns (kind: Option<FileKind>, alert: Option<string>)
      modifies this
      ensures file.None? ==> kind.None? && alert.None? && isReadingFile == old(isReadingFile) && inputValue == old(inputValue)
      ensures file.Some? && !startThrows ==> kind == Some(FileKindOf(file.value)) && alert.None? && isReadingFile && inputValue == file.value
      // While the started read runs, neither a second upload nor an analysis can be started.
      ensures file.Some? && !startThrows ==>
        forall isLoading :: UploadDisabled(isLoading) && AnalyzeDisabled(text, isLoading, isReadingFile)
      ensures file.Some? && startThrows ==> kind.None? && alert == Some(ReadFailureAlert) && !isReadingFile && inputValue == file.value
      ensures text == old(text) && context == old(context)
    {
      kind := None;
      alert := None;
      if file.Some? {
        inputValue := file.value;
        isReadingFile := true;
        if startThrows {
          alert := Some(ReadFailureAlert);
          isReadingFile := false;
        } else {
          kind := Some(FileKindOf(file.value));
        }
      }
    }

    /**
     * The end of a read, on every path: the extracted text replaces `text` only on success, the flag is
     * lowered and the file input is cleared; a failure raises an alert.
     */
    method CompleteFileRead(c: ReadCompletion) returns (alert: Option<string>)
      modifies this
      ensures ExtractedText(c).Some? ==> text == ExtractedText(c).value && alert.None?
      ensures ExtractedText(c).None? ==> text == old(text) && alert.Some?
      ensures c.WordFailed? ==> alert == Some(WordFailureAlert)
      ensures c.PdfFailed? ==> alert == Some(PdfFailureAlertPrefix + c.message)
      ensures !isReadingFile && inputValue == "" && context == old(context)
      // Once the read is over, an idle page can upload again.
      ensures !UploadDisabled(false)
    {
      alert := None;
      match c {
        case WordRead(value) =>
          text := value;
        case WordFailed =>
          alert := Some(WordFailureAlert);
        case PdfRead(pages) =>
          var fullText := ExtractPdfText(pages);
          text := fullText;
        case PdfFailed(message) =>
          alert := Some(PdfFailureAlertPrefix + message);
        case TextRead(content) =>
          text := content;
      }
      isReadingFile := false;
      inputValue := "";
    }

    /** `handleSampleLoad`: the sample replaces the text; the context is kept. */
    method HandleSampleLoad()
      modifies this
      ensures text == SampleContract
      ensures context == old(context) && isReadingFile == old(isReadingFile) && inputValue == old(inputValue)
    {
      text := SampleContract;
    }

    /** A click on the analyze button: when it is enabled, `onAnalyze` receives the text and context unchanged. */
    method ClickAnalyze(isLoading: bool) returns (call: Option<(string, string)>)
      ensures call.Some? <==> !AnalyzeDisabled(text, isLoading, isReadingFile)
      ensures call.Some? ==> call.value == (text, context)
    {
      if AnalyzeDisabled(text, isLoading, isReadingFile) {
        call := None;
      } else {
        call := Some((text, context));
      }
    }

    /** A click on the upload button: the file picker opens exactly when the button is enabled. */
    method ClickUpload(isLoading: bool) returns (opensPicker: bool)
      ensures opensPicker ==> !isReadingFile && !isLoading
      ensures opensPicker <==> !UploadDisabled(isLoading)
    {
      opensPicker := !UploadDisabled(isLoading);
    }

    /**
     * The upload button and the text area are disabled while a file is read or an analysis runs. Whatever
     * locks them also locks the analyze button; with them unlocked, only empty text keeps it disabled.
     */
    function UploadDisabled(isLoading: bool): (disabled: bool)
      reads this
      ensures isReadingFile ==> disabled
      ensures !isReadingFile && !isLoading ==> !disabled
      ensures disabled ==> AnalyzeDisabled(text, isLoading, isReadingFile)
      ensures !disabled ==> (AnalyzeDisabled(text, isLoading, isReadingFile) <==> Trim(text) == "")
    {
      isReadingFile || isLoading
    }
  }

  /** Once the sample is loaded and nothing is in progress, the analyze button is enabled. */
  lemma SampleEnablesAnalyze()
    ensures !AnalyzeDisabled(SampleContract, false, false)
  {
    assert SampleContract[0] == SampleTitle[0] == "CONTRATO"[0] == 'C';
    AnalyzeEnabledIff(SampleContract, false, false);
  }
}
