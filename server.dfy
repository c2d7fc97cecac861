/**
 * The Express server (server.js): the `/api/generate-questions` handler with
 * its 8000-character budget, and the `/api/extract-text` handler with the
 * upload filter, the stored file name and the extension dispatch.
 */
module Server {
  import opened Wrappers
  import opened Js
  import opened Protocol

  // ---------------------------------------------------------------------------
  // /api/generate-questions

  const Budget: nat := 8000

  /** A text longer than the budget keeps its first 8000 characters and gains `...`. */
  function Truncate(t: string): (r: string)
    ensures |t| <= Budget ==> r == t
    ensures |t| > Budget ==> r == t[..Budget] + "..."
  {
    if |t| > Budget then t[..Budget] + "..." else t
  }

  /** The truncated text is a prefix of the original plus at most the marker, and at most 8003 long. */
  lemma TruncateBounds(t: string)
    ensures |Truncate(t)| <= Budget + 3
    ensures |Truncate(t)| <= |t| + 3
    ensures Truncate(t)[..Min(|t|, Budget)] == t[..Min(|t|, Budget)]
    ensures Truncate(t) != t ==> |t| > Budget
  {
  }

  /** Truncating twice is truncating once. */
  lemma TruncateIdempotent(t: string)
    ensures Truncate(Truncate(t)) == Truncate(t)
  {
    if |t| > Budget {
      var r := Truncate(t);
      assert r[..Budget] == t[..Budget];
    }
  }

  /** The closing instructions of this backend's prompt (answerGuide and sampleAnswer fields). */
  const Tail: string :=
    "- Each question should be highly relevant to the candidate's background and the job requirements\n- Provide TWO types of answers for each question:\n  1. answerGuide: Brief guidelines on how to approach the question\n  2. sampleAnswer: A complete, detailed sample answer the candidate could give\n- Questions should be specific and actionable\n- Format as JSON array with fields: id (number), text (string), type (string), difficulty (string: \"Easy\", \"Medium\", \"Hard\"), answerGuide (string), sampleAnswer (string)\n\nExample JSON format:\n[\n  {\n    \"id\": 1,\n    \"text\": \"Describe a challenging project you worked on and how you overcame obstacles.\",\n    \"type\": \"Behavioral\",\n    \"difficulty\": \"Medium\",\n    \"answerGuide\": \"Use the STAR method: Situation (describe the project context), Task (your responsibilities), Action (specific steps you took), Result (outcomes and learnings). Focus on problem-solving skills and collaboration.\",\n    \"sampleAnswer\": \"I worked on a complex e-commerce platform where we had to integrate multiple payment gateways within a tight deadline. The situation was challenging because we had limited documentation and the APIs were constantly changing. My task was to lead the frontend integration team and ensure seamless user experience. I took several actions: first, I created a comprehensive testing strategy with mock APIs, then I established daily standups with the backend team to stay updated on changes, and finally I implemented a modular payment component that could easily adapt to API changes. The result was that we successfully launched on time with 99.9% uptime and received positive feedback from users about the smooth checkout process.\"\n  }\n]\n\nReturn only valid JSON array."

  /** The prompt opens with the header and closes with the requirements and this endpoint's closing text. */
  function ServerPrompt(p: Params): (r: string)
    ensures Bracketed(r, Header(p.questionCount), Requirements(p) + Tail)
  {
    PromptFrame(p, Truncate, Tail);
    Prompt(p, Truncate, Tail)
  }

  /** However long the inputs, each contributes at most 8003 characters of text to the prompt. */
  lemma ServerPromptBounded(p: Params)
    ensures |ServerPrompt(p)| <= |Header(p.questionCount)| + |Requirements(p)| + |Tail|
      + |ResumeLabel| + |JobLabel| + 2 * (Budget + 4)
  {
    PromptLength(p, Truncate, Tail);
    if Truthy(p.resumeText) { TruncateBounds(p.resumeText.value); }
    if Truthy(p.jobDescription) { TruncateBounds(p.jobDescription.value); }
  }

  /**
   * The handler.  `complete` stands for the chat-completion call (None when
   * it throws) and `parse` for JSON.parse (None when it throws); `sent` is
   * the prompt handed to the model, None when no call was made.
   */
  method GenerateQuestions(body: Body, complete: string -> Option<string>,
                           parse: string -> Option<Json>, now: string)
    returns (resp: Response, sent: Option<string>)
    ensures !HasSource(WithDefaults(body)) ==> resp == BadRequest(MissingSourceMessage) && sent.None?
    ensures HasSource(WithDefaults(body)) ==> sent == Some(ServerPrompt(WithDefaults(body)))
    ensures sent.Some? && complete(sent.value).None? ==> resp == ServerError(GenerateFailedMessage)
    ensures sent.Some? && complete(sent.value).Some? ==>
      resp == ReplyResponse(parse, complete(sent.value).value, now)
    ensures resp.status in {200, 400, 500}
    ensures resp.body.QuestionsBody? <==>
      sent.Some? && complete(sent.value).Some? && ReplyQuestions(parse, complete(sent.value).value).Success?
  {
    var p := WithDefaults(body);
    if !HasSource(p) {
      return BadRequest(MissingSourceMessage), None;
    }
    var prompt := AssemblePrompt(p, Truncate, Tail);
    sent := Some(prompt);
    var completion := complete(prompt);
    if completion.None? {
      return ServerError(GenerateFailedMessage), sent;
    }
    var questions := ReadReply(parse, completion.value);
    if questions.Failure? {
      return ServerError(GenerateFailedMessage), sent;
    }
    resp := Response(200, QuestionsBody(true, questions.value, now));
  }

  // ---------------------------------------------------------------------------
  // Uploads: the filter and the stored name

  const AllowedMimeTypes: seq<string> := [
    "application/pdf",
    "text/plain",
    "application/msword",
    "application/vnd.openxmlformats-officedocument.wordprocessingml.document"
  ]

  const InvalidTypeMessage: string := "Invalid file type. Only PDF, DOC, DOCX, and TXT files are allowed."

  /** Five megabytes: multer refuses a larger file. */
  const MaxUploadBytes: nat := 5 * 1024 * 1024

  /** The upload filter: accepts exactly the four listed mimetypes, otherwise fails with the message. */
  function FileFilter(mimetype: string): (r: Result<bool, string>)
    ensures r.Success? <==> mimetype in AllowedMimeTypes
    ensures r.Success? ==> r.value
    ensures r.Failure? ==> r.error == InvalidTypeMessage
  {
    if mimetype in AllowedMimeTypes then Success(true) else Failure(InvalidTypeMessage)
  }

  /** `Date.now() + '-' + file.originalname`. */
  function StoredFileName(now: nat, originalName: string): string {
    NatToString(now) + "-" + originalName
  }

  /** Reads a stored name back into its timestamp and original name. */
  function ParseStoredName(s: string): Option<(nat, string)> {
    var k := IndexOf(s, '-');
    if k <= 0 || !AllDigits(s[..k]) then None else Some((ParseNat(s[..k]), s[k + 1..]))
  }

  /** The stored name determines both the timestamp and the original name, whatever the latter holds. */
  lemma StoredNameRoundTrip(now: nat, originalName: string)
    ensures ParseStoredName(StoredFileName(now, originalName)) == Some((now, originalName))
  {
    var digits := NatToString(now);
    var s := StoredFileName(now, originalName);
    assert s[|digits|] == '-';
    assert forall k :: 0 <= k < |digits| ==> s[k] == digits[k] && IsDigit(s[k]);
    var k := IndexOf(s, '-');
    assert k == |digits|;
    assert s[..k] == digits;
    assert s[k + 1..] == originalName;
    ParseNatToString(now);
  }

  // ---------------------------------------------------------------------------
  // /api/extract-text

  /**
   * `path.extname` of a plain file name: from the last `.` to the end, or
   * empty when there is no dot, the only dot opens the name, or the name is `..`.
   */
  function ExtName(name: string): (ext: string)
    ensures ext != "" ==> |ext| < |name| && ext == name[|name| - |ext|..] && ext[0] == '.'
    ensures ext != "" ==> forall k :: 1 <= k < |ext| ==> ext[k] != '.'
    ensures LastIndexOf(name, '.') <= 0 ==> ext == ""
    ensures name == ".." ==> ext == ""
  {
    var dot := LastIndexOf(name, '.');
    if dot <= 0 || name == ".." then "" else name[dot..]
  }

  datatype FileKind = Pdf | PlainText | Word | Unsupported

  /** The branch taken for an already lower-cased extension. */
  function Classify(ext: string): (k: FileKind)
    ensures k == Pdf <==> ext == ".pdf"
    ensures k == PlainText <==> ext == ".txt"
    ensures k == Word <==> ext == ".doc" || ext == ".docx"
  {
    if ext == ".pdf" then Pdf
    else if ext == ".txt" then PlainText
    else if ext == ".doc" || ext == ".docx" then Word
    else Unsupported
  }

  function FileExtension(originalName: string): string {
    ToLower(ExtName(originalName))
  }

  /** Case does not change the branch: only the lower-cased extension is compared. */
  lemma ClassifyIgnoresCase(a: string, b: string)
    requires |ExtName(a)| == |ExtName(b)|
    requires forall k :: 0 <= k < |ExtName(a)| ==> LowerChar(ExtName(a)[k]) == LowerChar(ExtName(b)[k])
    ensures Classify(FileExtension(a)) == Classify(FileExtension(b))
  {
    assert FileExtension(a) == FileExtension(b);
  }

  function PdfPlaceholder(name: string): string {
    "[PDF file received: " + name + " - Text extraction temporarily unavailable. Please paste the content manually.]"
  }

  function WordPlaceholder(name: string): string {
    "[DOC/DOCX file: " + name + " - Text extraction failed. Please paste content manually.]"
  }

  function UnsupportedPlaceholder(ext: string): string {
    "[Unsupported file type: " + ext + " - Please use PDF, DOC, DOCX, or TXT files]"
  }

  const NoFileMessage: string := "No file uploaded"
  const ExtractFailedMessage: string := "Failed to extract text from file"

  /** A file that passed the upload filter. */
  datatype Upload = Upload(originalName: string, mimetype: string, size: nat)

  /**
   * The handler.  `reader` is what the branch's reader produced (pdf-parse,
   * the plain-text read or mammoth), None when it threw; `cleanupOk` says
   * whether deleting the temporary file succeeded.
   */
  method ExtractText(file: Option<Upload>, reader: Option<string>, cleanupOk: bool)
    returns (resp: Response)
    ensures file.None? ==> resp == BadRequest(NoFileMessage)
    ensures file.Some? && !cleanupOk ==> resp == ServerError(ExtractFailedMessage)
    ensures file.Some? && Classify(FileExtension(file.value.originalName)) == PlainText && reader.None? ==>
      resp == ServerError(ExtractFailedMessage)
    ensures file.Some? && cleanupOk ==> var f := file.value; var ext := FileExtension(f.originalName);
      match Classify(ext)
      case Pdf => resp == Response(200, ExtractedBody(true, reader.GetOr(PdfPlaceholder(f.originalName)), f.originalName, f.size))
      case Word => resp == Response(200, ExtractedBody(true, reader.GetOr(WordPlaceholder(f.originalName)), f.originalName, f.size))
      case Unsupported => resp == Response(200, ExtractedBody(true, UnsupportedPlaceholder(ext), f.originalName, f.size))
      case PlainText => reader.Some? ==> resp == Response(200, ExtractedBody(true, reader.value, f.originalName, f.size))
  {
    if file.None? {
      return BadRequest(NoFileMessage);
    }
    var f := file.value;
    var fileExtension := ToLower(ExtName(f.originalName));
    var extractedText := "";
    if fileExtension == ".pdf" {
      extractedText := if reader.Some? then reader.value else PdfPlaceholder(f.originalName);
    } else if fileExtension == ".txt" {
      if reader.None? {
        return ServerError(ExtractFailedMessage);
      }
      extractedText := reader.value;
    } else if fileExtension == ".doc" || fileExtension == ".docx" {
      extractedText := if reader.Some? then reader.value else WordPlaceholder(f.originalName);
    } else {
      extractedText := UnsupportedPlaceholder(fileExtension);
    }
    if !cleanupOk {
      return ServerError(ExtractFailedMessage);
    }
    resp := Response(200, ExtractedBody(true, extractedText, f.originalName, f.size));
  }

  /** A name with a non-empty stem has the text after its last dot, dot included, as extension. */
  lemma ExtNameOfStem(stem: string, ext: string)
    requires stem != "" && stem + "." + ext != ".."
    requires forall k :: 0 <= k < |ext| ==> ext[k] != '.'
    ensures ExtName(stem + "." + ext) == "." + ext
  {
    var name := stem + "." + ext;
    assert name == stem + ['.'] + ext;
    LastIndexOfSplit(stem, '.', ext);
    assert name[|stem|..] == "." + ext;
  }

  /** A name whose only dot opens it, such as `.pdf`, has no extension. */
  lemma DotFileHasNoExtension(rest: string)
    requires forall k :: 0 <= k < |rest| ==> rest[k] != '.'
    ensures ExtName("." + rest) == ""
    ensures Classify(FileExtension("." + rest)) == Unsupported
  {
    assert "." + rest == [] + ['.'] + rest;
    LastIndexOfSplit([], '.', rest);
  }

  /** An upper-case `.PDF` takes the PDF branch. */
  lemma UpperCasePdf(stem: string)
    requires stem != ""
    ensures Classify(FileExtension(stem + ".PDF")) == Pdf
  {
    assert stem + ".PDF" == stem + "." + "PDF";
    ExtNameOfStem(stem, "PDF");
    assert ToLower(".PDF") == ".pdf";
  }
}
