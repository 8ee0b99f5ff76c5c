/**
 * main_combined.py POST /chat and POST /ocr: the status codes they answer
 * with around the language-model call, which is an input here. /chat takes
 * the first non-empty of four message fields; /ocr dispatches on the
 * lower-cased file extension.
 */
module ChatOcr {
  import opened Wrappers
  import opened PyStr

  /** The four optional spellings of the chat message. */
  datatype ChatRequest = ChatRequest(message: Option<string>, prompt: Option<string>, text: Option<string>, question: Option<string>)

  /** A string is truthy when present and non-empty. */
  predicate Truthy(s: Option<string>) {
    s.Some? && s.value != ""
  }

  function Fields(r: ChatRequest): seq<Option<string>> {
    [r.message, r.prompt, r.text, r.question]
  }

  /** The first truthy field, if any. */
  function FirstTruthy(fs: seq<Option<string>>): (m: Option<string>)
    ensures m.Some? <==> exists i :: 0 <= i < |fs| && Truthy(fs[i])
    ensures m.Some? ==> m.value != "" && exists i :: 0 <= i < |fs| && fs[i] == m && forall j :: 0 <= j < i ==> !Truthy(fs[j])
  {
    if fs == [] then None
    else if Truthy(fs[0]) then fs[0]
    else
      var m := FirstTruthy(fs[1..]);
      assert forall i :: 1 <= i < |fs| ==> fs[i] == fs[1..][i - 1];
      m
  }

  /** `message or prompt or text or question`, None when the result is falsy. */
  function Coalesce(r: ChatRequest): Option<string> {
    FirstTruthy(Fields(r))
  }

  /** The language model call: it raised, or it returned a possibly empty content. */
  datatype LlmOutcome = LlmRaised | LlmContent(content: Option<string>)

  datatype Reply = Json(body: string) | Status(code: int)

  /** POST /chat. */
  function Chat(clientAvailable: bool, r: ChatRequest, llm: string -> LlmOutcome): (reply: Reply)
    ensures reply == Status(503) <==> !clientAvailable
    ensures reply == Status(422) <==> clientAvailable && forall i :: 0 <= i < 4 ==> !Truthy(Fields(r)[i])
    ensures reply.Json? ==> clientAvailable && Coalesce(r).Some? && Coalesce(r).value != ""
    ensures reply == Status(500) <==> clientAvailable && Coalesce(r).Some? && llm(Coalesce(r).value).LlmRaised?
    ensures reply == Status(502) <==>
      clientAvailable && Coalesce(r).Some? && llm(Coalesce(r).value).LlmContent? && !Truthy(llm(Coalesce(r).value).content)
    ensures reply.Json? ==> exists c :: llm(Coalesce(r).value) == LlmContent(c) && Truthy(c) && reply == Json(Strip(c.value))
  {
    if !clientAvailable then Status(503)
    else match Coalesce(r)
      case None => Status(422)
      case Some(m) =>
        match llm(m)
        case LlmRaised => Status(500)
        case LlmContent(c) =>
          if !Truthy(c) then Status(502)
          else Json(Strip(c.value))
  }

  /** The message field wins over the others whenever it is non-empty. */
  lemma MessageFieldFirst(r: ChatRequest)
    requires Truthy(r.message)
    ensures Coalesce(r) == r.message
  {
  }

  /** An empty message falls through to the next field. */
  lemma EmptyFieldsSkipped(r: ChatRequest)
    requires !Truthy(r.message) && !Truthy(r.prompt) && Truthy(r.text)
    ensures Coalesce(r) == r.text
  {
    var fs := Fields(r);
    assert fs[1..] == [r.prompt, r.text, r.question];
    assert fs[1..][1..] == [r.text, r.question];
    assert FirstTruthy(fs[1..][1..]) == r.text;
  }

  /** What an upload is dispatched as. */
  datatype UploadKind = PdfUpload | ImageUpload | Unsupported

  /** One of the three image extensions. */
  predicate ImageName(f: string) {
    EndsWith(f, ".png") || EndsWith(f, ".jpg") || EndsWith(f, ".jpeg")
  }

  function UploadKindOf(filename: string): (k: UploadKind)
    ensures k == PdfUpload <==> EndsWith(Lower(filename), ".pdf")
    ensures k == ImageUpload <==> !EndsWith(Lower(filename), ".pdf") && ImageName(Lower(filename))
  {
    var f := Lower(filename);
    if EndsWith(f, ".pdf") then PdfUpload
    else if ImageName(f) then ImageUpload
    else Unsupported
  }

  /**
   * POST /ocr as written: the HTTPException(400) for an unsupported type is
   * raised inside the `try` whose `except Exception` turns every exception
   * into a 500, so an unsupported file gets 500.
   */
  function OcrAsWritten(clientAvailable: bool, filename: string, extract: UploadKind -> Option<string>): (reply: Reply)
    ensures !clientAvailable ==> reply == Status(503)
    ensures clientAvailable && UploadKindOf(filename) == Unsupported ==> reply == Status(500)
  {
    if !clientAvailable then Status(503)
    else
      var k := UploadKindOf(filename);
      if k == Unsupported then Status(500)
      else match extract(k)
        case None => Status(500)
        case Some(body) => Json(body)
  }

  /** POST /ocr as evidently intended: an unsupported type answers 400. */
  function Ocr(clientAvailable: bool, filename: string, extract: UploadKind -> Option<string>): (reply: Reply)
    ensures !clientAvailable ==> reply == Status(503)
    ensures clientAvailable ==> (reply == Status(400) <==> UploadKindOf(filename) == Unsupported)
  {
    if !clientAvailable then Status(503)
    else
      var k := UploadKindOf(filename);
      if k == Unsupported then Status(400)
      else match extract(k)
        case None => Status(500)
        case Some(body) => Json(body)
  }

  /** The two differ only on unsupported types: the status the code means to send never reaches the client. */
  lemma OcrUnsupportedAnswers500(extract: UploadKind -> Option<string>)
    ensures UploadKindOf("notes.txt") == Unsupported
    ensures OcrAsWritten(true, "notes.txt", extract) == Status(500)
    ensures Ocr(true, "notes.txt", extract) == Status(400)
  {
    assert Lower("notes.txt") == "notes.txt";
    assert "notes.txt"[5..] == ".txt";
  }

  /** On every supported upload, and without a client, the two agree. */
  lemma OcrAgreesOnSupported(clientAvailable: bool, filename: string, extract: UploadKind -> Option<string>)
    requires !clientAvailable || UploadKindOf(filename) != Unsupported
    ensures OcrAsWritten(clientAvailable, filename, extract) == Ocr(clientAvailable, filename, extract)
  {
  }

  /** The extension test ignores letter case: "SCAN.PDF" is a PDF. */
  lemma UpperCaseExtension()
    ensures UploadKindOf("SCAN.PDF") == PdfUpload
  {
    assert Lower("SCAN.PDF") == "scan.pdf";
  }
}
