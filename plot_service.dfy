/**
  The backend endpoint `generate_plot` (backend/main.py): the clean-up of
  the code text returned by the language model, and the choice between an
  `html` payload and an `error` payload paired with status 500.

  The language-model call, `exec` of the generated code and Plotly's
  `to_html` are foreign code: they enter the model as an `Attempt` (a value
  or the text of the exception raised) and as an opaque `execute` function.
 */
module PlotService {
  import opened Wrappers
  import opened Text

  /** The fence that opens a Python code block in Markdown (9 characters). */
  const OpeningFence: string := "```python"

  /** The fence that closes a Markdown code block (3 characters). */
  const ClosingFence: string := "```"

  /** First clean-up step: when the stripped text starts with the opening
      fence, the working text becomes the stripped text after the fence;
      otherwise the text is kept as it is, unstripped. */
  function DropOpeningFence(code: string): (r: string)
    ensures StartsWith(Strip(code), OpeningFence) ==> OpeningFence + r == Strip(code)
    ensures !StartsWith(Strip(code), OpeningFence) ==> r == code
  {
    var stripped := Strip(code);
    if StartsWith(stripped, OpeningFence) then
      assert stripped == stripped[..9] + stripped[9..];
      stripped[9..]
    else
      code
  }

  /** Second clean-up step: when the stripped working text ends with the
      closing fence, the result is the stripped text before the fence;
      otherwise the text is kept as it is. */
  function DropClosingFence(code: string): (r: string)
    ensures EndsWith(Strip(code), ClosingFence) ==> r + ClosingFence == Strip(code)
    ensures !EndsWith(Strip(code), ClosingFence) ==> r == code
  {
    var stripped := Strip(code);
    if EndsWith(stripped, ClosingFence) then
      assert stripped == stripped[..|stripped| - 3] + stripped[|stripped| - 3..];
      stripped[..|stripped| - 3]
    else
      code
  }

  /** The code that is handed to `exec`: both clean-up steps in order. The
      result is never longer than the text the model returned. */
  function CleanCode(code: string): (r: string)
    ensures |r| <= |code|
  {
    DropClosingFence(DropOpeningFence(code))
  }

  /** The clean-up either leaves the text exactly as it was or, having
      removed a fence, makes it at least 3 characters shorter (9 for an
      opening fence). */
  lemma CleanCodeShortens(code: string)
    ensures CleanCode(code) == code || |CleanCode(code)| + 3 <= |code|
    ensures StartsWith(Strip(code), OpeningFence) ==> |CleanCode(code)| + 9 <= |code|
    ensures StartsWith(Strip(code), OpeningFence) || EndsWith(Strip(DropOpeningFence(code)), ClosingFence) ==>
              |CleanCode(code)| + 3 <= |code|
  {
    var first := DropOpeningFence(code);
    if StartsWith(Strip(code), OpeningFence) {
      assert |first| + 9 <= |code|;
    } else if EndsWith(Strip(first), ClosingFence) {
      assert |CleanCode(code)| + 3 == |Strip(first)|;
    }
  }

  /** Text that carries neither fence after stripping is executed exactly as
      the model returned it, surrounding whitespace included. */
  lemma CleanCodeUnfenced(code: string)
    requires !StartsWith(Strip(code), OpeningFence)
    requires !EndsWith(Strip(code), ClosingFence)
    ensures CleanCode(code) == code
  {
  }

  /** The opening fence of a block surrounded by whitespace is removed,
      together with that whitespace. */
  lemma DropOpeningFenceOfBlock(before: string, body: string, after: string)
    requires IsBlank(before) && IsBlank(after)
    ensures DropOpeningFence(before + OpeningFence + body + ClosingFence + after)
            == body + ClosingFence
  {
    var block := OpeningFence + (body + ClosingFence);
    assert before + OpeningFence + body + ClosingFence + after == before + block + after;
    StripAround(before, block, after);
    assert block[..9] == OpeningFence;
  }

  /** Text whose stripped form is `core` followed by the closing fence
      cleans, in the second step, to `core`. */
  lemma DropClosingFenceOfStripped(code: string, core: string)
    requires Strip(code) == core + ClosingFence
    ensures DropClosingFence(code) == core
  {
    assert (core + ClosingFence)[|core|..] == ClosingFence;
    assert (core + ClosingFence)[..|core|] == core;
  }

  /** The closing fence after a body is removed together with the body's
      leading whitespace. */
  lemma DropClosingFenceOfBody(body: string)
    ensures DropClosingFence(body + ClosingFence) == TrimStart(body)
  {
    StripAppend(body, ClosingFence);
    DropClosingFenceOfStripped(body + ClosingFence, TrimStart(body));
  }

  /** A fenced block, with any whitespace around it, cleans to the body of the
      block without its leading whitespace. */
  lemma CleanCodeFenced(before: string, body: string, after: string)
    requires IsBlank(before) && IsBlank(after)
    ensures CleanCode(before + OpeningFence + body + ClosingFence + after) == TrimStart(body)
  {
    DropOpeningFenceOfBlock(before, body, after);
    DropClosingFenceOfBody(body);
  }

  /** Fencing a body that does not start with whitespace and cleaning the
      result gives the body back. */
  lemma CleanCodeRoundTrip(body: string)
    requires body == [] || !IsSpace(body[0])
    ensures CleanCode(OpeningFence + body + ClosingFence) == body
  {
    var code := OpeningFence + body + ClosingFence;
    assert "" + OpeningFence + body + ClosingFence + "" == code;
    CleanCodeFenced("", body, "");
    TrimStartNoLeadingSpace(body);
  }

  /** A call into foreign code: its value, or the text of the exception it
      raised. `Raised` stands only for an exception the endpoint's
      `except Exception` catches, that is an `Exception` subclass. */
  datatype Attempt<T> = Returned(value: T) | Raised(exception: string)

  /** What `local_scope.get("fig")` held after `exec`: a truthy `go.Figure`
      (with the HTML fragment `to_html` made of it), or anything else. */
  datatype Figure = ValidFigure(html: string) | NoFigure

  /** The JSON object the endpoint returns: only an `html` field, or only an
      `error` field. */
  datatype Payload = HtmlPayload(html: string) | ErrorPayload(error: string)

  /** The value `generate_plot` returns: a bare payload (`status` is None) or
      a payload paired with a status code. */
  datatype Reply = Reply(payload: Payload, status: Option<int>)

  const InvalidFigureMessage: string := "Mã được tạo không tạo ra " + "đối tượng 'fig' hợp lệ."

  const ProcessingErrorPrefix: string := "Đã xảy ra lỗi trong quá trình xử lý: "

  /** The error text for an exception: the fixed prefix, then the exception's
      own text, which can be read back after the prefix. */
  function ProcessingError(exception: string): (r: string)
    ensures StartsWith(r, ProcessingErrorPrefix)
    ensures r[|ProcessingErrorPrefix|..] == exception
  {
    ProcessingErrorPrefix + exception
  }

  /** A client reading `error` can tell the invalid-figure error from every
      exception error; GeneratePlot uses this to state that the message
      appears exactly when the code ran without making a valid figure. */
  lemma InvalidFigureDistinct(exception: string)
    ensures InvalidFigureMessage != ProcessingError(exception)
  {
    assert ProcessingError(exception)[0] == 'Đ';
    assert InvalidFigureMessage[0] == 'M';
  }

  /** The endpoint: ask the model for code (`generated`), clean it, run it
      (`execute`) and report the figure's HTML, or an error with status 500.
      An `Exception` from either foreign step ends in the exception branch. */
  function GeneratePlot(generated: Attempt<string>, execute: string -> Attempt<Figure>): (r: Reply)
    ensures r.payload.HtmlPayload? <==> r.status == None
    ensures r.payload.ErrorPayload? <==> r.status == Some(500)
    ensures r.payload.HtmlPayload? <==>
              generated.Returned? && execute(CleanCode(generated.value)).Returned?
              && execute(CleanCode(generated.value)).value.ValidFigure?
    ensures r.payload.HtmlPayload? ==>
              execute(CleanCode(generated.value)) == Returned(ValidFigure(r.payload.html))
    ensures generated.Raised? ==> r.payload == ErrorPayload(ProcessingError(generated.exception))
    ensures generated.Returned? && execute(CleanCode(generated.value)).Raised? ==>
              r.payload == ErrorPayload(ProcessingError(execute(CleanCode(generated.value)).exception))
    ensures r.payload == ErrorPayload(InvalidFigureMessage) <==>
              generated.Returned? && execute(CleanCode(generated.value)) == Returned(NoFigure)
  {
    match generated
    case Raised(e) =>
      InvalidFigureDistinct(e);
      Reply(ErrorPayload(ProcessingError(e)), Some(500))
    case Returned(text) =>
      match execute(CleanCode(text))
      case Raised(e) =>
        InvalidFigureDistinct(e);
        Reply(ErrorPayload(ProcessingError(e)), Some(500))
      case Returned(NoFigure) => Reply(ErrorPayload(InvalidFigureMessage), Some(500))
      case Returned(ValidFigure(html)) => Reply(HtmlPayload(html), None)
  }
}
