/**
  The chat view of the frontend (frontend/src/App.jsx): a transcript of
  records, the text being typed, a busy flag, the plot shown full screen and
  the colour theme, updated by the submit cycle and two toggles.

  The request to the backend is not performed here. `BeginSubmit` is the part
  of `handleSubmit` before the request and hands back the prompt to send;
  `CompleteSubmit` is the part after it, given what the request came to.
 */
module ChatApp {
  import opened Wrappers
  import opened Text

  /** One transcript record: a `user` or `bot` text, or a `plot` document. */
  datatype Message = User(text: string) | Bot(text: string) | Plot(html: string)

  /** How the request to the backend ended. `Responded` carries the response's
      `ok` flag and the `html` and `detail` fields of its JSON body (None when
      the field is missing); `Threw` is a failed fetch or an unreadable body. */
  datatype Outcome =
    | Responded(ok: bool, html: Option<string>, detail: Option<string>)
    | Threw

  datatype Theme = Dark | Light

  /** The first greeting. */
  const Welcome: string := "Chào bạn! Bạn muốn tôi vẽ mô hình 3D nào hôm nay?"

  /** The second greeting, with example prompts. */
  const Hint: string := "Hãy thử các prompt như: \"vẽ một quả cầu\", \"tạo hình bánh donut\", \"vẽ một mặt phẳng hình sin\" "

  /** The two bot greetings every transcript starts with. */
  function Greetings(): (g: seq<Message>)
    ensures |g| == 2 && g[0].Bot? && g[1].Bot? && g[0] != g[1]
  {
    [Bot(Welcome), Bot(Hint)]
  }

  const ErrorPrefix: string := "Rất tiếc, đã có lỗi: "

  const DefaultDetail: string := "Không thể xử lý yêu cầu."

  const ConnectionErrorText: string := "Không thể kết nối tới server. " + "Vui lòng kiểm tra lại."

  /** The lines of the markup placed before the backend's html fragment in a
      plot record; the first is empty, as the template starts with a line
      break. */
  const DocumentHeadLines: seq<string> := [
    "",
    "                  <html>",
    "                    <head>",
    "                      <meta name=\"viewport\" content=\"width=device-width, initial-scale=1\" />",
    "                      <style>",
    "                        html, body {",
    "                          margin: 0;",
    "                          padding: 0;",
    "                          width: 100vw;",
    "                          height: 100vh;",
    "                          min-width: 100vw;",
    "                          min-height: 100vh;",
    "                          box-sizing: border-box;",
    "                          background-color: transparent !important;",
    "                        }",
    "                        .plotly, .js-plotly-plot, .main-svg, .svg-container, .plot-container {",
    "                          width: 100vw !important;",
    "                          height: 100vh !important;",
    "                          min-width: 100vw !important;",
    "                          min-height: 100vh !important;",
    "                        }",
    "                        .js-plotly-plot, .plot-container, .svg-container {",
    "                          background: transparent !important;",
    "                        }",
    "                        body > div { box-sizing: border-box; }",
    "                      </style>",
    "                    </head>",
    "                    <body>",
    "                      "
  ]

  /** The lines joined with line breaks between them. */
  function JoinLines(lines: seq<string>): string {
    if |lines| == 0 then ""
    else if |lines| == 1 then lines[0]
    else lines[0] + "\n" + JoinLines(lines[1..])
  }

  /** The markup placed before the backend's html fragment in a plot record. */
  const DocumentHead: string := JoinLines(DocumentHeadLines)

  /** The markup placed after the backend's html fragment in a plot record. */
  const DocumentTail: string := "\n                    </body>\n                  </html>\n                "

  /** JavaScript truthiness of an optional string field: present and not "". */
  predicate Truthy(field: Option<string>)
    ensures !Truthy(field) <==> field == None || field == Some("")
  {
    field.Some? && field.value != ""
  }

  /** The document shown in a plot record's frame: the fixed head, the html
      fragment, the fixed tail. The fragment can be read back from its place. */
  function PlotDocument(html: string): (r: string)
    ensures |r| == |DocumentHead| + |html| + |DocumentTail|
    ensures r[..|DocumentHead|] == DocumentHead
    ensures r[|DocumentHead|..|DocumentHead| + |html|] == html
    ensures r[|DocumentHead| + |html|..] == DocumentTail
  {
    ThreePieces(DocumentHead, html, DocumentTail);
    DocumentHead + html + DocumentTail
  }

  /** Each piece of `a + b + c` can be sliced back out. */
  lemma ThreePieces(a: string, b: string, c: string)
    ensures |a + b + c| == |a| + |b| + |c|
    ensures (a + b + c)[..|a|] == a
    ensures (a + b + c)[|a|..|a| + |b|] == b
    ensures (a + b + c)[|a| + |b|..] == c
  {
  }

  /** Two plot documents are equal exactly when their fragments are. */
  lemma PlotDocumentInjective(a: string, b: string)
    ensures PlotDocument(a) == PlotDocument(b) <==> a == b
  {
    if PlotDocument(a) == PlotDocument(b) {
      var d := PlotDocument(a);
      assert a == d[|DocumentHead|..|DocumentHead| + |a|];
    }
  }

  /** The text of the bot record for a response that is not a plot: the
      error prefix, then `detail` when it is truthy and the default message
      otherwise. */
  function ErrorText(detail: Option<string>): (r: string)
    ensures StartsWith(r, ErrorPrefix)
    ensures Truthy(detail) ==> r[|ErrorPrefix|..] == detail.value
    ensures !Truthy(detail) ==> r[|ErrorPrefix|..] == DefaultDetail
  {
    ErrorPrefix + (if Truthy(detail) then detail.value else DefaultDetail)
  }

  /** A connection failure never reads like a server-reported error. */
  lemma ConnectionErrorDistinct(detail: Option<string>)
    ensures ErrorText(detail) != ConnectionErrorText
  {
    assert ErrorText(detail)[0] == 'R';
    assert ConnectionErrorText[0] == 'K';
  }

  /** The one record a finished request appends. It is a plot exactly when
      the response was ok and carried a non-empty html fragment; otherwise
      it is a bot text telling the two kinds of failure apart. */
  function Reply(outcome: Outcome): (r: Message)
    ensures !r.User?
    ensures r.Plot? <==> outcome.Responded? && outcome.ok && Truthy(outcome.html)
    ensures r.Plot? ==> r.html == PlotDocument(outcome.html.value)
    ensures outcome.Responded? && !r.Plot? ==> r == Bot(ErrorText(outcome.detail))
    ensures outcome.Threw? <==> r == Bot(ConnectionErrorText)
  {
    match outcome
    case Threw => Bot(ConnectionErrorText)
    case Responded(ok, html, detail) =>
      if ok && Truthy(html) then Plot(PlotDocument(html.value))
      else
        ConnectionErrorDistinct(detail);
        Bot(ErrorText(detail))
  }

  /** The full-screen selection after pressing the zoom button of record
      `index`: cleared when that record was selected, that record otherwise. */
  function Toggled(selected: Option<nat>, index: nat): (r: Option<nat>)
    ensures r == Some(index) <==> selected != Some(index)
    ensures r.None? <==> selected == Some(index)
  {
    if selected == Some(index) then None else Some(index)
  }

  /** Pressing the same zoom button twice restores the selection exactly when
      nothing or that record was selected; if another plot was full screen,
      the second press leaves none selected. */
  lemma ToggledTwice(selected: Option<nat>, index: nat)
    ensures Toggled(Toggled(selected, index), index) == selected
            <==> selected.None? || selected == Some(index)
    ensures selected.Some? && selected != Some(index) ==>
            Toggled(Toggled(selected, index), index).None?
  {
  }

  /** The theme after pressing the theme button: the other one. */
  function Flipped(theme: Theme): (r: Theme)
    ensures r != theme
  {
    if theme == Dark then Light else Dark
  }

  /** Pressing the theme button twice restores the theme. */
  lemma FlippedTwice(theme: Theme)
    ensures Flipped(Flipped(theme)) == theme
  {
  }

  /** The records after the greetings alternate: user prompts at even
      positions, replies at odd ones. */
  predicate Alternating(turns: seq<Message>) {
    forall k :: 0 <= k < |turns| ==> (turns[k].User? <==> k % 2 == 0)
  }

  /** The shape of every transcript: the greetings, then prompts and replies
      alternating, ending with a prompt exactly while its request is
      outstanding. */
  predicate WellFormed(messages: seq<Message>, loading: bool)
    ensures WellFormed(messages, loading) ==>
              |messages| >= 2 && messages[0] == Bot(Welcome) && (loading <==> messages[|messages| - 1].User?)
  {
    && |messages| >= 2
    && messages[..2] == Greetings()
    && Alternating(messages[2..])
    && (LastTurn(messages); loading <==> |messages| % 2 == 1)
  }

  /** After the greetings and alternating turns, the last record is a prompt
      exactly when the transcript has odd length. */
  lemma LastTurn(messages: seq<Message>)
    requires |messages| >= 2 && messages[..2] == Greetings() && Alternating(messages[2..])
    ensures messages[0] == Bot(Welcome)
    ensures messages[|messages| - 1].User? <==> |messages| % 2 == 1
  {
    assert messages[0] == messages[..2][0];
    if |messages| == 2 {
      assert messages[1] == messages[..2][1];
    } else {
      assert messages[|messages| - 1] == messages[2..][|messages| - 3];
    }
  }

  /** Appending a prompt while idle, or a reply while busy, keeps the shape
      and flips the busy flag. */
  lemma WellFormedAppend(messages: seq<Message>, loading: bool, m: Message)
    requires WellFormed(messages, loading)
    requires m.User? <==> !loading
    ensures WellFormed(messages + [m], !loading)
  {
    var longer := messages + [m];
    assert longer[..2] == messages[..2];
    assert longer[2..] == messages[2..] + [m];
    AlternatingAppend(messages[2..], m);
    assert loading <==> |messages| % 2 == 1;
  }

  /** A turn of the expected kind extends an alternating sequence. */
  lemma AlternatingAppend(turns: seq<Message>, m: Message)
    requires Alternating(turns)
    requires m.User? <==> |turns| % 2 == 0
    ensures Alternating(turns + [m])
  {
  }

  /** The state of the chat view. */
  class Chat {
    var messages: seq<Message>
    var input: string
    var loading: bool
    var fullscreen: Option<nat>
    var theme: Theme

    /** The transcript starts with the greetings; after them every prompt is
        followed by its one reply, except the last prompt while its request
        is outstanding; a full-screen selection names a plot record. */
    ghost predicate Valid()
      reads this
      ensures Valid() ==> |messages| >= 2 && (loading <==> messages[|messages| - 1].User?)
      ensures Valid() && fullscreen.Some? ==> 2 <= fullscreen.value < |messages|
    {
      && WellFormed(messages, loading)
      && (fullscreen.Some? ==> fullscreen.value < |messages| && messages[fullscreen.value].Plot?)
    }

    /** The initial state: the greetings, an empty input, idle, nothing full
        screen, dark theme. */
    constructor ()
      ensures Valid()
      ensures messages == Greetings() && input == "" && !loading
      ensures fullscreen == None && theme == Dark
    {
      messages := Greetings();
      input := "";
      loading := false;
      fullscreen := None;
      theme := Dark;
    }

    /** Typing into the input field replaces its text. */
    method SetInput(text: string)
      requires Valid()
      modifies this`input
      ensures Valid() && input == text
    {
      input := text;
    }

    /** The first half of `handleSubmit`. A blank input or an outstanding
        request leaves everything as it was and sends nothing. Otherwise one
        user record holding the input as typed is appended, the input is
        cleared, the view becomes busy, and that same text is the prompt to
        send. */
    method BeginSubmit() returns (prompt: Option<string>)
      requires Valid()
      modifies this`messages, this`input, this`loading
      ensures Valid()
      ensures prompt.None? <==> IsBlank(old(input)) || old(loading)
      ensures prompt.None? ==>
                messages == old(messages) && input == old(input) && loading == old(loading)
      ensures prompt.Some? ==>
                && prompt.value == old(input)
                && messages == old(messages) + [User(prompt.value)]
                && input == "" && loading
    {
      if TrimsToEmpty(input) || loading {
        return None;
      }
      WellFormedAppend(messages, loading, User(input));
      prompt := Some(input);
      messages := messages + [User(input)];
      input := "";
      loading := true;
    }

    /** The second half of `handleSubmit`: whatever the request came to,
        exactly one reply record is appended and the view is idle again. */
    method CompleteSubmit(outcome: Outcome)
      requires Valid() && loading
      modifies this`messages, this`loading
      ensures Valid()
      ensures messages == old(messages) + [Reply(outcome)] && !loading
    {
      var reply := Reply(outcome);
      WellFormedAppend(messages, loading, reply);
      messages := messages + [reply];
      loading := false;
    }

    /** The whole of `handleSubmit` for a request that ends in `outcome`:
        nothing changes when the submit is refused; otherwise the prompt and
        its one reply are appended, the input is cleared and the view is idle. */
    method HandleSubmit(outcome: Outcome) returns (prompt: Option<string>)
      requires Valid()
      modifies this`messages, this`input, this`loading
      ensures Valid()
      ensures prompt.None? <==> IsBlank(old(input)) || old(loading)
      ensures prompt.None? ==>
                messages == old(messages) && input == old(input) && loading == old(loading)
      ensures prompt.Some? ==>
                && prompt.value == old(input)
                && messages == old(messages) + [User(prompt.value), Reply(outcome)]
                && input == "" && !loading
    {
      prompt := BeginSubmit();
      if prompt.Some? {
        CompleteSubmit(outcome);
      }
    }

    /** The zoom button of plot record `index`. */
    method ToggleFullscreen(index: nat)
      requires Valid()
      requires index < |messages| && messages[index].Plot?
      modifies this`fullscreen
      ensures Valid() && fullscreen == Toggled(old(fullscreen), index)
    {
      fullscreen := Toggled(fullscreen, index);
    }

    /** The theme button. */
    method ToggleTheme()
      requires Valid()
      modifies this`theme
      ensures Valid() && theme == Flipped(old(theme))
    {
      theme := Flipped(theme);
    }
  }
}
