# 3D-Drawer chat core, modelled in Dafny

3D-Drawer is a chat page. The user types a request such as "vẽ một quả cầu"
("draw a sphere"). The backend asks a language model for Plotly code, runs
that code, and returns the figure as an HTML fragment. The chat shows the
fragment in a frame. This project models the two pieces of logic in that loop
and proves properties of them:

- **The chat view** (`frontend/src/App.jsx`), as the class `ChatApp.Chat`. Its
  fields are the transcript of `user`/`bot`/`plot` records, the input text,
  the busy flag, the plot shown full screen and the theme. `handleSubmit` is
  split into `BeginSubmit` (the guard, the user record, clearing the input,
  setting busy) and `CompleteSubmit` (one reply record, clearing busy).
  `HandleSubmit` runs both in order. The object invariant `Chat.Valid` says
  four things. The transcript starts with the two greetings. After them,
  user prompts and replies alternate, so each request gets exactly one reply.
  The view is busy exactly when the last prompt has no reply yet. A
  full-screen selection, when there is one, names a plot record.
- **The backend endpoint** (`backend/main.py`), as pure functions in module
  `PlotService`. They cover the removal of a leading "```python" and a
  trailing "```" from the model's text, and the choice between an `html`
  payload and an `error` payload paired with 500.
- **Whitespace trimming** (module `Text`). This is Python's `str.strip()` and
  JavaScript's `trim()` over a fixed ASCII whitespace set. `TrimStart` and
  `TrimEnd` are characterised by their postconditions. `Strip`, their
  composition, is characterised by its postconditions together with
  `StripRemovesOnlyBlank`.

How the request ended is the datatype `ChatApp.Outcome`:
`Responded(ok, html, detail) | Threw`. The source tests
`response.ok && data.html` and `data.detail || …` with JavaScript truthiness.
So an ok response whose `html` is missing or empty gets an error record, and an
empty `detail` shows the default message. The model keeps these cases.

Two behaviours of the code that the model keeps as written:

- Pressing the same zoom button twice restores the previous selection only
  when nothing, or that same plot, was full screen. When another plot was
  full screen, the second press clears the selection (`ChatApp.ToggledTwice`).
- On failure the backend sends its message in a field named `error`
  (backend/main.py:126, 130). The frontend only reads `detail`
  (frontend/src/App.jsx:143). So a backend error message is never shown; the
  user sees the default text. The model does not connect the two halves,
  because the HTTP layer between them is left out.

## Model

| member | source | states |
|---|---|---|
| `Text.TrimStart` | backend/main.py:101 | the result is the longest suffix of the input that does not start with whitespace; everything removed is whitespace |
| `Text.TrimEnd` | backend/main.py:103 | the result is the longest prefix of the input that does not end with whitespace; everything removed is whitespace |
| `Text.Strip` | backend/main.py:101-104 | `strip()` is never longer than its input and neither starts nor ends with whitespace |
| `Text.StripRemovesOnlyBlank` | backend/main.py:101-104 | the result of `strip()` is a contiguous piece of the input, and only whitespace stands before and after it |
| `Text.StripEmptyIffBlank` | frontend/src/App.jsx:87 | trimming leaves nothing exactly when the text is all whitespace or empty (both directions) |
| `Text.TrimsToEmpty` | frontend/src/App.jsx:87 | the guard `!inputValue.trim()` is true exactly when the input is blank |
| `Text.StripAround` | backend/main.py:101-104 | stripping a piece that has only whitespace around it gives back exactly that piece |
| `Text.StripAppend` | backend/main.py:103-104 | stripping text that ends in a piece with no whitespace at its ends only trims the front of what comes before that piece |
| `PlotService.DropOpeningFence` | backend/main.py:101-102 | if the stripped text starts with "```python", then that fence followed by the result is the stripped text; otherwise the text is unchanged and not stripped |
| `PlotService.DropClosingFence` | backend/main.py:103-104 | if the stripped working text ends with "```", then the result followed by that fence is the stripped text; otherwise the text is unchanged |
| `PlotService.CleanCode` | backend/main.py:101-104 | the code handed to `exec` is never longer than the model's text |
| `PlotService.CleanCodeShortens` | backend/main.py:101-104 | the clean-up either leaves the text exactly as it was or makes it at least 3 characters shorter; when the stripped text starts with "```python" it becomes at least 9 shorter, and when either fence is found it becomes at least 3 shorter |
| `PlotService.CleanCodeUnfenced` | backend/main.py:101-104 | text whose stripped form has neither fence is returned unchanged, including its surrounding whitespace |
| `PlotService.DropOpeningFenceOfBlock` | backend/main.py:101-102 | for a fenced block with whitespace around it, the first step leaves the body followed by the closing fence |
| `PlotService.DropClosingFenceOfStripped` | backend/main.py:103-104 | text whose stripped form is some code followed by "```" cleans, in the second step, to that code |
| `PlotService.DropClosingFenceOfBody` | backend/main.py:103-104 | for a body followed by the closing fence, the second step leaves the body without its leading whitespace |
| `PlotService.CleanCodeFenced` | backend/main.py:101-104 | a "```python … ```" block with any whitespace around it cleans to its body without the body's leading whitespace |
| `PlotService.CleanCodeRoundTrip` | backend/main.py:101-104 | fencing a body that does not start with whitespace and then cleaning it gives back the body |
| `PlotService.ProcessingError` | backend/main.py:130 | the exception error text starts with the fixed prefix, and the exception's own text can be read back after it |
| `PlotService.InvalidFigureDistinct` | backend/main.py:126-130 | the invalid-figure message differs from the error text of every exception, so a client reading `error` can tell the two failures apart; `GeneratePlot` relies on it for its invalid-figure iff |
| `PlotService.GeneratePlot` | backend/main.py:94-130 | an `html` payload comes with no status and an `error` payload always comes with 500; html exactly when the model call and the run of the cleaned code both succeed with a valid figure, carrying that figure's html; an `Exception` from either step gives its own error text; the invalid-figure message comes back exactly when the code ran and made no valid figure |
| `ChatApp.Greetings` | frontend/src/App.jsx:62-71 | the initial transcript is two different bot records |
| `ChatApp.Truthy` | frontend/src/App.jsx:103-143 | an optional response field is falsy exactly when it is missing or the empty string |
| `ChatApp.PlotDocument` | frontend/src/App.jsx:105-136 | the plot document is the fixed head, then the backend's html fragment, then the fixed tail; the fragment can be read back from its position |
| `ChatApp.PlotDocumentInjective` | frontend/src/App.jsx:105-136 | two plot documents are equal exactly when their fragments are equal, so different fragments give different documents |
| `ChatApp.ErrorText` | frontend/src/App.jsx:140-145 | the error text is "Rất tiếc, đã có lỗi: " followed by `detail` when it is truthy, else by the default message |
| `ChatApp.ConnectionErrorDistinct` | frontend/src/App.jsx:139-153 | the connection-error text differs from every response-error text, so the two failure kinds can be told apart |
| `ChatApp.Reply` | frontend/src/App.jsx:103-154 | the reply is never a user record; it is a plot exactly when the response was ok with a non-empty html, holding that html's document; any other response gives the error text; it is the connection-error text exactly when the request threw |
| `ChatApp.Toggled` | frontend/src/App.jsx:81-83 | the new selection is none exactly when `index` was selected, and `index` otherwise |
| `ChatApp.ToggledTwice` | frontend/src/App.jsx:81-83 | toggling the same index twice restores the selection exactly when it was none or that index; it clears a different selection |
| `ChatApp.Flipped` | frontend/src/App.jsx:459 | the theme button always changes the theme |
| `ChatApp.FlippedTwice` | frontend/src/App.jsx:459 | pressing the theme button twice restores the theme |
| `ChatApp.WellFormed` | frontend/src/App.jsx:62-157 | in a well-formed transcript the first record is the welcome greeting, and the view is busy exactly when the last record is a user prompt |
| `ChatApp.WellFormedAppend` | frontend/src/App.jsx:62-157 | appending a user record while idle, or a reply while busy, keeps the transcript shape (greetings first, prompts and replies alternating, ending in a prompt exactly while busy) and flips the busy flag |
| `ChatApp.Chat.Valid` | frontend/src/App.jsx:62-157 | in a valid chat the view is busy exactly when the last record is a prompt, and a full-screen selection points past the greetings into the transcript |
| `ChatApp.Chat.constructor` | frontend/src/App.jsx:61-74 | initial state: the two greetings, empty input, not busy, nothing full screen, dark theme; the invariant holds |
| `ChatApp.Chat.SetInput` | frontend/src/App.jsx:540 | typing replaces the input text and nothing else |
| `ChatApp.Chat.BeginSubmit` | frontend/src/App.jsx:85-98 | nothing changes and no prompt is sent exactly when the input is blank or a request is outstanding; otherwise the transcript grows by one user record holding the input as typed, the prompt sent is that same text, the input becomes "" and the view becomes busy |
| `ChatApp.Chat.CompleteSubmit` | frontend/src/App.jsx:100-157 | whatever the outcome, the transcript grows by exactly the one record `Reply(outcome)` and the view is no longer busy; the invariant is kept |
| `ChatApp.Chat.HandleSubmit` | frontend/src/App.jsx:85-158 | a refused submit changes nothing; an accepted one appends the user record and then its one reply, clears the input and ends not busy |
| `ChatApp.Chat.ToggleFullscreen` | frontend/src/App.jsx:81-83 | the selection becomes `Toggled(old selection, index)` and still names a plot record |
| `ChatApp.Chat.ToggleTheme` | frontend/src/App.jsx:459 | the theme becomes the other one |

## Left out

- The `fetch` call, the JSON decoding and the HTTP endpoint (frontend/src/App.jsx:95-101). These are network I/O. The result is the parameter `outcome`, and a body that cannot be parsed counts as `Threw`.
- How FastAPI turns the returned `(payload, 500)` pair into an HTTP response. So the model does not connect `PlotService.Reply` to `ChatApp.Outcome`.
- The Gemini client, `exec` of the generated code and Plotly's `to_html` (backend/main.py:97, 112, 120-123). These are foreign code. They are the parameters `generated` and `execute` of `GeneratePlot`. Whether `fig` is a truthy `go.Figure` is part of the opaque `execute` result.
- Logging (`print`, `console.error`), CORS and server start-up (backend/main.py:15-56, 132-134). None of these changes any modelled state.
- React rendering, icons, CSS and the scroll-into-view effect (frontend/src/App.jsx:1-58, 77-79, 160-550). These are presentation. The disabled state of the input and button while busy is not modelled, and `SetInput` has no busy guard.
- The async interleaving of React state updates. Begin and complete are atomic steps, taken in order.
- Text.IsSpace: only ASCII whitespace (space, tab, line feed, carriage return, vertical tab, form feed). Both runtimes also remove U+00A0, U+1680, U+2000–U+200A, U+2028, U+2029, U+202F, U+205F and U+3000. Only Python's `strip()` also removes U+001C–U+001F and U+0085. Only JavaScript's `trim()` also removes U+FEFF. So the two runtimes' sets differ from each other as well.
- PlotService.GeneratePlot: `Raised` stands only for an `Exception` subclass, which `except Exception` at backend/main.py:128 catches. A `BaseException` that is not an `Exception` escapes the handler, so the endpoint returns no payload. An example is `SystemExit` from generated code that calls `exit()`. The model does not cover this.
- ChatApp.Outcome: `detail` is a string. A non-string `detail`, such as a list from a validation error, is shown by the template in its string form; the model does not cover that.
