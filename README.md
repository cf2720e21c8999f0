# AI Research Assistant: a Dafny model of the page controller

The modelled program is a one-page Streamlit app (`app.py`). A user logs in with one fixed
credential pair. They can then ask for a research report on a topic, which makes one web search,
sends the results and the topic to a chat completion, shows the report and offers it as a markdown
download. They can also ask a quick question that goes straight to the completion. Each report that
comes back non-empty is appended to a per-session history, which is listed newest first.

The model has five modules:

- `Wrappers` (`wrappers.dfy`): `Option` and `Result` (a call's value or the message of the
  exception it raised).
- `Research` (`research.dfy`): the fixed instruction text, the prompt built from it, the chat
  request `get_groq_response` sends, and `generate_research_report` as the function
  `GenerateReport`. The search and the completion are passed in as functions from query or
  request to outcome. `GenerateReport` also returns the log of external calls it made, in order.
  That log is how the model states that no completion is requested after a failed search.
- `Downloads` (`downloads.dfy`): the download body, the space-to-underscore replacement and the
  download file name. The download body comes with a partial inverse and round-trip lemmas in both
  directions; the replacement is characterised character by character.
- `History` (`history.dfy`): history entries and `reversed(history)`.
- `App` (`app.dfy`): the login gate, one run of `main` as the pure function `Serve`, and a
  `Session` class. The class holds the session-state keys: `logged_in` and `research_history`,
  which `main` and `login` update, and `current_report`, which is set once when the session starts
  and never changed. Its methods are proved equal to `Serve` and its parts. Streamlit runs `main`
  again for every interaction; `ServeAll` chains runs over a whole session, and the lemmas about it
  state the session-level invariants.

One run of the page takes an `Interaction` (what was typed and which buttons were pressed) and an
`Environment` (whether the search tool could be created, the outcomes of the search and of the two
completion calls, and the two clock readings). The report completion and the Q&A completion are
separate functions, so the model does not claim that two calls with the same prompt get the same
answer.

Two behaviours of the code are worth noting:

- A failed login leaves the flag as it was, rather than setting it to false. The difference shows
  only when `login` is called with the flag true or absent, neither of which `main` does; see
  `App.LoginFlag` and `App.Session.Login`.
- `st.secrets[...]` is read at module level (app.py:128), so a missing key stops every run before
  `main` rather than at the first completion call. This is left out, see below.

## Model

| member | source | states |
|---|---|---|
| `Research.ComposePrompt` | app.py:159-163 | the prompt ends with the topic; its full layout (instructions, leads, search results verbatim, exact length) is the lemma `ComposePromptShape` |
| `Research.ComposePromptShape` | app.py:141-163 | the report prompt opens with the fixed instruction text, then the findings lead and the search results verbatim, then the topic lead, and ends with the topic; its length is the sum of those parts |
| `Research.ComposePromptRoundTrip` | app.py:159-163 | the search results and the topic can both be read back from the prompt, so the prompt loses nothing |
| `Research.SplitPromptSound` | app.py:159-163 | any text that reads back as results and a topic is exactly the prompt composed from them (the other direction of the round trip) |
| `Research.CompletionRequest` | app.py:196-203 | a completion request carries the default model `llama3-70b-8192` and exactly one message, with role `user` and the prompt as its content |
| `Research.GenerateReport` | app.py:139-168 | the search on the topic is always the first call; a completion is requested if and only if the search succeeded, and then only on the composed prompt; report and search results are both present or both absent; a report is present exactly when both calls succeed, and it is the completion's text unchanged |
| `Downloads.ReportText` | app.py:188 | the download body is the heading `# Research Report: `, the topic, a blank line, then the report, each at its exact position |
| `Downloads.ReportTextRoundTrip` | app.py:188 | topic and report can be read back from the download body |
| `Downloads.SplitReportTextSound` | app.py:188 | any text that reads back as a topic and a report is exactly the download body of those two |
| `Downloads.ReplaceSpaces` | app.py:192 | `topic.replace(' ', '_')` keeps the length, turns each space into `_`, keeps every other character at its place, and leaves no space |
| `Downloads.ReplaceSpacesIdentity` | app.py:192 | the replacement leaves a topic unchanged if and only if it contains no space |
| `Downloads.ReplaceSpacesIdempotent` | app.py:192 | replacing twice gives the same name as replacing once |
| `Downloads.FileName` | app.py:192 | the file name is `research_report_`, then the topic with spaces replaced (same length, no space), then `_`, the stamp and `.md` |
| `Downloads.FileNameHasNoSpaces` | app.py:192 | with a stamp free of spaces, the whole file name contains no space |
| `History.NewestFirst` | app.py:267 | the history is listed in reverse insertion order: position i shows entry length-1-i |
| `History.NewestFirstAppend` | app.py:267 | the entry saved last is listed first, ahead of the earlier listing unchanged |
| `History.NewestFirstInvolutive` | app.py:267 | reversing the listing gives back insertion order |
| `History.NewestFirstThree` | app.py:267 | entries appended as A, B, C are listed as C, B, A |
| `App.LoginFlag` | app.py:211-217 | the flag becomes true exactly on a press with username `pritham` and password `aiagent`, or stays true if it already was; any other input leaves it as it was |
| `App.Session.Login` | app.py:205-218 | `login` updates only the flag, as `LoginFlag` says, and answers whether the session is now logged in (false while the flag is absent) |
| `App.Gate` | app.py:221-225 | after the gate the flag is present, and it is true exactly when the session was logged in or the fixed pair was submitted |
| `App.Session.PassGate` | app.py:221-225 | initialising and checking the flag changes only the flag, to `Gate` of the old one, and lets the run go on exactly when it is true |
| `App.ReportAction` | app.py:244-247 | without a download the history is untouched; with one the history gains exactly one entry at its end, earlier entries unchanged, holding the topic, the stamp and the non-empty report exactly as the completion returned it for the composed prompt, and the download is built from that topic and report; a download is offered unless the search failed, the completion failed or the report is empty; the calls are the generation's |
| `App.Session.GenerateAndSave` | app.py:244-247 | the imperative report action leaves the download, calls and history that `ReportAction` gives for the old history |
| `App.Session.SaveReportToHistory` | app.py:170-178 | appends exactly the entry (topic, report, timestamp) at the end of the history and changes nothing else |
| `App.Ask` | app.py:254-261 | an answer is produced exactly when "Ask" is pressed with a non-empty question, and it is the completion's outcome for a request whose one message is the question itself |
| `App.ServeMain` | app.py:227-271 | past the gate, a run never stops at the login form, returns early exactly when the report button was pressed and the search tool could not be created, never changes the flag or `current_report`, and lists the history it leaves newest first |
| `App.Session.RunMain` | app.py:227-271 | the imperative main sections leave the page, calls and state that `ServeMain` gives |
| `App.Serve` | app.py:220-271 | one run never sets `current_report`, always leaves the flag present, keeps a logged-in session logged in, stops at the login form exactly when the flag is not true, and lists the history newest first |
| `App.Session.RunPage` | app.py:220-271 | the imperative `main` leaves the page, the call log and the session state that `Serve` gives for the old state |
| `App.Session.constructor` | app.py:121-125 | a new session has an empty history, no current report and no `logged_in` key |
| `App.LoginGate` | app.py:221-225 | a run gets past the login form if and only if the session was logged in or the fixed pair was submitted; the login form makes no external call, leaves the history, and leaves the flag false |
| `App.ServeHistory` | app.py:239-247 | a run changes the history only through the report action, and only when the report button was pressed and the search tool exists |
| `App.SearchFailureShortCircuits` | app.py:155-168 | when the search fails nothing is saved, and the only completion request in the run is the Q&A question's, never the report prompt |
| `App.EmptyReportNotSaved` | app.py:245-247 | a report that comes back as the empty string is neither offered for download nor saved |
| `App.ServeAnswer` | app.py:254-261 | on the main page the answer shown is `Ask`'s, and the question's completion request follows the report action's calls exactly when an answer is shown |
| `App.ReportReachesPage` | app.py:239-247 | a logged-in run reaches the main page unless the report button was pressed without a search tool; with the tool, its history and download are exactly the report action's; without a press, the history is untouched and no download is offered |
| `App.AgentFailureStopsRun` | app.py:239-243 | when the search tool cannot be created the run returns early: no external call, no Q&A, no change to the history |
| `App.AskLeavesSession` | app.py:255-261 | whatever question is asked, whether "Ask" is pressed and whatever the completion answers, the run leaves the same session state |
| `App.RenewableEnergyExample` | app.py:239-267 | for the topic "renewable energy trends", a successful search and a non-empty completion, exactly one entry with that topic and the report unchanged is appended and listed first |
| `App.ServeAll` | app.py:220-274 | a session of n interactions shows n pages |
| `App.HistoryCountsShownReports` | app.py:239-247 | over a whole session the old history stays a prefix, and the history grows by exactly the number of pages that displayed a report |
| `App.LoginIsSticky` | app.py:221-225 | once logged in, a session stays logged in and never again shows the login form |

## Left out

- Rendering is left out: markdown, CSS, spinners, expanders, error banners and the download button
  as a widget. A page is reduced to what it carries: the download offered, the Q&A answer or error,
  and the history listing.
- The text of error messages is left out. A failed report simply yields no download.
- `st.stop()` and Streamlit's rerun model: a run that stops is the `LoginPage` result, and reruns
  are the sequence of runs in `ServeAll`.
- The Groq client and `DuckDuckGoSearchRun` are network clients. They appear only as outcome
  functions (`search`, `completion`, `answerCompletion`) and the `agentCreated` flag.
  `response.choices[0].message.content` is taken to be a string.
- The API key read from `st.secrets` at module level (app.py:128) is left out. A missing key
  would stop every run.
- The clock is not modelled. The history timestamp and the file-name stamp (two separate
  `datetime.now()` calls with different formats) are parameters, so timestamps growing over time is
  not stated.
- The module-level and in-`main` initialisation of `research_history` are no-ops after the first
  run, so both are folded into the constructor.
- `deploy.py` is a terminal checklist and process launcher with no logic to state, so it is not
  part of this model.
