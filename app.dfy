/** The page controller: the login gate, one run of `main` per user interaction, and the
    session state those runs share. */
module App {
  import opened Wrappers
  import opened Research
  import opened Downloads
  import opened History

  /** The one credential pair the login gate accepts. */
  const Username: string := "pritham"
  const Password: string := "aiagent"

  /** What the user entered and pressed before this run of the page. */
  datatype Interaction = Interaction(
    username: string, password: string, loginPressed: bool,
    topic: string, reportPressed: bool,
    question: string, askPressed: bool)

  /** What the outside world answers to the report action: the outcome of a search for a query,
      the outcome of the report completion for a request, and the two clock readings (the
      history timestamp and the file-name stamp). */
  datatype ReportWorld = ReportWorld(
    search: string -> Result<string>,
    completion: ChatRequest -> Result<string>,
    historyStamp: string,
    fileStamp: string)

  /** What the outside world answers during this run: whether the search tool could be created,
      what the report action meets, and the outcome of the Q&A completion for a request. */
  datatype Environment = Environment(
    agentCreated: bool,
    research: ReportWorld,
    answerCompletion: ChatRequest -> Result<string>)

  /** The session state as a value: the `logged_in` key (absent until `main` first runs),
      `research_history` and `current_report`. */
  datatype SessionState = SessionState(loggedIn: Option<bool>, history: seq<HistoryEntry>,
                                       currentReport: Option<string>)

  /** The state of a fresh session, before `main` has run. */
  const InitialState: SessionState := SessionState(None, [], None)

  /** What one run of the page ends with: the login form (the run stopped), the early return
      after the search tool could not be created, or the main page with the report offered for
      download, the Q&A answer or error, and the history as listed. */
  datatype Page =
    | LoginPage
    | AgentUnavailable
    | MainPage(download: Option<Download>, answer: Option<Result<string>>, history: seq<HistoryEntry>)

  /** A run's page, the external calls it made in order, and the session state it leaves. */
  datatype Response = Response(page: Page, calls: seq<Call>, next: SessionState)

  /** `login`'s effect on the flag: set to true only by a press with exactly the fixed pair,
      otherwise left as it was. */
  function LoginFlag(flag: Option<bool>, pressed: bool, username: string, password: string): (r: Option<bool>)
    ensures r == Some(true) <==> flag == Some(true) || (pressed && username == Username && password == Password)
    ensures r != flag ==> r == Some(true)
  {
    if pressed && username == Username && password == Password then Some(true) else flag
  }

  /** Python truthiness of the report `generate_research_report` returns. */
  predicate Truthy(report: Option<string>) {
    report.Some? && report.value != ""
  }

  /** What the report action leaves: the download offered, the external calls made and the history. */
  datatype ReportOutcome = ReportOutcome(download: Option<Download>, calls: seq<Call>, history: seq<HistoryEntry>)

  /** The report action once the search tool exists: generate, and if the report came back
      non-empty, display it and save it. The history gains exactly one entry when a download is
      offered and none otherwise; that entry is the topic, the non-empty report exactly as the
      completion returned it for the composed prompt, and the stamp; the download is built from
      the same topic and report. */
  function ReportAction(history: seq<HistoryEntry>, topic: string, w: ReportWorld): (o: ReportOutcome)
    ensures o.download.None? ==> o.history == history
    ensures o.download.Some? ==>
      |o.history| == |history| + 1 && o.history[..|history|] == history &&
      var e := o.history[|history|];
      e.topic == topic && e.timestamp == w.historyStamp && e.report != "" &&
      o.download.value == Download(ReportText(topic, e.report), FileName(topic, w.fileStamp)) &&
      w.search(topic).Ok? &&
      w.completion(CompletionRequest(ComposePrompt(w.search(topic).value, topic))) == Ok(e.report)
    ensures o.download.None? <==>
      w.search(topic).Failure? ||
      var outcome := w.completion(CompletionRequest(ComposePrompt(w.search(topic).value, topic)));
      outcome.Failure? || outcome.value == ""
    ensures o.calls == GenerateReport(topic, w.search, w.completion).calls
  {
    var g := GenerateReport(topic, w.search, w.completion);
    if Truthy(g.report) then
      var report := g.report.value;
      ReportOutcome(Some(Download(ReportText(topic, report), FileName(topic, w.fileStamp))), g.calls,
                    history + [HistoryEntry(topic, report, w.historyStamp)])
    else ReportOutcome(None, g.calls, history)
  }

  /** The Q&A action: when "Ask" is pressed with a non-empty question, the outcome of a completion
      whose one message is exactly the question; otherwise nothing. */
  function Ask(ui: Interaction, env: Environment): (answer: Option<Result<string>>)
    ensures answer.Some? <==> ui.askPressed && ui.question != ""
    ensures answer.Some? ==> answer.value == env.answerCompletion(CompletionRequest(ui.question))
  {
    if ui.askPressed && ui.question != "" then Some(env.answerCompletion(CompletionRequest(ui.question)))
    else None
  }

  /** The gate at the top of `main` (app.py:221-225): the flag is set to false when absent, then `login` runs unless it
      is already true; the page goes on exactly when the result is true. */
  function Gate(flag: Option<bool>, ui: Interaction): (r: Option<bool>)
    ensures r.Some?
    ensures r == Some(true) <==>
      flag == Some(true) || (ui.loginPressed && ui.username == Username && ui.password == Password)
  {
    LoginFlag(Some(flag.GetOr(false)), ui.loginPressed, ui.username, ui.password)
  }

  /** The rest of `main` once past the gate: the report section (which returns early when the
      search tool cannot be created), the Q&A section, and the history listed newest first. */
  function ServeMain(s: SessionState, ui: Interaction, env: Environment): (r: Response)
    ensures !r.page.LoginPage?
    ensures r.page.AgentUnavailable? <==> ui.reportPressed && !env.agentCreated
    ensures r.next.loggedIn == s.loggedIn && r.next.currentReport == s.currentReport
    ensures r.page.MainPage? ==> r.page.history == NewestFirst(r.next.history)
  {
    if ui.reportPressed && !env.agentCreated then Response(AgentUnavailable, [], s)
    else
      var o := if ui.reportPressed then ReportAction(s.history, ui.topic, env.research)
               else ReportOutcome(None, [], s.history);
      var answer := Ask(ui, env);
      var calls := o.calls + if answer.Some? then [CompletionCall(CompletionRequest(ui.question))] else [];
      Response(MainPage(o.download, answer, NewestFirst(o.history)), calls, s.(history := o.history))
  }

  /** One run of `main` on session state `s`. Nothing ever sets `current_report`, a logged-in
      session stays logged in, and the run stops at the login form exactly when the flag it leaves
      is not true. */
  function Serve(s: SessionState, ui: Interaction, env: Environment): (r: Response)
    ensures r.next.currentReport == s.currentReport
    ensures r.next.loggedIn.Some?
    ensures s.loggedIn == Some(true) ==> r.next.loggedIn == Some(true)
    ensures r.page.LoginPage? <==> r.next.loggedIn != Some(true)
    ensures r.page.MainPage? ==> r.page.history == NewestFirst(r.next.history)
  {
    var flag := Gate(s.loggedIn, ui);
    var gated := s.(loggedIn := flag);
    if flag != Some(true) then Response(LoginPage, [], gated) else ServeMain(gated, ui, env)
  }

  /** The page gets past the login form exactly when the session was already logged in or the
      fixed pair was submitted; the login form makes no external call and leaves the history. */
  lemma LoginGate(s: SessionState, ui: Interaction, env: Environment)
    ensures var r := Serve(s, ui, env);
      !r.page.LoginPage? <==> s.loggedIn == Some(true) || (ui.loginPressed && ui.username == Username && ui.password == Password)
    ensures var r := Serve(s, ui, env);
      r.page.LoginPage? ==> r.calls == [] && r.next.history == s.history && r.next.loggedIn == Some(false)
  {
    assert s.loggedIn.GetOr(false) == (s.loggedIn == Some(true));
  }

  /** A run changes the history only by the report action: the history it leaves is the one the
      report action leaves when the button was pressed and the search tool exists, and is
      untouched otherwise. */
  lemma ServeHistory(s: SessionState, ui: Interaction, env: Environment)
    ensures var r := Serve(s, ui, env);
      if r.page.MainPage? && ui.reportPressed then
        r.next.history == ReportAction(s.history, ui.topic, env.research).history &&
        r.page.download == ReportAction(s.history, ui.topic, env.research).download
      else r.next.history == s.history && (r.page.MainPage? ==> r.page.download.None?)
  {
  }

  /** When the search fails, no completion is requested for the report and nothing is saved; the
      only completion request left in the run is the Q&A question's. */
  lemma SearchFailureShortCircuits(s: SessionState, ui: Interaction, env: Environment)
    requires ui.reportPressed && env.research.search(ui.topic).Failure?
    ensures var r := Serve(s, ui, env);
      r.next.history == s.history &&
      forall i :: 0 <= i < |r.calls| && r.calls[i].CompletionCall? ==>
        i > 0 && r.calls[i].request == CompletionRequest(ui.question)
  {
  }

  /** A report the completion returns empty is neither displayed nor saved. */
  lemma EmptyReportNotSaved(s: SessionState, ui: Interaction, env: Environment)
    requires ui.reportPressed && env.research.search(ui.topic).Ok?
    requires env.research.completion(CompletionRequest(ComposePrompt(env.research.search(ui.topic).value, ui.topic))) == Ok("")
    ensures var r := Serve(s, ui, env);
      r.next.history == s.history && (r.page.MainPage? ==> r.page.download.None?)
  {
  }

  /** The Q&A section of a run that reaches the main page: the answer shown is `Ask`'s, and the
      question's completion request is the run's last call exactly when an answer is shown; otherwise
      the calls are those of the report action alone. */
  lemma ServeAnswer(s: SessionState, ui: Interaction, env: Environment)
    ensures var r := Serve(s, ui, env);
      r.page.MainPage? ==>
        r.page.answer == Ask(ui, env) &&
        var reportCalls := if ui.reportPressed then ReportAction(s.history, ui.topic, env.research).calls else [];
        if Ask(ui, env).Some? then r.calls == reportCalls + [CompletionCall(CompletionRequest(ui.question))]
        else r.calls == reportCalls
  {
  }

  /** A logged-in run whose report press finds the search tool reaches the main page with exactly
      the history and the download of the report action; a run without a report press reaches the
      main page with the history untouched. */
  lemma ReportReachesPage(s: SessionState, ui: Interaction, env: Environment)
    requires s.loggedIn == Some(true)
    ensures var r := Serve(s, ui, env);
      (r.page.MainPage? <==> !ui.reportPressed || env.agentCreated) &&
      (ui.reportPressed && env.agentCreated ==>
        r.next.history == ReportAction(s.history, ui.topic, env.research).history &&
        r.page.download == ReportAction(s.history, ui.topic, env.research).download) &&
      (!ui.reportPressed ==> r.next.history == s.history && r.page.download.None?)
  {
  }

  /** When the search tool cannot be created the run returns early: no call, no Q&A, no change to
      the history. */
  lemma AgentFailureStopsRun(s: SessionState, ui: Interaction, env: Environment)
    requires ui.reportPressed && !env.agentCreated
    ensures var r := Serve(s, ui, env);
      (r.page.AgentUnavailable? || r.page.LoginPage?) && r.calls == [] && r.next.history == s.history
  {
  }

  /** The Q&A action never affects the session: whatever question is asked, whether "Ask" is
      pressed and whatever the completion answers, the state left behind is the same. */
  lemma AskLeavesSession(s: SessionState, ui: Interaction, env: Environment,
                         question: string, askPressed: bool, answer: ChatRequest -> Result<string>)
    ensures Serve(s, ui, env).next ==
            Serve(s, ui.(question := question, askPressed := askPressed), env.(answerCompletion := answer)).next
  {
  }

  /** On the topic "renewable energy trends", with a search that succeeds and a completion that returns a non-empty document, that document is saved unchanged under that
      topic and is listed first. */
  lemma RenewableEnergyExample(s: SessionState, ui: Interaction, env: Environment, report: string)
    requires s.loggedIn == Some(true)
    requires ui.topic == "renewable energy trends" && ui.reportPressed && env.agentCreated
    requires env.research.search(ui.topic) == Ok("Solar capacity grew 25%...")
    requires env.research.completion(CompletionRequest(ComposePrompt("Solar capacity grew 25%...", ui.topic))) == Ok(report)
    requires report != ""
    ensures var r := Serve(s, ui, env);
      var e := HistoryEntry("renewable energy trends", report, env.research.historyStamp);
      r.next.history == s.history + [e] && r.page.MainPage? && r.page.history[0] == e
  {
    var e := HistoryEntry("renewable energy trends", report, env.research.historyStamp);
    NewestFirstAppend(s.history, e);
  }

  /** One interaction of the user, with what the world answered to it. */
  datatype Visit = Visit(ui: Interaction, env: Environment)

  /** The pages a sequence of runs shows and the state it leaves. */
  datatype Trace = Trace(pages: seq<Page>, last: SessionState)

  /** Streamlit runs `main` once per interaction, on the state the previous run left. */
  function ServeAll(s: SessionState, visits: seq<Visit>): (t: Trace)
    ensures |t.pages| == |visits|
    decreases |visits|
  {
    if |visits| == 0 then Trace([], s)
    else
      var r := Serve(s, visits[0].ui, visits[0].env);
      var rest := ServeAll(r.next, visits[1..]);
      Trace([r.page] + rest.pages, rest.last)
  }

  /** How many of the pages displayed a report. */
  function ReportsShown(pages: seq<Page>): nat {
    if |pages| == 0 then 0
    else (if pages[0].MainPage? && pages[0].download.Some? then 1 else 0) + ReportsShown(pages[1..])
  }

  /** Over a whole session the history only grows at its end, and its length grows by exactly the
      number of reports that were displayed. */
  lemma {:induction false} HistoryCountsShownReports(s: SessionState, visits: seq<Visit>)
    ensures var t := ServeAll(s, visits);
      s.history <= t.last.history && |t.last.history| == |s.history| + ReportsShown(t.pages)
    decreases |visits|
  {
    if |visits| > 0 {
      var r := Serve(s, visits[0].ui, visits[0].env);
      ServeHistory(s, visits[0].ui, visits[0].env);
      HistoryCountsShownReports(r.next, visits[1..]);
      var t := ServeAll(s, visits);
      assert t.pages[1..] == ServeAll(r.next, visits[1..]).pages;
    }
  }

  /** Once logged in, a session stays logged in for every later run. */
  lemma {:induction false} LoginIsSticky(s: SessionState, visits: seq<Visit>)
    requires s.loggedIn == Some(true)
    ensures ServeAll(s, visits).last.loggedIn == Some(true)
    ensures forall i :: 0 <= i < |visits| ==> !ServeAll(s, visits).pages[i].LoginPage?
    decreases |visits|
  {
    if |visits| > 0 {
      var r := Serve(s, visits[0].ui, visits[0].env);
      LoginIsSticky(r.next, visits[1..]);
      var t := ServeAll(s, visits);
      forall i | 0 <= i < |visits| ensures !t.pages[i].LoginPage? {
        if i > 0 { assert t.pages[i] == ServeAll(r.next, visits[1..]).pages[i - 1]; }
      }
    }
  }

  /** The per-user session state `main` reads and updates. */
  class Session {
    var loggedIn: Option<bool>
    var researchHistory: seq<HistoryEntry>
    var currentReport: Option<string>

    /** The fields as a value. */
    function State(): SessionState
      reads this
    {
      SessionState(loggedIn, researchHistory, currentReport)
    }

    /** A new session: an empty history, no current report, no `logged_in` key yet. */
    constructor ()
      ensures State() == InitialState
    {
      loggedIn := None;
      researchHistory := [];
      currentReport := None;
    }

    /** `login`: sets the flag on a press with the fixed pair and answers whether the session
        is now logged in (false when the flag was never set). */
    method Login(pressed: bool, username: string, password: string) returns (authenticated: bool)
      modifies this`loggedIn
      ensures loggedIn == LoginFlag(old(loggedIn), pressed, username, password)
      ensures authenticated <==> loggedIn == Some(true)
    {
      if pressed {
        if username == Username && password == Password {
          loggedIn := Some(true);
        }
      }
      authenticated := loggedIn.GetOr(false);
    }

    /** `save_report_to_history`: appends one entry at the end and keeps every earlier one. */
    method SaveReportToHistory(topic: string, report: string, timestamp: string)
      modifies this`researchHistory
      ensures researchHistory == old(researchHistory) + [HistoryEntry(topic, report, timestamp)]
    {
      researchHistory := researchHistory + [HistoryEntry(topic, report, timestamp)];
    }

    /** The report action of `main` (app.py:244-247): generate the report and, when it came back non-empty, offer the
        download and save the entry. */
    method GenerateAndSave(topic: string, w: ReportWorld) returns (download: Option<Download>, calls: seq<Call>)
      modifies this`researchHistory
      ensures ReportOutcome(download, calls, researchHistory) == ReportAction(old(researchHistory), topic, w)
    {
      var g := GenerateReport(topic, w.search, w.completion);
      calls := g.calls;
      download := None;
      if g.report.Some? && g.report.value != "" {
        download := Some(Download(ReportText(topic, g.report.value), FileName(topic, w.fileStamp)));
        SaveReportToHistory(topic, g.report.value, w.historyStamp);
      }
    }

    /** The gate at the top of `main` (app.py:221-225): initialise the flag when absent and run `login` unless it is true. */
    method PassGate(ui: Interaction) returns (passed: bool)
      modifies this`loggedIn
      ensures loggedIn == Gate(old(loggedIn), ui)
      ensures passed <==> loggedIn == Some(true)
    {
      if loggedIn.None? {
        loggedIn := Some(false);
      }
      passed := true;
      if loggedIn != Some(true) {
        passed := Login(ui.loginPressed, ui.username, ui.password);
      }
    }

    /** `main`: one run of the page for one user interaction. */
    method RunPage(ui: Interaction, env: Environment) returns (page: Page, calls: seq<Call>)
      modifies this
      ensures Serve(old(State()), ui, env) == Response(page, calls, State())
    {
      var passed := PassGate(ui);
      if !passed {
        return LoginPage, [];
      }
      page, calls := RunMain(ui, env);
    }

    /** The rest of `main` after the gate (app.py:227-271). */
    method RunMain(ui: Interaction, env: Environment) returns (page: Page, calls: seq<Call>)
      modifies this`researchHistory
      ensures ServeMain(old(State()), ui, env) == Response(page, calls, State())
    {
      var download: Option<Download> := None;
      calls := [];
      if ui.reportPressed {
        if !env.agentCreated {
          return AgentUnavailable, [];
        }
        download, calls := GenerateAndSave(ui.topic, env.research);
      }
      var answer: Option<Result<string>> := None;
      if ui.askPressed && ui.question != "" {
        var request := CompletionRequest(ui.question);
        calls := calls + [CompletionCall(request)];
        answer := Some(env.answerCompletion(request));
      }
      page := MainPage(download, answer, NewestFirst(researchHistory));
    }
  }
}
