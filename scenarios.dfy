/** Short user sessions driven through the `App` handlers, each stating what
    the page shows at the end. */
module Scenarios {
  import opened Options
  import opened History
  import opened Requests
  import opened Interaction

  /** A YouTube query and then a Wikipedia query, both answered: the history
      lists the question first and the URL second. */
  method TwoSubmissions(url: string, question: string, s1: string, s2: string) returns (shown: seq<Entry>)
    requires url != "" && question != ""
    ensures shown == [Entry(Wiki, question), Entry(YouTube, url)]
  {
    var app := new App();
    app.EditInput(url);
    var r1 := app.BeginSubmit();
    assert app.cycle == AwaitingReply(Entry(YouTube, url));
    app.SubmitSucceeded(Body(s1));
    assert app.history == [Entry(YouTube, url)];
    app.SelectTab(Wiki);
    app.EditInput(question);
    var r2 := app.BeginSubmit();
    assert app.cycle == AwaitingReply(Entry(Wiki, question));
    app.SubmitSucceeded(Body(s2));
    shown := app.history;
  }

  /** Typing a URL, switching to the Wikipedia tab, typing a question and
      switching back leaves the URL as it was typed. */
  method SwitchTabsKeepsBuffers(url: string, question: string) returns (shownUrl: string, keptQuestion: string)
    ensures shownUrl == url && keptQuestion == question
  {
    var app := new App();
    app.EditInput(url);
    app.SelectTab(Wiki);
    app.EditInput(question);
    app.SelectTab(YouTube);
    shownUrl, keptQuestion := app.ActiveText(), app.wikiQuestion;
  }

  /** A second submit while the first is pending sends nothing and leaves the
      log of the first untouched. */
  method SecondSubmitIgnored(url: string) returns (second: Option<Request>, log: seq<string>, busy: bool)
    requires url != ""
    ensures second == None && log == [FetchNotice(YouTube)] && busy
  {
    var app := new App();
    app.EditInput(url);
    var first := app.BeginSubmit();
    second := app.BeginSubmit();
    log, busy := app.thoughts, app.loading;
  }

  /** Editing the input while the request is pending does not change what is
      recorded: the history keeps the text that was submitted. */
  method EditWhilePending(url: string, edited: string, text: string) returns (shown: seq<Entry>, input: string)
    requires url != ""
    ensures shown == [Entry(YouTube, url)] && input == edited
  {
    var app := new App();
    app.EditInput(url);
    var r := app.BeginSubmit();
    app.EditInput(edited);
    app.SubmitSucceeded(Body(text));
    shown, input := app.history, app.videoUrl;
  }

  /** A success followed by a failure: the failure shows the error summary
      and its own log, and the history still holds only the first query. */
  method FailureKeepsHistory(url: string, question: string, text: string)
    returns (shown: seq<Entry>, shownSummary: string, log: seq<string>)
    requires url != "" && question != ""
    ensures shown == [Entry(YouTube, url)]
    ensures shownSummary == ErrorSummary && log == [FetchNotice(Wiki), ErrorNotice]
  {
    var app := new App();
    app.EditInput(url);
    var r1 := app.BeginSubmit();
    app.SubmitSucceeded(Body(text));
    app.SelectTab(Wiki);
    app.EditInput(question);
    var r2 := app.BeginSubmit();
    app.SubmitFailed();
    shown, shownSummary, log := app.history, app.summary, app.thoughts;
  }

  /** The wallet switches from account `a` to `b` before `a`'s balance
      arrives; `b`'s balance arrives first and `a`'s late one is dropped. */
  method StaleBalanceDropped(p: Provider, a: Address, b: Address, balanceA: string, balanceB: string)
    returns (shown: Option<string>)
    requires a != "" && b != "" && a != b
    ensures shown == Some(balanceB)
  {
    var app := new App();
    var ta := app.Connect(Some(WalletKey(p, a)));
    var tb := app.WalletChanged(Some(p), Some(b));
    app.BalanceResolved(tb.value, balanceB);
    app.BalanceResolved(ta.value, balanceA);
    shown := app.balance;
  }

  /** Disconnecting while a balance fetch is pending clears the balance, and
      the fetch's later result is not shown. */
  method DisconnectDuringFetch(p: Provider, a: Address, late: string) returns (shown: Option<string>)
    requires a != ""
    ensures shown == None
  {
    var app := new App();
    var t := app.Connect(Some(WalletKey(p, a)));
    app.Disconnect();
    app.BalanceResolved(t.value, late);
    shown := app.balance;
  }

  /** Pressing the payment button without a wallet attempts nothing. */
  method PayWithoutWallet(confirmed: bool) returns (attempt: Option<Transfer>, notice: Option<string>)
    ensures attempt == None && notice == None
  {
    var app := new App();
    var t := app.Connect(None);
    attempt, notice := app.SendPayment(confirmed);
  }

  /** A provider reported with an empty account is falsy in `library &&
      account`: no balance is fetched or shown and no payment is attempted. */
  method EmptyAccountIsAbsent(p: Provider, confirmed: bool)
    returns (ticket: Option<nat>, shown: Option<string>, attempt: Option<Transfer>)
    ensures ticket == None && shown == None && attempt == None
  {
    var app := new App();
    ticket := app.Connect(Some(WalletKey(p, "")));
    shown := app.balance;
    var notice;
    attempt, notice := app.SendPayment(confirmed);
  }
}
