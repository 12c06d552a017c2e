/** The interaction state of the summarizer page: the tab and input buffers,
    the submit cycle with its thought log and summary, the history list, the
    theme, and the wallet balance and payment button.

    Every handler is one atomic step. A handler that awaits is split at the
    await: the part before it is one method, and what runs when the awaited
    call settles is another, which takes the call's outcome as a parameter. */
module Interaction {
  import opened Options
  import opened History
  import opened Requests
  import opened Theme

  type Address = string

  /** The provider object (`library`) that the wallet connector hands out. */
  datatype Provider = Provider(handle: nat)

  /** The value of the balance effect's dependency list `[library, account]`
      when both are present. */
  datatype WalletKey = WalletKey(library: Provider, account: Address)

  /** The transfer the payment button asks the signer to send. */
  datatype Transfer = Transfer(to: string, wei: nat)

  /** The hard-coded destination placeholder. */
  const PaymentRecipient: string := "YOUR_ETHEREUM_ADDRESS"
  /** 0.01 ether in wei, the value `parseEther("0.01")` produces. */
  const PaymentWei: nat := 10_000_000_000_000_000
  const PaymentSucceededNotice: string := "Payment successful!"
  const PaymentFailedNotice: string := "Payment failed. Please try again."

  /** Where the submit handler is: not running, or suspended on the POST with
      the entry its closure captured when the form was submitted. */
  datatype Cycle = Idle | AwaitingReply(submitted: Entry)

  class App {
    // The state hooks of the component.
    var activeTab: Tab
    var videoUrl: string
    var wikiQuestion: string
    var summary: string
    var loading: bool
    var thoughts: seq<string>
    var theme: string
    var history: seq<Entry>
    var balance: Option<string>

    // What the wallet library reports.
    var library: Option<Provider>
    var account: Option<Address>

    // The suspended submit handler, if any.
    var cycle: Cycle
    /** Bumped on every change of `[library, account]`; a balance fetch is
        stale exactly when the counter has moved past the value it started
        with, which is what the effect's `stale` flag records. */
    var generation: nat
    /** The wallet each balance fetch was started for, by its generation. */
    ghost var fetchedFor: map<nat, WalletKey>
    /** The wallet the shown balance was fetched for, if one is shown. */
    ghost var balanceFor: Option<WalletKey>

    /** `library && account` is truthy: both are present and the account is
        not the empty string. */
    predicate WalletReady()
      reads this
    {
      library.Some? && account.Some? && account.value != ""
    }

    function CurrentKey(): WalletKey
      reads this
      requires WalletReady()
    {
      WalletKey(library.value, account.value)
    }

    /** The text in the input field of the active tab. */
    function ActiveText(): string
      reads this
    {
      ActiveBuffer(activeTab, videoUrl, wikiQuestion)
    }

    ghost predicate Valid()
      reads this
    {
      |history| <= Capacity &&
      // the submit button is disabled exactly while a request is pending
      (loading <==> cycle.AwaitingReply?) &&
      // while pending, the summary is empty and only the fetch notice is shown
      (cycle.AwaitingReply? ==> summary == "" && thoughts == [FetchNotice(cycle.submitted.kind)]) &&
      // the current generation has a fetch exactly when the wallet is ready,
      // and that fetch was started for the current wallet
      (WalletReady() <==> generation in fetchedFor) &&
      (WalletReady() ==> fetchedFor[generation] == CurrentKey()) &&
      (forall g :: g in fetchedFor ==> g <= generation) &&
      // a balance is shown exactly when the wallet it was fetched for is
      // recorded, and that wallet is the one connected now
      (balance.Some? <==> balanceFor.Some?) &&
      (balance.Some? ==> WalletReady() && balanceFor == Some(CurrentKey()))
    }

    twostate predicate CycleKept()
      reads this
    {
      cycle == old(cycle) && loading == old(loading) && summary == old(summary) && thoughts == old(thoughts)
    }

    twostate predicate WalletKept()
      reads this
    {
      library == old(library) && account == old(account) && balance == old(balance) &&
      generation == old(generation) && fetchedFor == old(fetchedFor) && balanceFor == old(balanceFor)
    }

    /** The first render: YouTube tab, empty inputs and log, light theme, no
        history, no wallet and no balance. */
    constructor ()
      ensures Valid()
      ensures activeTab == YouTube && videoUrl == "" && wikiQuestion == ""
      ensures summary == "" && !loading && thoughts == [] && cycle == Idle
      ensures theme == Light && history == [] && balance == None
      ensures library == None && account == None
    {
      activeTab, videoUrl, wikiQuestion := YouTube, "", "";
      summary, loading, thoughts, cycle := "", false, [], Idle;
      theme, history, balance := Light, [], None;
      library, account := None, None;
      generation, fetchedFor, balanceFor := 0, map[], None;
    }

    /** The mount effect: a non-empty saved theme replaces the default. */
    method RestoreTheme(saved: Option<string>)
      requires Valid()
      modifies this`theme
      ensures Valid()
      ensures theme == if saved.Some? && saved.value != "" then saved.value else old(theme)
    {
      if saved.Some? && saved.value != "" {
        theme := saved.value;
      }
    }

    /** The theme button: flips the rendered palette. */
    method ToggleTheme()
      requires Valid()
      modifies this`theme
      ensures Valid()
      ensures theme == Toggled(old(theme))
      ensures PaletteOf(theme) != PaletteOf(old(theme))
    {
      ToggleFlipsPalette(theme);
      theme := Toggled(theme);
    }

    /** A tab button: only the active tab changes; both buffers are kept. */
    method SelectTab(tab: Tab)
      requires Valid()
      modifies this`activeTab
      ensures Valid()
      ensures activeTab == tab
    {
      activeTab := tab;
    }

    /** Typing into the input: the buffer of the active tab takes the text,
        the other buffer is kept. */
    method EditInput(text: string)
      requires Valid()
      modifies this`videoUrl, this`wikiQuestion
      ensures Valid()
      ensures ActiveText() == text
      ensures activeTab.YouTube? ==> wikiQuestion == old(wikiQuestion)
      ensures activeTab.Wiki? ==> videoUrl == old(videoUrl)
    {
      if activeTab.YouTube? {
        videoUrl := text;
      } else {
        wikiQuestion := text;
      }
    }

    /** Clicking a history item: its tab becomes active and its query fills
        that tab's buffer; the other buffer is kept and nothing is sent. */
    method LoadFromHistory(item: Entry)
      requires Valid()
      modifies this`activeTab, this`videoUrl, this`wikiQuestion
      ensures Valid()
      ensures activeTab == item.kind && ActiveText() == item.query
      ensures item.kind.YouTube? ==> wikiQuestion == old(wikiQuestion)
      ensures item.kind.Wiki? ==> videoUrl == old(videoUrl)
    {
      if item.kind.YouTube? {
        activeTab := YouTube;
        videoUrl := item.query;
      } else {
        activeTab := Wiki;
        wikiQuestion := item.query;
      }
    }

    /** Submitting the form, up to the await on the POST. The form cannot be
        submitted while the button is disabled (`loading`) or while the
        required input is empty; otherwise the summary and the log are
        reset, the fetch notice is logged, and the request for the active
        tab is sent. */
    method BeginSubmit() returns (request: Option<Request>)
      requires Valid()
      modifies this`loading, this`summary, this`thoughts, this`cycle
      ensures Valid()
      ensures request.Some? <==> !old(loading) && ActiveText() != ""
      ensures request.Some? ==>
        request.value == RequestFor(activeTab, videoUrl, wikiQuestion) &&
        loading && summary == "" && thoughts == [FetchNotice(activeTab)] &&
        cycle == AwaitingReply(Submitted(activeTab, videoUrl, wikiQuestion))
      ensures request.None? ==> CycleKept()
    {
      if loading || ActiveText() == "" {
        return None;
      }
      loading := true;
      summary := "";
      thoughts := [];
      request := Some(RequestFor(activeTab, videoUrl, wikiQuestion));
      thoughts := thoughts + [FetchNotice(activeTab)];
      cycle := AwaitingReply(Submitted(activeTab, videoUrl, wikiQuestion));
    }

    /** The POST was rejected (network error or a non-2xx status): the fixed
        error summary is shown, the error is logged, the history is left
        alone, and the button is enabled again. */
    method SubmitFailed()
      requires Valid() && cycle.AwaitingReply?
      modifies this`loading, this`summary, this`thoughts, this`cycle
      ensures Valid()
      ensures cycle == Idle && !loading
      ensures summary == ErrorSummary
      ensures thoughts == RejectedLog(old(cycle).submitted.kind)
    {
      summary := ErrorSummary;
      thoughts := thoughts + [ErrorNotice];
      loading := false;
      cycle := Idle;
    }

    /** The POST resolved (the pacing delay is folded in). A body with a
        summary is shown verbatim, the success is logged and the entry
        captured at submission is recorded; a `null` body throws after
        "Generating summary..." and ends like a failure. Either way the
        button is enabled again. */
    method SubmitSucceeded(data: ReplyData)
      requires Valid() && cycle.AwaitingReply?
      modifies this`loading, this`summary, this`thoughts, this`cycle, this`history
      ensures Valid()
      ensures cycle == Idle && !loading
      ensures data.Body? ==>
        summary == data.summary &&
        thoughts == SucceededLog(old(cycle).submitted.kind) &&
        history == Record(old(history), old(cycle).submitted)
      ensures data.NullBody? ==>
        summary == ErrorSummary &&
        thoughts == UnreadableLog(old(cycle).submitted.kind) &&
        history == old(history)
    {
      var submitted := cycle.submitted;
      thoughts := thoughts + [GeneratingNotice];
      match data {
        case Body(text) =>
          summary := text;
          thoughts := thoughts + [SucceededNotice];
          history := Record(history, submitted);
        case NullBody =>
          summary := ErrorSummary;
          thoughts := thoughts + [ErrorNotice];
      }
      loading := false;
      cycle := Idle;
    }

    /** The wallet library reports a new `library` and `account`. When the
        pair differs from the last one the balance effect re-runs: the
        previous run's cleanup (if it started a fetch) marks that fetch
        stale and clears the balance, and a new fetch starts when both are
        present. Its generation is returned as the fetch's ticket. */
    method WalletChanged(newLibrary: Option<Provider>, newAccount: Option<Address>) returns (ticket: Option<nat>)
      requires Valid()
      modifies this`library, this`account, this`balance, this`generation, this`fetchedFor, this`balanceFor
      ensures Valid()
      ensures library == newLibrary && account == newAccount
      ensures (newLibrary, newAccount) == (old(library), old(account)) ==> WalletKept() && ticket == None
      ensures (newLibrary, newAccount) != (old(library), old(account)) ==>
        balance == None && balanceFor == None && generation > old(generation) &&
        (ticket.Some? <==> WalletReady())
      ensures ticket.Some? ==>
        ticket.value == generation && fetchedFor == old(fetchedFor)[generation := CurrentKey()]
      ensures ticket.None? ==> fetchedFor == old(fetchedFor)
    {
      ticket := None;
      if (newLibrary, newAccount) == (library, account) {
        return;
      }
      if WalletReady() {
        balance, balanceFor := None, None;
      }
      generation := generation + 1;
      library, account := newLibrary, newAccount;
      if WalletReady() {
        ticket := Some(generation);
        fetchedFor := fetchedFor[generation := CurrentKey()];
      }
    }

    /** `connect`: a successful activation reports its provider and account;
        a failed one is swallowed and changes nothing. */
    method Connect(activation: Option<WalletKey>) returns (ticket: Option<nat>)
      requires Valid()
      modifies this`library, this`account, this`balance, this`generation, this`fetchedFor, this`balanceFor
      ensures Valid()
      ensures activation.None? ==> WalletKept() && ticket == None
      ensures activation.Some? ==>
        library == Some(activation.value.library) && account == Some(activation.value.account)
      ensures activation.Some? && old((library, account)) == (Some(activation.value.library), Some(activation.value.account)) ==>
        WalletKept() && ticket == None
      ensures activation.Some? && old((library, account)) != (Some(activation.value.library), Some(activation.value.account)) ==>
        balance == None && balanceFor == None && generation > old(generation) &&
        (ticket.Some? <==> activation.value.account != "") &&
        (ticket.Some? ==> ticket.value == generation && fetchedFor == old(fetchedFor)[generation := activation.value])
      ensures ticket.None? ==> fetchedFor == old(fetchedFor)
    {
      ticket := None;
      if activation.Some? {
        ticket := WalletChanged(Some(activation.value.library), Some(activation.value.account));
      }
    }

    /** `disconnect`: the wallet library drops provider and account, and the
        balance is cleared at once. */
    method Disconnect()
      requires Valid()
      modifies this`library, this`account, this`balance, this`generation, this`fetchedFor, this`balanceFor
      ensures Valid()
      ensures library == None && account == None && balance == None && balanceFor == None
      ensures fetchedFor == old(fetchedFor)
    {
      var _ := WalletChanged(None, None);
    }

    /** A balance fetch resolved with the formatted amount. It is shown only
        if no wallet change happened since the fetch started, and then it
        belongs to the wallet it was fetched for. */
    method BalanceResolved(ticket: nat, formatted: string)
      requires Valid() && ticket in fetchedFor
      modifies this`balance, this`balanceFor
      ensures Valid()
      ensures balance == if ticket == generation then Some(formatted) else old(balance)
      ensures balance != old(balance) ==> WalletReady() && fetchedFor[ticket] == CurrentKey()
      ensures balanceFor == if ticket == generation then Some(fetchedFor[ticket]) else old(balanceFor)
    {
      var stale := ticket != generation;
      if !stale {
        balance, balanceFor := Some(formatted), Some(fetchedFor[ticket]);
      }
    }

    /** The payment button. Unless `library && account` is truthy nothing is
        attempted and nothing is reported. Otherwise the fixed transfer is
        attempted once: `confirmed` is true when getting the signer, sending
        the transaction and waiting for it all succeed, and false for a
        failure at any of those steps, which the handler catches and reports. */
    method SendPayment(confirmed: bool) returns (attempt: Option<Transfer>, notice: Option<string>)
      ensures attempt.Some? <==> WalletReady()
      ensures attempt.Some? ==> attempt.value.to == PaymentRecipient && attempt.value.wei == PaymentWei
      ensures notice.Some? <==> attempt.Some?
      ensures notice.Some? ==>
        (notice.value == PaymentSucceededNotice <==> confirmed) &&
        (notice.value == PaymentFailedNotice <==> !confirmed)
    {
      if WalletReady() {
        attempt := Some(Transfer(PaymentRecipient, PaymentWei));
        notice := Some(if confirmed then PaymentSucceededNotice else PaymentFailedNotice);
      } else {
        attempt, notice := None, None;
      }
    }
  }
}
