# Summarizer page interaction model

A Dafny model of the `App` component of the AI summarizer page
(`src/App.js`). The page sends a YouTube URL or a Wikipedia question to a
summarization server and shows progress lines ("thoughts") and the summary.
It keeps the last five successful queries. It can also connect a browser
wallet, show its balance and send a fixed payment.

The model is the component's state machine:

- `options.dfy`: `Option`, for `undefined` values and for outcomes that may be absent.
- `history.dfy`: the tabs, the history entry `{type, query}`, the history updater, and what any run of updates leaves in the list.
- `requests.dfy`: the choice of endpoint and payload, the reply body, and the fixed progress and error texts.
- `theme.dfy`: the light/dark toggle and the colour set it selects.
- `app.dfy`: class `App`. Its fields mirror the component's state hooks and what the wallet library reports. There is one method per handler or asynchronous step:
  - `BeginSubmit`, `SubmitFailed`, `SubmitSucceeded` for the submit handler, which is split at its `await`;
  - `WalletChanged` for a change of the balance effect's dependencies;
  - `BalanceResolved` for a finished balance fetch;
  - `SendPayment`, `Connect`, `Disconnect`, `SelectTab`, `EditInput`, `LoadFromHistory`, `ToggleTheme`, `RestoreTheme`.

  `Valid()` is the invariant that every method keeps:
  - the history holds at most five entries;
  - `loading` is true exactly while a request is pending;
  - while a request is pending, the summary is empty and the log holds only the fetch notice;
  - a balance is shown exactly when `balanceFor` records the wallet it was fetched for, and that wallet is the one connected now (`balanceFor == Some(CurrentKey())`).
- `scenarios.dfy`: short sessions driven through the handlers, each with what the page shows at the end.

Calls into code that is not part of this model become method parameters. These are the HTTP POST, the wallet library, `getBalance`, the signer, `formatEther` and `localStorage`. A POST's outcome is the choice between `SubmitFailed` and `SubmitSucceeded(data)`. A balance arrives as already-formatted text in `BalanceResolved`. A payment's outcome is the `confirmed` flag of `SendPayment`: false stands for a failure at any step from `getSigner` through `wait`.

The staleness flag of the balance effect is modelled with a generation counter:
- every change of `[library, account]` bumps the counter;
- a fetch is tagged with the counter's value when it starts;
- a fetch's result is shown only if the counter still has that value.

A ghost map records the wallet each fetch was started for. `BalanceResolved` copies that wallet into `balanceFor` when it shows a result, and every wallet change clears both `balance` and `balanceFor`.

Four facts about `src/App.js` shape the model:
- The theme is kept as a string. The mount effect restores any non-empty saved value, the toggle maps every value other than `'light'` to `'light'`, and the page renders every value other than `'light'` dark.
- The submit handler's closure captures the tab and buffers at submit time. The history therefore records the text that was submitted, even if the input was edited while the request was pending. `Cycle.AwaitingReply(submitted)` holds that entry.
- The guards at lines 235 and 250 test `library && account` by JavaScript truthiness, so an empty account counts as absent. `WalletReady()` states exactly this.
- The component stores the balance only as formatted text, with no account attached. The ghost field `balanceFor` records the wallet the shown balance was fetched for.

## Model

| member | source | states |
|---|---|---|
| History.Record | src/App.js:199 | The new entry is at index 0, the old entries follow in order, and the length is min(old + 1, 5). |
| History.ActiveBuffer | src/App.js:199 | The text of the active tab's input is `videoUrl` on the YouTube tab and `wikiQuestion` on the Wikipedia tab, the choice line 199 (and line 300) makes. |
| History.Submitted | src/App.js:199 | The recorded entry has the submitted tab, and its query is `videoUrl` on the YouTube tab and `wikiQuestion` otherwise. |
| History.RecordAllKeepsNewest | src/App.js:199 | After any sequence of recordings, the list is the recorded entries newest first, followed by the earlier list, cut to five entries. |
| History.SixthEvictsOldest | src/App.js:199 | Six recordings into an empty list leave the last five, newest first, so the oldest one is evicted. |
| Requests.RequestFor | src/App.js:185-186 | The YouTube tab gives `/summarize` with `{video_url}`, and the other tab gives `/summarize_wiki` with `{question}`. The payload carries the same text the history entry records. |
| Requests.RequestIgnoresOtherBuffer | src/App.js:185-186 | The request depends only on the active tab and that tab's buffer. |
| Requests.FetchNotice | src/App.js:189 | The first thought is "Fetching video transcript..." exactly on the YouTube tab and "Fetching Wikipedia content..." exactly on the Wikipedia tab, so it names the tab. |
| Requests.SucceededLog | src/App.js:189-196 | The log after a reply with a summary starts with the fetch notice, contains "Generating summary..." and ends with "Summary generated successfully!". |
| Requests.RejectedLog | src/App.js:189-203 | The log after a rejected POST starts with the fetch notice and ends with the error line, with neither the generating nor the success line. |
| Requests.UnreadableLog | src/App.js:189-203 | The log after a `null` reply body starts with the fetch notice, contains "Generating summary..." (logged before the read failed) and ends with the error line, with no success line. |
| Theme.PaletteOf | src/App.js:267 | The page renders with the light colour set exactly when the theme is `'light'`. |
| Theme.Toggled | src/App.js:173-177 | The toggle always yields `'light'` or `'dark'`, and yields `'dark'` exactly when the theme was `'light'`. |
| Theme.ToggleFlipsPalette | src/App.js:174 | Every toggle flips the colour set the page renders, including from a restored value that is not one of the two names. |
| Theme.ToggleTwice | src/App.js:174 | Two toggles give back the theme exactly when it was `'light'` or `'dark'`. |
| Interaction.App.constructor | src/App.js:155-164 | Initial state: YouTube tab, empty buffers, summary and log, not loading, light theme, no history, no balance. |
| Interaction.App.RestoreTheme | src/App.js:166-171 | A saved non-empty theme replaces the current one. An absent or empty value keeps it. |
| Interaction.App.ToggleTheme | src/App.js:173-177 | The theme becomes the toggled one, so the rendered colour set flips. |
| Interaction.App.SelectTab | src/App.js:281-289 | Only the active tab changes. Both buffers are kept. |
| Interaction.App.EditInput | src/App.js:301 | The active tab's buffer takes the typed text. The other buffer is kept. |
| Interaction.App.LoadFromHistory | src/App.js:208-216 | The item's tab becomes active and its query fills that tab's buffer. The other buffer, the history and the submit state are kept. |
| Interaction.App.BeginSubmit | src/App.js:179-190 | A request is sent exactly when nothing is loading and the active input is non-empty. It is the active tab's request. The summary becomes `''`, the log becomes the fetch notice alone, and the submitted entry is captured. Otherwise nothing changes. |
| Interaction.App.SubmitFailed | src/App.js:200-205 | The summary becomes the fixed error text. The log is [fetch notice, error notice]. Loading ends and the history is unchanged. |
| Interaction.App.SubmitSucceeded | src/App.js:190-205 | With a summary body, the summary is shown verbatim and the log is [fetch notice, generating, success]. The captured entry is recorded. With a `null` body, the source throws after the generating line, the error summary is shown and the history is unchanged. Loading ends either way. |
| Interaction.App.WalletChanged | src/App.js:234-247 | An unchanged `[library, account]` changes nothing. A change clears the balance (and `balanceFor`) at once and invalidates earlier fetches. It starts a fetch, tagged for the new wallet, exactly when `library && account` is truthy: both are present and the account is not `''`. |
| Interaction.App.Connect | src/App.js:218-224 | A failed activation is swallowed and changes nothing. A successful one makes its provider and account current. A new pair clears the balance, and it starts a fetch unless the account is `''`. |
| Interaction.App.Disconnect | src/App.js:226-232 | Provider and account become absent and the balance is cleared at once. |
| Interaction.App.BalanceResolved | src/App.js:237-241 | A result is shown exactly when no wallet change happened since its fetch started. A shown result is recorded in `balanceFor` as fetched for the current wallet. |
| Interaction.App.SendPayment | src/App.js:249-264 | A transfer is attempted exactly when `library && account` is truthy (both present, account not `''`). The attempt is 0.01 ether to the fixed recipient. The notice reports success when it is confirmed, and failure when any step from `getSigner` through `wait` fails. Otherwise nothing is attempted or reported. |
| Scenarios.TwoSubmissions | src/App.js:179-206 | A YouTube query and then a Wikipedia query leave the history `[wiki question, youtube url]`. |
| Scenarios.SwitchTabsKeepsBuffers | src/App.js:281-301 | Typing, switching tabs and switching back leaves both typed texts intact. |
| Scenarios.SecondSubmitIgnored | src/App.js:305-307 | A second submit while one is pending sends nothing, and the first cycle's log and loading flag stay as they were. |
| Scenarios.EditWhilePending | src/App.js:199 | Editing during a pending request does not change the recorded query. |
| Scenarios.FailureKeepsHistory | src/App.js:195-203 | A failure after a success shows the error summary and its own log. The history still holds only the first query. |
| Scenarios.StaleBalanceDropped | src/App.js:234-247 | When the account changes before the old fetch resolves, the new account's balance is shown and the old late result is dropped. |
| Scenarios.DisconnectDuringFetch | src/App.js:242-245 | Disconnecting during a fetch clears the balance, and the late result is never shown. |
| Scenarios.PayWithoutWallet | src/App.js:249-250 | Without a wallet, the payment button attempts nothing and reports nothing. |
| Scenarios.EmptyAccountIsAbsent | src/App.js:235-250 | A provider with an empty account is falsy in `library && account`. No balance fetch is started, no balance is shown and no payment is attempted. |

## Left out

- Styling, theme colour objects, the JSX tree and animation props: presentation without behaviour. Only the theme-to-palette choice at line 267 is kept.
- `axios.post`, web3-react `activate`/`deactivate`, `getBalance`, `getSigner`/`sendTransaction`/`wait`, and ethers `formatEther`/`parseEther`: code outside this model. Their outcomes are method parameters. `parseEther("0.01")` is written out as 10^16 wei.
- The 1500 ms pause before the summary is shown is folded into `SubmitSucceeded`. The state during the pause, where the log ends in "Generating summary..." and `loading` still holds, is not a separate step.
- SubmitSucceeded: a reply body that is an object without a string `summary` is not modelled. The source would store `undefined` as the summary and still record the entry. Only a body with a summary string and a `null` body are modelled.
- A rejected `getBalance` promise has no handler in the source and changes no state, so it is not a transition.
- Writing the theme to `localStorage` is I/O. Reading it is the parameter of `RestoreTheme`.
- `console` logging and `alert` are I/O. The payment's alert text is returned as `SendPayment`'s notice.
- Disconnect: the model takes the wallet library to clear provider and account. If `deactivate` throws, the source swallows the error, and what the library's state then is cannot be seen from the component.
- React scheduling, batched updates and the timing of effect cleanup: each handler is one atomic step, and the cleanup runs inside `WalletChanged`.
- The summary card heading follows the current tab rather than the submitted one. That is rendering.
- `app.py`, the server: its transcript, Wikipedia and summarization calls go to libraries outside this model.
