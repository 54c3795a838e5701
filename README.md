# pi-stock-de: alert intake and notification fan-out

A Dafny model of the logic in `main.go` of the Raspberry Pi stock monitor.
Shoppers submit batches of alert subscriptions over `POST /api/v1/alert`. A
scrape cycle runs every minute. It reloads the website registry, lets every
retailer adaptor scrape and waits for all of them. On every cycle but the
first it asks the registry which pages changed. It then queues one
notification per registered alert of each changed page and saves the
registry.

The model has four modules:

- `Types` (types.dfy): the records main.go passes around (`Website`, `Recipient`, `AlertTask`, `Task`). The registry's `LoadAlerts` is a function `AlertLookup = string -> seq<Task>`.
- `Validation` (validation.dfy): the task check of main.go:79, kept in Go's precedence, and the first handler loop that stops at the first failing task.
- `Notify` (fanout.dfy): `FanOut`, the list that `scheduleUpdates` builds, defined by recursion. The nested loops are a method proved equal to it. Lemmas give the length, the position of each entry, where each entry comes from, the order, and that duplicates are kept.
- `PiStock` (server.dfy): class `Server` holds the package-level state. The calls main.go makes into the website registry, the alert registry and the delivery queue are appended, in order, to a trace `calls`. Two kinds are not recorded: the alert registry's `LoadAlerts`, whose answers are the parameter `lookup`, and the start-up calls `websites.Init` and `messaging.Init`. The class methods model the handler, `scheduleUpdates` and `searchPi`.

The packages `utils`, `messaging`, `messaging/types` and `adaptors` are not part of this model.
Their answers are parameters:
- `captchaError` is what reCAPTCHA answered.
- `detected` is what `CheckForChanges` returns.
- `lookup` is what `LoadAlerts` returns for each URL during the cycle.

Two consequences of the code are worth stating on their own:
- main.go:79 checks only that some recipient field is set and that Destination is 1..3. It never checks that the set field matches Destination (`Validation.DestinationNotMatchedToRecipient`).
- `scheduleUpdates` queues every registered alert, duplicates included (`Notify.FanOutKeepsDuplicates`).

## Model

| member | source | states |
|---|---|---|
| `Validation.AcceptedIff` | main.go:79 | A task passes the check exactly when at least one of Pushover, Webhook, Email is non-empty and 1 <= Destination <= 3; otherwise it is rejected (both directions) |
| `Validation.DestinationNotMatchedToRecipient` | main.go:79 | A recipient with only Email, only Pushover or only Webhook set passes with any destination 1..3, so the destination is never matched against the field that is set |
| `Validation.FindInvalidTask` | main.go:78-85 | The scan returns None exactly when every task of the batch passes; otherwise it returns the index of the first failing task, and every earlier task passes |
| `Notify.Expand` | main.go:149-152 | One changed page yields one queued task per registered alert, in alert order, each carrying the page and that alert's recipient and destination |
| `Notify.FanOutLength` | main.go:147-153 | The queued list has exactly as many entries as the sum of the numbers of alerts registered for the changed pages, so nothing is filtered or merged |
| `Notify.FanOutAppend` | main.go:147-153 | Fanning out a concatenation of page lists gives the two fan-outs concatenated, so pages are handled independently and in input order |
| `Notify.FanOutAt` | main.go:147-152 | The j-th alert of the i-th changed page sits at position Offset(i) + j, where Offset(i) counts the alerts of the earlier pages. That entry holds page i itself and the alert's recipient and destination unchanged |
| `Notify.FanOutOrigin` | main.go:147-152 | Every entry of the queued list is the j-th alert of some changed page i, at position Offset(i) + j, so nothing else appears |
| `Notify.FanOutOrdered` | main.go:147-152 | Entries are ordered by page first and by alert within a page |
| `Notify.FanOutKeepsDuplicates` | main.go:149-150 | An alert registered twice for a page is queued twice, at two different positions |
| `Notify.CollectTasks` | main.go:145-153 | The nested append loops build exactly `FanOut` of the changed pages |
| `PiStock.AddAlertCalls` | main.go:87-89 | An accepted batch makes one AddAlert registration per task, in batch order. Each is keyed by the task's website URL and carries its recipient and destination unchanged |
| `PiStock.CycleOrder` | main.go:117-142 | A cycle first loads the registry, then runs and waits for all adaptors. It checks for changes exactly when it is not the first run, and then once, as the third call. A queue submission, if any, comes right after the check and right before the save. It registers nothing, and it saves the registry exactly once, as its last call, on every path |
| `PiStock.CycleNotifies` | main.go:134-141 | A cycle submits to the delivery queue exactly when it is not the first run and `CheckForChanges` returned a non-empty list. It then submits once, with the whole fan-out of the changed pages; otherwise it submits nothing |
| `PiStock.SingleSubscriberCycle` | main.go:134-155 | A changed page with one e-mail subscriber (destination 1) leads to a single queue submission holding a single task for that subscriber |
| `PiStock.Server.constructor` | main.go:21-23 | The package state starts with no calls made |
| `PiStock.Server.PostAlert` | main.go:70-93 | A failed captcha rejects with its error and registers nothing. A batch with any failing task is rejected with "invalid task structure" and registers nothing, even for valid earlier tasks. Otherwise the batch is accepted and exactly `AddAlertCalls` of the batch is appended to the calls |
| `PiStock.Server.ScheduleUpdates` | main.go:144-156 | Appends a single AddToQueue call carrying `FanOut` of the changed pages |
| `PiStock.Server.SearchPi` | main.go:117-142 | Appends exactly the calls of `CycleCalls` for this cycle to the calls made so far |

## Left out

- HTTP routing, JSON body parsing and its 400 answer, status codes, CORS, static files, `app.Listen` and `GET /api/v1/status` (main.go:44-69, 101): these are web-framework plumbing. The handler is modelled from the captcha check on, and its answer is `Accepted` or `Rejected(msg)`.
- reCAPTCHA verification (main.go:39, 70): this is a network call. It is the parameter `captchaError`.
- `DELETE /api/v1/alert` (main.go:96-99): it only returns the website list.
- Cron scheduling, goroutine start-up, `websites.Init()` and the colly collector (main.go:40-42, 108-123): these are concurrency and I/O. `startScraper` calls `searchPi(true)` once and the cron job calls `searchPi(false)`. The parallel scrape and the wait for every adaptor are one `RunAdaptors` call in the trace.
- PostAlert, SearchPi: each is modelled as one atomic step on a single trace, and a cycle sees one `lookup` throughout. In main.go the cycle runs on its own goroutine (main.go:40) beside the HTTP handlers, so one batch's `AddAlert` loop (main.go:87-89) can interleave with a cycle's `LoadAlerts` calls (main.go:148): a cycle can see part of a batch, and two lookups of one URL in a cycle can differ. That interleaving is not captured.
- The bodies of `websites.Load`, `Save` and `CheckForChanges`, `alertManager.AddAlert` and `LoadAlerts`, and `messaging.Init` and `AddToQueue`: their packages are not part of this model. Their calls are trace entries and their answers are parameters. Because of this, the model does not connect an `AddAlert` registration to a later `LoadAlerts` answer.
- `Website` keeps only a URL, a name and a stock flag. The rest of `utils.Website` is not part of this model, and main.go only reads the URL.
- `Destination` is an unbounded integer. Go's integer width does not matter for comparisons with 1 and 3.
- `.env` loading and console printing (main.go:34-38, 139, 151, 154).
- internal/handlers/verify_mail_handler.go: it forwards a path parameter to a mail service that is not part of this model.
