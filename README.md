# Pay Example: a Dafny model of the payment page and its gateway stub

The Pay Example is a sample payment-type integration for Vend's Payments
API. A browser page (`assets/js/pay.js`) is opened by the Vend register with
`amount`, `origin` and `register_id` in its query string. It talks to the
register through `postMessage` steps (SETUP, DATA, ACCEPT, DECLINE, EXIT,
PRINT). When the cashier picks an outcome it asks a small Go web service
(`main.go`, the `pay` endpoint) to simulate a gateway, and it reacts to the
sale status the service returns.

This project models:

- the six step encoders, as the exact object literals they send (`steps.dfy`);
- JavaScript's `split` with a one-character separator (`js.dfy`). Its contract is stated with two helpers: `Join`, as `Array.prototype.join` does it, and `IndexOf`, which returns the string's length when the character is absent (where JavaScript's `indexOf` would return -1);
- `decodeURIComponent` as ECMA-262 defines it: UTF-8 escapes, and URIError
  on a malformed escape (`uri.dfy`);
- `getURLParameters`, as a specification function and as the source's loop
  over the pieces (`launch_params.dfy`);
- the page as a state machine (`pay_page.dfy`). A `Page` object records the
  status area, the outcome buttons, the step objects handed to
  `sendObjectToVend`, the pending timers and the gateway requests issued.
  `Steps.Received` gives what the register receives for those objects once
  `JSON.stringify` has dropped their undefined members. Its methods are the
  page's handlers. What `checkResponse` does for each status is also stated
  as a table (`Classify`);
- `PaymentHandler` (`gateway.dfy`): its guards, the case-insensitive
  outcome→status switch, and the reply code. It is a specification function
  (`Verdict`) plus a method that keeps the source's early returns;
- the two sides joined (`flow.dfy`): the page's request becomes the
  handler's form, and the reply comes back as the done handler (201) or the
  fail handler (any other code). Whole sessions are composed and verified
  for a short launch and for each cashier outcome.

Where the project's documentation and its code disagree, the model follows the code:

- ACCEPT carries no `transaction_id`;
- the gateway's TIMEOUT status falls into the page's default case;
- with fewer than two launch parameters, EXIT is sent at once and the
  gateway request is still issued;
- there is no local cancel path;
- a URIError from the parameter reader ends `sendPayment` after the payment
  template is requested.

## Model

| member | source | states |
|---|---|---|
| Js.Split | assets/js/pay.js:97 | `split` on one character gives at least one piece; no piece holds the separator, and joining the pieces gives the string back |
| Js.SplitFirst | assets/js/pay.js:102-108 | the first piece is the text before the first separator; without a separator the string is its only piece; otherwise the remaining pieces are the split of the text after the first separator |
| Js.SplitJoin | assets/js/pay.js:97 | splitting undoes joining separator-free pieces |
| Uri.DecodeEscape | assets/js/pay.js:96 | a successful escape consumes between one character and the rest of the text |
| Uri.Decode | assets/js/pay.js:96 | text without `%` decodes to itself |
| Uri.DecodeEscapeAll | assets/js/pay.js:96 | decoding reads back any ASCII text written entirely as `%XX` escapes |
| Steps.KindNamed | assets/js/pay.js:31-91 | the step named by a `step` string is the inverse of the encoders' step names; no other string names a step |
| Steps.KindNamedRoundTrip | assets/js/pay.js:31-91 | every step kind is read back from its own name |
| Steps.EncodersAnnounceTheirStep | assets/js/pay.js:31-91 | each of the six encoders announces its own step, so the register tells all six apart |
| Steps.ReceiptCarried | assets/js/pay.js:31-77 | ACCEPT, DECLINE and PRINT carry their receipt argument unchanged, and DATA, EXIT and SETUP carry none |
| Steps.FixedShapes | assets/js/pay.js:31-91 | each encoder's exact set of fields; ACCEPT has no `transaction_id`; DECLINE always asks to print |
| Steps.StringifiedDefined | assets/js/pay.js:24 | what the register receives has no undefined member; a message reaches it unchanged exactly when none of its members is undefined; stringifying twice changes nothing more |
| Steps.ReceivedAsSent | assets/js/pay.js:24 | a list of messages with no undefined members reaches the register unchanged |
| Steps.EncodersFullyDefined | assets/js/pay.js:31-91 | DATA, EXIT and SETUP have no undefined member; ACCEPT, DECLINE and PRINT have none exactly when their receipt argument is defined |
| Steps.UndefinedReceiptNotSent | assets/js/pay.js:216-227 | a DECLINE built without a receipt reaches the register as exactly `{step: DECLINE, print: true}` |
| LaunchParams.GetURLParameters | assets/js/pay.js:95-122 | the loop over the pieces returns the reader's specification: a URIError, or the recognised pieces collected in order |
| LaunchParams.PieceFields | assets/js/pay.js:102-115 | a piece's name is the text before its first `=`; its value is undefined without `=`, and otherwise the text between the first and any second `=` |
| LaunchParams.CollectKeys | assets/js/pay.js:101-117 | a name is kept exactly when it is `amount`, `origin` or `register_id` and some piece carries it |
| LaunchParams.CollectLastWins | assets/js/pay.js:101-117 | for a repeated name, the value of its last piece is kept |
| LaunchParams.CollectValues | assets/js/pay.js:106-116 | every kept value is a string or undefined |
| LaunchParams.ReaderFailsOnlyOnBadEscape | assets/js/pay.js:96-121 | reading fails exactly when the query does not decode, and keeps only recognised names |
| LaunchParams.EscapesActAsSeparators | assets/js/pay.js:96-97 | decoding comes before splitting: a query written wholly in escapes, `%26` and `%3D` included, reads as the plain query |
| LaunchParams.PlainQuery | assets/js/pay.js:96-97 | a query without escapes is split as it stands, after its leading `?` is dropped |
| PayPage.CaseOfStatuses | assets/js/pay.js:126-170 | the switch has its own case for exactly ACCEPTED, CANCELLED, DECLINED, FAILED and UNKNOWN; TIMEOUT takes the default |
| PayPage.OneTerminalStep | assets/js/pay.js:126-171 | a status leads to exactly one ACCEPT or DECLINE, sent or scheduled, when it is ACCEPTED, CANCELLED or DECLINED, and to none otherwise; the outcome buttons come back exactly when it leads to none |
| PayPage.SetupOnlyOnReady | assets/js/pay.js:126-171 | no status, no EXIT and no firing DECLINE timer sends another SETUP |
| PayPage.ReceiptLiterals | assets/js/pay.js:130-146 | each receipt literal is `<div>` + status + `</div>` |
| PayPage.TerminalReceipts | assets/js/pay.js:127-147 | ACCEPTED sends ACCEPT at once; CANCELLED and DECLINED schedule DECLINE after 4000 ms; each receipt names its status |
| PayPage.UnhandledStatuses | assets/js/pay.js:148-170 | FAILED and UNKNOWN load the failed template, set a 6000 ms timer with no effect and show the buttons; any other status, TIMEOUT among them, only shows the buttons |
| PayPage.Page.SendObjectToVend | assets/js/pay.js:20-25 | the step object is appended to the steps handed over, and the count of SETUP steps grows exactly when the object is a SETUP |
| PayPage.Page.Init | assets/js/pay.js:246-258 | the ready handler sends SETUP, which is then the first and only SETUP sent; it shows the waiting template and the outcome buttons, and changes nothing else |
| PayPage.Page.SendPayment | assets/js/pay.js:176-206 | shows the payment template and hides the outcome buttons (`ajaxStart`, pay.js:11-12). On a URIError nothing else changes. Otherwise EXIT is sent and a 4000 ms inert timer set when fewer than two parameters were read, and the gateway request is issued in every case; SETUP stays the only SETUP |
| PayPage.Page.RequestPayment | assets/js/pay.js:189-206 | EXIT and an inert 4000 ms timer exactly when fewer than two parameters were read, then the gateway request, in every case |
| PayPage.Page.SendExit | assets/js/pay.js:190-193 | EXIT is sent at once, and `setTimeout` is given its undefined result |
| PayPage.Page.CheckResponse | assets/js/pay.js:124-172 | the status area, buttons, steps sent and timers change exactly as the switch's case for the status prescribes |
| PayPage.Page.GatewayDone | assets/js/pay.js:207-215 | hides the outcome buttons and then runs `checkResponse` on the status; one request fewer is pending |
| PayPage.Page.GatewayFailed | assets/js/pay.js:216-227 | failed template, buttons hidden, DECLINE without a receipt scheduled after 4000 ms |
| PayPage.Page.FireTimer | assets/js/pay.js:139-147 | a firing timer is removed, and its action sends DECLINE with its receipt or does nothing |
| Gateway.StatusFor | main.go:119-133 | the status is always one of the six status constants |
| Gateway.UpperEqualFold | main.go:120 | upper-casing gives an upper-case ASCII keyword exactly when the text spells that keyword in any mix of cases |
| Gateway.StatusForCases | main.go:119-133 | ACCEPT, CANCEL, DECLINE, FAIL and TIMEOUT in any mix of cases give their status, in both directions; everything else gives UNKNOWN |
| Gateway.EmptyOutcomeIsUnknown | main.go:77-79 | the default outcome is the status name ACCEPTED, which the switch does not know, so no outcome means UNKNOWN |
| Gateway.PaymentHandler | main.go:52-165 | the handler with its early returns computes the specified reply |
| Gateway.RequiredParameters | main.go:66-74 | an empty amount or origin gives 400; register_id and the outcome never change the reply code |
| Gateway.VerdictCodes | main.go:70-164 | 400 exactly for an empty amount or origin, or an amount that does not parse or is zero; 500 exactly for a present amount and origin whose amount is NaN or infinite; 201 exactly for a present amount and origin whose amount is finite and non-zero. A 201 echoes register_id with the outcome's status, which is UNKNOWN when no outcome was given |
| Flow.TwoKeys | assets/js/pay.js:190 | a parameter set with both amount and origin has at least two keys |
| Flow.FewerThanTwoKeysRejected | assets/js/pay.js:190-206 | with fewer than two parameters, the request still sent is answered 400 and reaches the fail handler |
| Flow.UsableRequestCreated | assets/js/pay.js:196-206 | a request with a usable amount and origin is answered 201 with the register and the outcome's status |
| Flow.OutcomeDecidesEnding | assets/js/pay.js:126-147 | the payment ends with ACCEPT or DECLINE exactly when the outcome spells ACCEPT, CANCEL or DECLINE; the stub's TIMEOUT reaches the default case |
| Flow.ShortLaunchReceived | assets/js/pay.js:24 | on a short launch the register receives SETUP and EXIT as built, and a DECLINE without its undefined receipt |
| Flow.EndingsReceivedAsSent | assets/js/pay.js:24 | every ending of a payment with a usable request reaches the register exactly as the page built it |
| Flow.Launch | assets/js/pay.js:176-206 | after the ready handler and the outcome click, SETUP (and EXIT on a short launch) has been sent and one request is pending; the reply is the stub's answer to that request |
| Flow.ShortLaunch | assets/js/pay.js:189-227 | a launch with fewer than two parameters sends SETUP, EXIT and then DECLINE without a receipt, and the register receives that DECLINE as `{step: DECLINE, print: true}` |
| Flow.Rejected | assets/js/pay.js:216-227 | after a rejected request both timers fire in order, and DECLINE without a receipt follows EXIT |
| Flow.Respond | assets/js/pay.js:207-215 | with every timer fired, ACCEPTED, CANCELLED and DECLINED each end with their step and receipt and leave the buttons hidden; every other status sends nothing more and shows the buttons |
| Flow.CashierSession | assets/js/pay.js:176-215 | ACCEPT ends in ACCEPT; CANCEL and DECLINE end in DECLINE naming the status; any other outcome, the empty one included, sends nothing after SETUP and gives the buttons back; the register receives every step exactly as built |

## Left out

- The `ajaxStart`/`ajaxStop` hooks (`assets/js/pay.js:10-17`) are modelled only where they change the outcome buttons. `ajaxStart` hides `#outcomes` when a request starts while none is active. The model applies this to the payment-template request in PayPage.Page.SendPayment and assumes that no other request is still in flight at the click. On the URIError path the buttons therefore stay hidden, as in the source. In Init the hiding is undone by the explicit show; in the done and fail handlers the buttons are hidden anyway. The loader element that the hooks show and hide is not modelled.
- The HTML templates' content, and the order in which the asynchronous template loads complete. The status area records only which template was last requested.
- `postMessage` itself and the choice between the opener and the parent window. The page records the step objects handed to `sendObjectToVend`; `Steps.Received` maps them to what the register receives.
- The inbound `message` listener (`assets/js/pay.js:232-242`). It only logs.
- `console.log` and `log.Printf`, `time.Sleep` and real time. Timers are a list that the environment fires one at a time.
- The random response `id` and the `amount` echoed in the reply, which the page never reads.
- The Go server's routing, the static file server and the port choice.
- Steps.Stringified: serialisation to JSON text is not modelled; only the dropping of undefined members is. It carries no contract of its own; its properties are the lemmas Steps.StringifiedDefined and Steps.ReceivedAsSent.
- Gateway.PaymentHandler: `strconv.ParseFloat` is a parameter. It reports one of four outcomes: an error (malformed, or out of range), zero, a finite non-zero number, or NaN/infinity. `json.Marshal` is modelled only by its failure on NaN and infinities, which gives 500.
- Gateway.StatusFor: `strings.ToUpper` is modelled for ASCII letters and for U+0131 and U+017F, the only runes whose upper case is an ASCII letter. Other runes are left unchanged, which does not affect the switch.
- Uri.Decode: characters are Unicode scalar values, not UTF-16 code units. A decoded supplementary character is one character rather than a surrogate pair. Its contract states only the escape-free case; the full algorithm is its body, and Uri.DecodeEscapeAll gives its round trip.
- Uri.DecodeEscape: its contract bounds only how much text an escape consumes; its body follows ECMA-262 Decode step by step.
- The initial markup of `index.html`, and the build files. `index.html` is not part of this model.
- PayPage.Page.SendPayment: like every handler other than Init, it requires the ready handler to have run. The outcome buttons that call it are assumed hidden until the ready handler shows them, which the missing `index.html` would decide.
