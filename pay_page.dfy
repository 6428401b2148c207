/**
 * The payment page of assets/js/pay.js as a state machine: the status area,
 * the outcome buttons, the steps sent to the host, the timers set, and the
 * gateway requests issued. Each handler of the page is a method of Page; the
 * gateway's answer and the firing of a timer are events its environment
 * delivers.
 */
module PayPage {
  import opened Wrappers
  import opened Js
  import opened Steps
  import opened LaunchParams

  /** The status templates the page loads into `#statusMessage`. */
  datatype Template = Waiting | Payment | Cancelled | Declined | Failed

  /** `#statusMessage`: emptied, or emptied and then given a template to load. */
  datatype Display = Cleared | Showing(template: Template)

  /**
   * What a timer runs when it fires: declineStep with its receipt, or a
   * handler that is not a function, whose string form the browser evaluates
   * to no effect.
   */
  datatype TimerAction = SendDecline(receiptHTML: Value) | Inert

  datatype Timer = Timer(delayMs: nat, action: TimerAction)

  /** The query the `pay` endpoint receives; jQuery sends an undefined value as an empty string. */
  datatype GatewayRequest = GatewayRequest(amount: string, outcome: string, origin: string, registerId: string)

  /** The text jQuery sends for `parameters[key]`. */
  function FieldText(parameters: Parameters, key: string): string {
    if key in parameters && parameters[key].Str? then parameters[key].s else ""
  }

  /** The request sendPayment issues for the launch parameters and the chosen outcome. */
  function RequestFor(parameters: Parameters, outcome: string): GatewayRequest {
    GatewayRequest(FieldText(parameters, "amount"), outcome,
                   FieldText(parameters, "origin"), FieldText(parameters, "register_id"))
  }

  /**
   * What checkResponse does for one gateway status: the new status area
   * (None: left alone), the steps sent at once, the timers set, and whether
   * the outcome buttons are shown.
   */
  datatype Effects = Effects(display: Option<Display>, send: seq<Message>, schedule: seq<Timer>, showOutcomes: bool)

  /** The receipt checkResponse attaches to a terminal step for `status`. */
  function ReceiptFor(status: string): Value {
    Str("<div>" + status + "</div>")
  }

  /** The case of checkResponse's switch that a `response.status` selects (the switch compares with `===`). */
  datatype StatusCase = AcceptedCase | CancelledCase | DeclinedCase | FailedCase | UnknownCase | DefaultCase

  function CaseOf(status: Value): StatusCase {
    if status == Str("ACCEPTED") then AcceptedCase
    else if status == Str("CANCELLED") then CancelledCase
    else if status == Str("DECLINED") then DeclinedCase
    else if status == Str("FAILED") then FailedCase
    else if status == Str("UNKNOWN") then UnknownCase
    else DefaultCase
  }

  /** The statuses with a case of their own; TIMEOUT is not among them. */
  lemma {:induction false} CaseOfStatuses(status: Value)
    ensures CaseOf(status) != DefaultCase <==>
      status in {Str("ACCEPTED"), Str("CANCELLED"), Str("DECLINED"), Str("FAILED"), Str("UNKNOWN")}
    ensures CaseOf(Str("ACCEPTED")) == AcceptedCase && CaseOf(Str("CANCELLED")) == CancelledCase
    ensures CaseOf(Str("DECLINED")) == DeclinedCase && CaseOf(Str("FAILED")) == FailedCase
    ensures CaseOf(Str("UNKNOWN")) == UnknownCase && CaseOf(Str("TIMEOUT")) == DefaultCase
  {
  }

  /** What each case of checkResponse does, as a table of effects. */
  function Classify(c: StatusCase): Effects {
    match c
    case AcceptedCase =>
      Effects(Some(Cleared), [AcceptStep(Str("<div>ACCEPTED</div>"))], [], false)
    case CancelledCase =>
      Effects(Some(Showing(Cancelled)), [], [Timer(4000, SendDecline(Str("<div>CANCELLED</div>")))], false)
    case DeclinedCase =>
      Effects(Some(Showing(Declined)), [], [Timer(4000, SendDecline(Str("<div>DECLINED</div>")))], false)
    case FailedCase | UnknownCase =>
      // setTimeout is handed the result of `$('#outcomes').show()`: the buttons show at once
      Effects(Some(Showing(Failed)), [], [Timer(6000, Inert)], true)
    case DefaultCase =>
      Effects(None, [], [], true)
  }

  /** The cases that end the payment with ACCEPT or DECLINE. */
  predicate IsTerminal(c: StatusCase) {
    c == AcceptedCase || c == CancelledCase || c == DeclinedCase
  }

  /** How many of `ms` are of kind `k`. */
  function CountKind(ms: seq<Message>, k: StepKind): nat {
    if |ms| == 0 then 0
    else CountKind(ms[..|ms| - 1], k) + (if KindOf(ms[|ms| - 1]) == Some(k) then 1 else 0)
  }

  lemma CountKindSnoc(ms: seq<Message>, m: Message, k: StepKind)
    ensures CountKind(ms + [m], k) == CountKind(ms, k) + (if KindOf(m) == Some(k) then 1 else 0)
  {
    assert (ms + [m])[..|ms|] == ms;
  }

  /** The ACCEPT and DECLINE steps an effect sends now or schedules. */
  function TerminalSteps(e: Effects): nat {
    CountKind(e.send, Accept) + CountKind(e.send, Decline)
    + |set i | 0 <= i < |e.schedule| && e.schedule[i].action.SendDecline?|
  }

  /**
   * A gateway status ends the payment with exactly one ACCEPT or DECLINE when
   * it is ACCEPTED, CANCELLED or DECLINED, and with none otherwise; exactly
   * when it does not, the outcome buttons come back.
   */
  lemma OneTerminalStep(c: StatusCase)
    ensures TerminalSteps(Classify(c)) == if IsTerminal(c) then 1 else 0
    ensures Classify(c).showOutcomes <==> !IsTerminal(c)
  {
    var e := Classify(c);
    var decl := set i | 0 <= i < |e.schedule| && e.schedule[i].action.SendDecline?;
    if c == CancelledCase || c == DeclinedCase {
      assert decl == {0};
    } else {
      assert decl == {};
    }
  }

  /**
   * Only the ready handler sends SETUP: no gateway status, EXIT on a short
   * launch, nor a firing DECLINE timer sends another.
   */
  lemma SetupOnlyOnReady(c: StatusCase, receiptHTML: Value)
    ensures CountKind(Classify(c).send, Setup) == 0
    ensures CountKind([ExitStep()], Setup) == 0
    ensures CountKind([DeclineStep(receiptHTML)], Setup) == 0
  {
    EncodersAnnounceTheirStep(receiptHTML);
    EncodersAnnounceTheirStep(Str("<div>ACCEPTED</div>"));
  }

  /** The receipts checkResponse spells out are ReceiptFor of their statuses. */
  lemma ReceiptLiterals()
    ensures ReceiptFor("ACCEPTED") == Str("<div>ACCEPTED</div>")
    ensures ReceiptFor("CANCELLED") == Str("<div>CANCELLED</div>")
    ensures ReceiptFor("DECLINED") == Str("<div>DECLINED</div>")
  {
  }

  /**
   * ACCEPTED sends ACCEPT at once; CANCELLED and DECLINED schedule DECLINE
   * after 4000 ms. Either way the receipt names the status.
   */
  lemma TerminalReceipts(st: string)
    requires st == "ACCEPTED" || st == "CANCELLED" || st == "DECLINED"
    ensures var e := Classify(CaseOf(Str(st)));
      if st == "ACCEPTED" then e.send == [AcceptStep(ReceiptFor(st))] && e.schedule == []
      else e.send == [] && e.schedule == [Timer(4000, SendDecline(ReceiptFor(st)))]
  {
    ReceiptLiterals();
    if st == "ACCEPTED" {
      assert CaseOf(Str(st)) == AcceptedCase;
    } else if st == "CANCELLED" {
      assert CaseOf(Str(st)) == CancelledCase;
    } else {
      assert CaseOf(Str(st)) == DeclinedCase;
    }
  }

  /**
   * FAILED and UNKNOWN both load the failed template, send nothing and show
   * the outcome buttons; any status without a case of its own (TIMEOUT among
   * them, and any non-string) leaves the status area alone and only shows the
   * buttons.
   */
  lemma UnhandledStatuses(status: Value)
    ensures Classify(CaseOf(Str("FAILED"))) == Classify(CaseOf(Str("UNKNOWN")))
    ensures Classify(CaseOf(Str("UNKNOWN"))) == Effects(Some(Showing(Failed)), [], [Timer(6000, Inert)], true)
    ensures Classify(CaseOf(Str("TIMEOUT"))) == Effects(None, [], [], true)
    ensures CaseOf(status) == DefaultCase ==> Classify(CaseOf(status)) == Classify(CaseOf(Str("TIMEOUT")))
    ensures Classify(CaseOf(status)).display.Some? <==> CaseOf(status) != DefaultCase
  {
    CaseOfStatuses(status);
  }

  class Page {
    var display: Display
    var outcomesVisible: bool
    var sent: seq<Message>
    var timers: seq<Timer>
    var requests: seq<GatewayRequest>
    /** Gateway requests whose done or fail handler has not yet run. */
    var awaiting: nat
    /** Whether the document-ready handler has run. */
    ghost var ready: bool

    /**
     * Before the ready handler nothing has been sent; after it, SETUP is the
     * first step sent, and the only one.
     */
    ghost predicate Valid()
      reads this`sent, this`ready
    {
      && (if ready then |sent| > 0 && sent[0] == SetupStep() else sent == [])
      && CountKind(sent, Setup) == (if ready then 1 else 0)
    }

    /** The page as loaded, before its ready handler. */
    constructor ()
      ensures Valid() && !ready
      ensures display == Cleared && !outcomesVisible
      ensures sent == [] && timers == [] && requests == [] && awaiting == 0
    {
      display := Cleared;
      outcomesVisible := false;
      sent := [];
      timers := [];
      requests := [];
      awaiting := 0;
      ready := false;
    }

    /** sendObjectToVend. */
    method SendObjectToVend(m: Message)
      modifies this`sent
      ensures sent == old(sent) + [m]
      ensures CountKind(sent, Setup) == old(CountKind(sent, Setup)) + (if KindOf(m) == Some(Setup) then 1 else 0)
    {
      CountKindSnoc(sent, m, Setup);
      sent := sent + [m];
    }

    /** The document-ready handler: SETUP, the waiting template, the outcome buttons. */
    method Init()
      requires Valid() && !ready
      modifies this
      ensures Valid() && ready
      ensures sent == old(sent) + [SetupStep()]
      ensures display == Showing(Waiting) && outcomesVisible
      ensures timers == old(timers) && requests == old(requests) && awaiting == old(awaiting)
    {
      assert KindOf(SetupStep()) == Some(Setup) by { EncodersAnnounceTheirStep(Undefined); }
      SendObjectToVend(SetupStep());
      ready := true;
      display := Showing(Waiting);
      outcomesVisible := true;
    }

    /**
     * sendPayment: shows the payment template, reads the launch parameters,
     * sends EXIT at once when fewer than two were found, and requests the
     * gateway in any case. A URIError from the reader ends the handler
     * before the EXIT check. Requesting the template starts jQuery's
     * `ajaxStart` hook, which hides the outcome buttons.
     */
    method SendPayment(search: string, outcome: string)
      requires Valid() && ready
      modifies this
      ensures Valid() && ready
      ensures display == Showing(Payment) && !outcomesVisible
      ensures ReadLaunchParameters(search).Err? ==>
        sent == old(sent) && timers == old(timers) && requests == old(requests) && awaiting == old(awaiting)
      ensures ReadLaunchParameters(search).Ok? ==>
        var parameters := ReadLaunchParameters(search).value;
        && sent == old(sent) + (if |parameters| < 2 then [ExitStep()] else [])
        && timers == old(timers) + (if |parameters| < 2 then [Timer(4000, Inert)] else [])
        && requests == old(requests) + [RequestFor(parameters, outcome)]
        && awaiting == old(awaiting) + 1
    {
      display := Showing(Payment);
      outcomesVisible := false;
      var result := GetURLParameters(search);
      if result.Err? {
        return;
      }
      RequestPayment(result.value, outcome);
    }

    /** The rest of sendPayment once the parameters are read: the EXIT check, then the gateway request. */
    method RequestPayment(parameters: Parameters, outcome: string)
      requires Valid() && ready
      modifies this`sent, this`timers, this`requests, this`awaiting
      ensures Valid() && ready
      ensures sent == old(sent) + (if |parameters| < 2 then [ExitStep()] else [])
      ensures timers == old(timers) + (if |parameters| < 2 then [Timer(4000, Inert)] else [])
      ensures requests == old(requests) + [RequestFor(parameters, outcome)]
      ensures awaiting == old(awaiting) + 1
    {
      if |parameters| < 2 {
        SendExit();
      }
      requests := requests + [RequestFor(parameters, outcome)];
      awaiting := awaiting + 1;
    }

    /**
     * sendPayment's reaction to fewer than two parameters: exitStep() runs at
     * once, and setTimeout gets its undefined result.
     */
    method SendExit()
      requires Valid() && ready
      modifies this`sent, this`timers
      ensures Valid() && ready
      ensures sent == old(sent) + [ExitStep()] && timers == old(timers) + [Timer(4000, Inert)]
    {
      assert KindOf(ExitStep()) == Some(Exit) by { EncodersAnnounceTheirStep(Undefined); }
      SendObjectToVend(ExitStep());
      timers := timers + [Timer(4000, Inert)];
    }

    /** checkResponse. */
    method CheckResponse(status: Value)
      requires Valid() && ready
      modifies this
      ensures Valid() && ready
      ensures var e := Classify(CaseOf(status));
        && display == (if e.display.Some? then e.display.value else old(display))
        && outcomesVisible == (e.showOutcomes || old(outcomesVisible))
        && sent == old(sent) + e.send
        && timers == old(timers) + e.schedule
      ensures requests == old(requests) && awaiting == old(awaiting)
    {
      match CaseOf(status)
      case AcceptedCase =>
        display := Cleared;
        assert KindOf(AcceptStep(Str("<div>ACCEPTED</div>"))) == Some(Accept) by {
          EncodersAnnounceTheirStep(Str("<div>ACCEPTED</div>"));
        }
        SendObjectToVend(AcceptStep(Str("<div>ACCEPTED</div>")));
      case CancelledCase =>
        display := Showing(Cancelled);
        timers := timers + [Timer(4000, SendDecline(Str("<div>CANCELLED</div>")))];
      case DeclinedCase =>
        display := Showing(Declined);
        timers := timers + [Timer(4000, SendDecline(Str("<div>DECLINED</div>")))];
      case FailedCase =>
        display := Showing(Failed);
        outcomesVisible := true;
        timers := timers + [Timer(6000, Inert)];
      case UnknownCase =>
        display := Showing(Failed);
        outcomesVisible := true;
        timers := timers + [Timer(6000, Inert)];
      case DefaultCase =>
        outcomesVisible := true;
    }

    /** The request's done handler: hides the outcome buttons, then checkResponse. */
    method GatewayDone(status: Value)
      requires Valid() && ready && awaiting > 0
      modifies this
      ensures Valid() && ready
      ensures var e := Classify(CaseOf(status));
        && display == (if e.display.Some? then e.display.value else old(display))
        && outcomesVisible == e.showOutcomes
        && sent == old(sent) + e.send
        && timers == old(timers) + e.schedule
      ensures requests == old(requests) && awaiting == old(awaiting) - 1
    {
      outcomesVisible := false;
      CheckResponse(status);
      awaiting := awaiting - 1;
    }

    /** The request's fail handler: the failed template and, after 4000 ms, DECLINE with no receipt. */
    method GatewayFailed()
      requires Valid() && ready && awaiting > 0
      modifies this
      ensures Valid() && ready
      ensures display == Showing(Failed) && !outcomesVisible
      ensures timers == old(timers) + [Timer(4000, SendDecline(Undefined))]
      ensures sent == old(sent) && requests == old(requests) && awaiting == old(awaiting) - 1
    {
      outcomesVisible := false;
      display := Showing(Failed);
      timers := timers + [Timer(4000, SendDecline(Undefined))];
      awaiting := awaiting - 1;
    }

    /** Timer `i` fires: it is removed and its action runs. */
    method FireTimer(i: nat)
      requires Valid() && ready && i < |timers|
      modifies this
      ensures Valid() && ready
      ensures timers == old(timers[..i] + timers[i + 1..])
      ensures sent == old(sent) + match old(timers[i].action)
        case SendDecline(receiptHTML) => [DeclineStep(receiptHTML)]
        case Inert => []
      ensures display == old(display) && outcomesVisible == old(outcomesVisible)
      ensures requests == old(requests) && awaiting == old(awaiting)
    {
      var action := timers[i].action;
      timers := timers[..i] + timers[i + 1..];
      match action
      case SendDecline(receiptHTML) =>
        assert KindOf(DeclineStep(receiptHTML)) == Some(Decline) by { EncodersAnnounceTheirStep(receiptHTML); }
        SendObjectToVend(DeclineStep(receiptHTML));
      case Inert =>
    }
  }
}
