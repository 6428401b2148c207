/**
 * The whole payment flow: the request the page issues reaches
 * PaymentHandler as its form, and the handler's reply comes back to the page
 * as the done handler (a 201 with its JSON status) or the fail handler (any
 * other code).
 */
module Flow {
  import opened Wrappers
  import opened Js
  import opened Steps
  import opened LaunchParams
  import opened PayPage
  import opened Gateway

  /** The form PaymentHandler reads for a request the page sent. */
  function FormOf(req: GatewayRequest): Form {
    map["amount" := [req.amount], "outcome" := [req.outcome],
        "origin" := [req.origin], "register_id" := [req.registerId]]
  }

  /** The status the done handler receives, or None when the request fails. */
  function Delivered(reply: Reply): Option<Value> {
    if reply.Created? then Some(Str(reply.status)) else None
  }

  lemma TwoKeys(parameters: Parameters)
    requires "amount" in parameters && "origin" in parameters
    ensures |parameters| >= 2
  {
    var rest := parameters.Keys - {"amount"};
    assert "origin" in rest;
    assert parameters.Keys == rest + {"amount"};
  }

  /**
   * When the launch query gave fewer than two parameters, the amount or the
   * origin reaches the handler empty, so the request the page still sends
   * is always rejected with 400 and ends in the fail handler.
   */
  lemma FewerThanTwoKeysRejected(parameters: Parameters, outcome: string, parseFloat: string -> FloatParse)
    requires |parameters| < 2
    ensures Verdict(FormOf(RequestFor(parameters, outcome)), parseFloat) == BadRequest
    ensures Delivered(Verdict(FormOf(RequestFor(parameters, outcome)), parseFloat)) == None
  {
    if "amount" in parameters && "origin" in parameters {
      TwoKeys(parameters);
    }
  }

  /**
   * A request with a usable amount and origin is answered 201, echoing the
   * register with the status of the outcome (ACCEPTED when none was chosen).
   */
  lemma UsableRequestCreated(parameters: Parameters, outcome: string, parseFloat: string -> FloatParse)
    requires FieldText(parameters, "amount") != "" && FieldText(parameters, "origin") != ""
    requires parseFloat(FieldText(parameters, "amount")) == NonZero
    ensures Verdict(FormOf(RequestFor(parameters, outcome)), parseFloat)
         == Created(FieldText(parameters, "register_id"), StatusFor(EffectiveOutcome(outcome)))
  {
    var form := FormOf(RequestFor(parameters, outcome));
    assert FormGet(form, "amount") == FieldText(parameters, "amount");
    assert FormGet(form, "origin") == FieldText(parameters, "origin");
    assert FormGet(form, "register_id") == FieldText(parameters, "register_id");
    assert FormGet(form, "outcome") == outcome;
  }

  /**
   * For a request the stub accepts, the page ends the payment (ACCEPT now,
   * or DECLINE scheduled) exactly when the outcome spells ACCEPT, CANCEL or
   * DECLINE; the stub's TIMEOUT reaches the page's default case.
   */
  lemma OutcomeDecidesEnding(outcome: string)
    ensures EqualFold(outcome, "ACCEPT") ==> CaseOf(Str(StatusFor(outcome))) == AcceptedCase
    ensures EqualFold(outcome, "CANCEL") ==> CaseOf(Str(StatusFor(outcome))) == CancelledCase
    ensures EqualFold(outcome, "DECLINE") ==> CaseOf(Str(StatusFor(outcome))) == DeclinedCase
    ensures IsTerminal(CaseOf(Str(StatusFor(outcome)))) <==>
      EqualFold(outcome, "ACCEPT") || EqualFold(outcome, "CANCEL") || EqualFold(outcome, "DECLINE")
    ensures EqualFold(outcome, "TIMEOUT") ==> CaseOf(Str(StatusFor(outcome))) == DefaultCase
  {
    StatusForCases(outcome);
    CaseOfStatuses(Str(StatusFor(outcome)));
    CaseOfStatuses(Str(StatusTimeout));
  }

  /**
   * On a short launch the host receives SETUP and EXIT as built, and a
   * DECLINE that has lost its undefined receipt.
   */
  lemma ShortLaunchReceived()
    ensures Received([SetupStep(), ExitStep(), DeclineStep(Undefined)])
         == [SetupStep(), ExitStep(), map["step" := Str("DECLINE"), "print" := Bool(true)]]
  {
    EncodersFullyDefined(Undefined);
    StringifiedDefined(SetupStep());
    StringifiedDefined(ExitStep());
    UndefinedReceiptNotSent();
  }

  /** Every way a payment with a usable request ends reaches the host exactly as the page built it. */
  lemma EndingsReceivedAsSent(steps: seq<Message>)
    requires || steps == [SetupStep()]
             || steps == [SetupStep(), AcceptStep(Str("<div>ACCEPTED</div>"))]
             || steps == [SetupStep(), DeclineStep(Str("<div>CANCELLED</div>"))]
             || steps == [SetupStep(), DeclineStep(Str("<div>DECLINED</div>"))]
    ensures Received(steps) == steps
  {
    EncodersFullyDefined(Str("<div>ACCEPTED</div>"));
    EncodersFullyDefined(Str("<div>CANCELLED</div>"));
    EncodersFullyDefined(Str("<div>DECLINED</div>"));
    ReceivedAsSent(steps);
  }

  /**
   * A fresh page after its ready handler and the cashier's choice of
   * `outcome`, with the stub's answer to the request it sent.
   */
  method Launch(search: string, outcome: string, parseFloat: string -> FloatParse)
    returns (page: Page, reply: Reply)
    requires ReadLaunchParameters(search).Ok?
    ensures fresh(page) && page.Valid() && page.ready
    ensures page.sent == [SetupStep()] + (if |ReadLaunchParameters(search).value| < 2 then [ExitStep()] else [])
    ensures page.timers == (if |ReadLaunchParameters(search).value| < 2 then [Timer(4000, Inert)] else [])
    ensures page.awaiting == 1
    ensures reply == Verdict(FormOf(RequestFor(ReadLaunchParameters(search).value, outcome)), parseFloat)
  {
    page := new Page();
    page.Init();
    page.SendPayment(search, outcome);
    reply := PaymentHandler(FormOf(page.requests[0]), parseFloat);
  }

  /**
   * A page launched with fewer than two parameters: the host receives SETUP,
   * EXIT at once, and after the rejected request a DECLINE without a receipt.
   */
  method ShortLaunch(search: string, outcome: string, parseFloat: string -> FloatParse)
    returns (steps: seq<Message>)
    requires ReadLaunchParameters(search).Ok? && |ReadLaunchParameters(search).value| < 2
    ensures steps == [SetupStep(), ExitStep(), DeclineStep(Undefined)]
    ensures Received(steps) == [SetupStep(), ExitStep(), map["step" := Str("DECLINE"), "print" := Bool(true)]]
  {
    ShortLaunchReceived();
    var page, reply := Launch(search, outcome, parseFloat);
    FewerThanTwoKeysRejected(ReadLaunchParameters(search).value, outcome, parseFloat);
    assert reply.Code() == 400;
    steps := Rejected(page);
  }

  /**
   * A short launch whose request the stub rejected: the fail handler runs,
   * then both timers fire in the order they were set.
   */
  method Rejected(page: Page) returns (steps: seq<Message>)
    requires page.Valid() && page.ready && page.awaiting == 1
    requires page.sent == [SetupStep(), ExitStep()] && page.timers == [Timer(4000, Inert)]
    modifies page
    ensures steps == [SetupStep(), ExitStep(), DeclineStep(Undefined)]
  {
    page.GatewayFailed();
    assert page.timers == [Timer(4000, Inert), Timer(4000, SendDecline(Undefined))];
    page.FireTimer(0);
    page.FireTimer(0);
    steps := page.sent;
  }

  /**
   * What a payment whose stub status selects case `c` leaves behind, once
   * every timer has fired: the steps sent after SETUP, and whether the
   * outcome buttons are shown.
   */
  method Respond(page: Page, status: string) returns (steps: seq<Message>, buttons: bool)
    requires page.Valid() && page.ready && page.sent == [SetupStep()] && page.timers == [] && page.awaiting == 1
    modifies page
    ensures CaseOf(Str(status)) == AcceptedCase ==> steps == [SetupStep(), AcceptStep(Str("<div>ACCEPTED</div>"))] && !buttons
    ensures CaseOf(Str(status)) == CancelledCase ==> steps == [SetupStep(), DeclineStep(Str("<div>CANCELLED</div>"))] && !buttons
    ensures CaseOf(Str(status)) == DeclinedCase ==> steps == [SetupStep(), DeclineStep(Str("<div>DECLINED</div>"))] && !buttons
    ensures !IsTerminal(CaseOf(Str(status))) ==> steps == [SetupStep()] && buttons
  {
    page.GatewayDone(Str(status));
    if |page.timers| > 0 {
      page.FireTimer(0);
    }
    steps := page.sent;
    buttons := page.outcomesVisible;
  }

  /**
   * A page launched with a usable amount and origin, on which the cashier
   * picks `outcome`, once every timer has fired: ACCEPT ends in ACCEPT,
   * CANCEL and DECLINE in a DECLINE naming the status, and every other
   * outcome (the empty one among them) sends nothing beyond SETUP and gives
   * the outcome buttons back.
   */
  method CashierSession(search: string, outcome: string, parseFloat: string -> FloatParse)
    returns (steps: seq<Message>, buttons: bool)
    requires ReadLaunchParameters(search).Ok?
    requires FieldText(ReadLaunchParameters(search).value, "amount") != ""
    requires FieldText(ReadLaunchParameters(search).value, "origin") != ""
    requires parseFloat(FieldText(ReadLaunchParameters(search).value, "amount")) == NonZero
    ensures EqualFold(outcome, "ACCEPT") ==> steps == [SetupStep(), AcceptStep(Str("<div>ACCEPTED</div>"))] && !buttons
    ensures EqualFold(outcome, "CANCEL") ==> steps == [SetupStep(), DeclineStep(Str("<div>CANCELLED</div>"))] && !buttons
    ensures EqualFold(outcome, "DECLINE") ==> steps == [SetupStep(), DeclineStep(Str("<div>DECLINED</div>"))] && !buttons
    ensures !EqualFold(outcome, "ACCEPT") && !EqualFold(outcome, "CANCEL") && !EqualFold(outcome, "DECLINE") ==>
      steps == [SetupStep()] && buttons
    ensures outcome == "" ==> steps == [SetupStep()] && buttons
    ensures Received(steps) == steps
  {
    var parameters := ReadLaunchParameters(search).value;
    TwoKeys(parameters);
    var page, reply := Launch(search, outcome, parseFloat);
    UsableRequestCreated(parameters, outcome, parseFloat);
    OutcomeDecidesEnding(EffectiveOutcome(outcome));
    if outcome == "" {
      EmptyOutcomeIsUnknown();
      CaseOfStatuses(Str(StatusUnknown));
    }
    steps, buttons := Respond(page, reply.status);
    EndingsReceivedAsSent(steps);
  }
}
