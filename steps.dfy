/**
 * The Payments API steps that assets/js/pay.js sends to the host window: each
 * encoder builds one fixed-shape object literal, which sendObjectToVend hands
 * to the host.
 */
module Steps {
  import opened Wrappers
  import opened Js

  /** A step message: the object literal given to sendObjectToVend. */
  type Message = map<string, Value>

  datatype StepKind = Setup | Data | Accept | Decline | Exit | Print

  /** The value of the `step` field that names each kind. */
  function StepName(k: StepKind): string {
    match k
    case Setup => "SETUP"
    case Data => "DATA"
    case Accept => "ACCEPT"
    case Decline => "DECLINE"
    case Exit => "EXIT"
    case Print => "PRINT"
  }

  /** The kind a `step` field names, if any; the inverse of StepName. */
  function KindNamed(name: string): (k: Option<StepKind>)
    ensures k.Some? ==> StepName(k.value) == name
    ensures k.None? ==> forall kind: StepKind :: StepName(kind) != name
  {
    if name == "SETUP" then Some(Setup)
    else if name == "DATA" then Some(Data)
    else if name == "ACCEPT" then Some(Accept)
    else if name == "DECLINE" then Some(Decline)
    else if name == "EXIT" then Some(Exit)
    else if name == "PRINT" then Some(Print)
    else None
  }

  /** The kind of step a message announces, read from its `step` field as the host reads it. */
  function KindOf(m: Message): Option<StepKind> {
    if "step" in m && m["step"].Str? then KindNamed(m["step"].s) else None
  }

  /** The `receipt_html_extra` field of a message (undefined when absent). */
  function ReceiptOf(m: Message): Value {
    if "receipt_html_extra" in m then m["receipt_html_extra"] else Undefined
  }

  /** ACCEPT: a successful transaction. */
  function AcceptStep(receiptHTML: Value): Message {
    map["step" := Str("ACCEPT"), "receipt_html_extra" := receiptHTML]
  }

  /** DATA: asks the host for the sale, payment and line items. */
  function DataStep(): Message {
    map["step" := Str("DATA")]
  }

  /** DECLINE: back to the pay screen, printing a declined receipt when enabled. */
  function DeclineStep(receiptHTML: Value): Message {
    map["step" := Str("DECLINE"), "print" := Bool(true), "receipt_html_extra" := receiptHTML]
  }

  /** EXIT: closes the payment dialogs without an outcome. */
  function ExitStep(): Message {
    map["step" := Str("EXIT")]
  }

  /** PRINT: prints a receipt with extra information. */
  function PrintStep(receiptHTML: Value): Message {
    map["step" := Str("PRINT"), "receipt_html_extra" := receiptHTML]
  }

  /** SETUP: hides the dialog's close button and sets its header. */
  function SetupStep(): Message {
    map["step" := Str("SETUP"),
        "setup" := Obj(map["enable_close" := Bool(false), "header" := Str("Pay Example")])]
  }

  /**
   * The members JSON.stringify writes out: it drops those whose value is
   * undefined. In these messages only top-level members can be undefined.
   */
  function Stringified(m: Message): Message {
    map k | k in m && m[k] != Undefined :: m[k]
  }

  /** No member of `m` is undefined. */
  predicate FullyDefined(m: Message) {
    forall k | k in m :: m[k] != Undefined
  }

  /** What the host receives, in order, for the messages handed to sendObjectToVend. */
  function Received(ms: seq<Message>): seq<Message> {
    seq(|ms|, i requires 0 <= i < |ms| => Stringified(ms[i]))
  }

  /**
   * What the host receives has no undefined member, a message reaches it
   * unchanged exactly when none of its members is undefined, and
   * stringifying twice changes nothing more.
   */
  lemma StringifiedDefined(m: Message)
    ensures FullyDefined(Stringified(m))
    ensures Stringified(m) == m <==> FullyDefined(m)
    ensures Stringified(Stringified(m)) == Stringified(m)
  {
    if Stringified(m) == m {
      forall k | k in m
        ensures m[k] != Undefined
      {
        assert k in Stringified(m);
      }
    }
  }

  /** A list of messages reaches the host unchanged when none of them has an undefined member. */
  lemma {:induction false} ReceivedAsSent(ms: seq<Message>)
    requires forall i | 0 <= i < |ms| :: FullyDefined(ms[i])
    ensures Received(ms) == ms
  {
    forall i | 0 <= i < |ms|
      ensures Received(ms)[i] == ms[i]
    {
      StringifiedDefined(ms[i]);
    }
  }

  /**
   * The encoders build messages with no undefined member, except for the
   * receipt of ACCEPT, DECLINE and PRINT, which is exactly what their
   * argument decides.
   */
  lemma EncodersFullyDefined(receiptHTML: Value)
    ensures FullyDefined(AcceptStep(receiptHTML)) <==> receiptHTML != Undefined
    ensures FullyDefined(DeclineStep(receiptHTML)) <==> receiptHTML != Undefined
    ensures FullyDefined(PrintStep(receiptHTML)) <==> receiptHTML != Undefined
    ensures FullyDefined(DataStep()) && FullyDefined(ExitStep()) && FullyDefined(SetupStep())
  {
    assert AcceptStep(receiptHTML)["receipt_html_extra"] == receiptHTML;
    assert DeclineStep(receiptHTML)["receipt_html_extra"] == receiptHTML;
    assert PrintStep(receiptHTML)["receipt_html_extra"] == receiptHTML;
  }

  lemma KindNamedRoundTrip(k: StepKind)
    ensures KindNamed(StepName(k)) == Some(k)
  {
  }

  /** Each encoder's message announces its own step, so the host tells all six apart. */
  lemma EncodersAnnounceTheirStep(receiptHTML: Value)
    ensures KindOf(AcceptStep(receiptHTML)) == Some(Accept)
    ensures KindOf(DataStep()) == Some(Data)
    ensures KindOf(DeclineStep(receiptHTML)) == Some(Decline)
    ensures KindOf(ExitStep()) == Some(Exit)
    ensures KindOf(PrintStep(receiptHTML)) == Some(Print)
    ensures KindOf(SetupStep()) == Some(Setup)
  {
  }

  /** The receipt handed to ACCEPT, DECLINE and PRINT is carried unchanged; the other steps carry none. */
  lemma ReceiptCarried(receiptHTML: Value)
    ensures ReceiptOf(AcceptStep(receiptHTML)) == receiptHTML
    ensures ReceiptOf(DeclineStep(receiptHTML)) == receiptHTML
    ensures ReceiptOf(PrintStep(receiptHTML)) == receiptHTML
    ensures ReceiptOf(DataStep()) == Undefined && ReceiptOf(ExitStep()) == Undefined
    ensures ReceiptOf(SetupStep()) == Undefined
  {
  }

  /**
   * No step carries a `transaction_id`, and every DECLINE asks the host to
   * print.
   */
  lemma FixedShapes(receiptHTML: Value)
    ensures "transaction_id" !in AcceptStep(receiptHTML)
    ensures AcceptStep(receiptHTML).Keys == {"step", "receipt_html_extra"}
    ensures DeclineStep(receiptHTML).Keys == {"step", "print", "receipt_html_extra"}
    ensures DeclineStep(receiptHTML)["print"] == Bool(true)
    ensures PrintStep(receiptHTML).Keys == {"step", "receipt_html_extra"}
    ensures DataStep().Keys == {"step"} && ExitStep().Keys == {"step"}
    ensures SetupStep().Keys == {"step", "setup"}
  {
  }

  /** A DECLINE built without a receipt reaches the host with only `step` and `print`. */
  lemma UndefinedReceiptNotSent()
    ensures Stringified(DeclineStep(Undefined)) == map["step" := Str("DECLINE"), "print" := Bool(true)]
  {
    var w := Stringified(DeclineStep(Undefined));
    assert "step" in w && "print" in w;
    assert w.Keys == {"step", "print"};
  }
}
