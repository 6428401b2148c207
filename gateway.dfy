/**
 * PaymentHandler from main.go: the checks on the `pay` request, the
 * case-insensitive mapping of the requested outcome onto a sale status, and
 * the status code of the reply.
 */
module Gateway {
  import opened Wrappers

  // The possible sale statuses.
  const StatusAccepted := "ACCEPTED"
  const StatusCancelled := "CANCELLED"
  const StatusDeclined := "DECLINED"
  const StatusFailed := "FAILED"
  const StatusTimeout := "TIMEOUT"
  const StatusUnknown := "UNKNOWN"

  const Statuses: set<string> :=
    {StatusAccepted, StatusCancelled, StatusDeclined, StatusFailed, StatusTimeout, StatusUnknown}

  /** The request's form: every value given for each key, in order. */
  type Form = map<string, seq<string>>

  /** `r.Form.Get(key)`: the first value given for `key`, or "" when there is none. */
  function FormGet(form: Form, key: string): string {
    if key in form && |form[key]| > 0 then form[key][0] else ""
  }

  /**
   * What strconv.ParseFloat and the zero check make of an amount: an error,
   * zero, another finite number, or NaN or an infinity.
   */
  datatype FloatParse = Malformed | Zero | NonZero | NonFinite

  /**
   * unicode.ToUpper on the runes that matter for the status switch: ASCII
   * letters, and the two non-ASCII letters whose upper case is ASCII
   * (U+0131 and U+017F). Every other rune is left as it is.
   */
  function UpperRune(c: char): char {
    if 'a' <= c <= 'z' then (c as int - 32) as char
    else if c == '\U{0131}' then 'I'
    else if c == '\U{017F}' then 'S'
    else c
  }

  /** strings.ToUpper, rune by rune. */
  function ToUpper(s: string): string {
    seq(|s|, i requires 0 <= i < |s| => UpperRune(s[i]))
  }

  /** The switch on `strings.ToUpper(outcome)`: always one of the six statuses. */
  function StatusFor(outcome: string): (status: string)
    ensures status in Statuses
  {
    var upper := ToUpper(outcome);
    if upper == "ACCEPT" then StatusAccepted
    else if upper == "CANCEL" then StatusCancelled
    else if upper == "DECLINE" then StatusDeclined
    else if upper == "FAIL" then StatusFailed
    else if upper == "TIMEOUT" then StatusTimeout
    else StatusUnknown
  }

  /** `c` is a rune that upper-cases to the ASCII capital `u`. */
  predicate FoldsTo(c: char, u: char) {
    || c == u
    || c as int == u as int + 32
    || (u == 'I' && c == '\U{0131}')
    || (u == 'S' && c == '\U{017F}')
  }

  /** `s` spells `keyword` in any mix of cases. */
  predicate EqualFold(s: string, keyword: string) {
    |s| == |keyword| && forall i | 0 <= i < |s| :: FoldsTo(s[i], keyword[i])
  }

  predicate IsUpperAscii(keyword: string) {
    forall i | 0 <= i < |keyword| :: 'A' <= keyword[i] <= 'Z'
  }

  lemma UpperRuneFolds(c: char, u: char)
    requires 'A' <= u <= 'Z'
    ensures UpperRune(c) == u <==> FoldsTo(c, u)
  {
  }

  /** Upper-casing gives an upper-case ASCII keyword exactly when the text spells it in some mix of cases. */
  lemma UpperEqualFold(s: string, keyword: string)
    requires IsUpperAscii(keyword)
    ensures ToUpper(s) == keyword <==> EqualFold(s, keyword)
  {
    if |s| == |keyword| {
      forall i | 0 <= i < |s|
        ensures ToUpper(s)[i] == keyword[i] <==> FoldsTo(s[i], keyword[i])
      {
        UpperRuneFolds(s[i], keyword[i]);
      }
      if EqualFold(s, keyword) {
        assert ToUpper(s) == keyword;
      }
    }
  }

  /**
   * The outcome is matched without regard to case: ACCEPT, CANCEL, DECLINE,
   * FAIL and TIMEOUT, in any mix of cases, give ACCEPTED, CANCELLED,
   * DECLINED, FAILED and TIMEOUT, and every other outcome gives UNKNOWN.
   */
  lemma StatusForCases(outcome: string)
    ensures StatusFor(outcome) == StatusAccepted <==> EqualFold(outcome, "ACCEPT")
    ensures StatusFor(outcome) == StatusCancelled <==> EqualFold(outcome, "CANCEL")
    ensures StatusFor(outcome) == StatusDeclined <==> EqualFold(outcome, "DECLINE")
    ensures StatusFor(outcome) == StatusFailed <==> EqualFold(outcome, "FAIL")
    ensures StatusFor(outcome) == StatusTimeout <==> EqualFold(outcome, "TIMEOUT")
    ensures StatusFor(outcome) == StatusUnknown <==>
      !EqualFold(outcome, "ACCEPT") && !EqualFold(outcome, "CANCEL") && !EqualFold(outcome, "DECLINE")
      && !EqualFold(outcome, "FAIL") && !EqualFold(outcome, "TIMEOUT")
  {
    UpperEqualFold(outcome, "ACCEPT");
    UpperEqualFold(outcome, "CANCEL");
    UpperEqualFold(outcome, "DECLINE");
    UpperEqualFold(outcome, "FAIL");
    UpperEqualFold(outcome, "TIMEOUT");
  }

  /** The outcome the handler uses: the requested one, or ACCEPTED when none was given. */
  function EffectiveOutcome(outcome: string): string {
    if outcome == "" then StatusAccepted else outcome
  }

  /**
   * The default outcome is the status name ACCEPTED, not the outcome name
   * ACCEPT, so a request without an outcome is answered UNKNOWN.
   */
  lemma EmptyOutcomeIsUnknown()
    ensures StatusFor(EffectiveOutcome("")) == StatusUnknown
  {
    assert |ToUpper(StatusAccepted)| == 8;
  }

  /**
   * The reply: 400, 500 when the response cannot be marshalled to JSON (NaN
   * and the infinities cannot), or 201 with the register and the status.
   */
  datatype Reply = BadRequest | InternalError | Created(registerId: string, status: string) {
    function Code(): int {
      match this
      case BadRequest => 400
      case InternalError => 500
      case Created(_, _) => 201
    }
  }

  /** The reply PaymentHandler writes for `form`. */
  function Verdict(form: Form, parseFloat: string -> FloatParse): Reply {
    var amount, origin := FormGet(form, "amount"), FormGet(form, "origin");
    if amount == "" || origin == "" then BadRequest
    else match parseFloat(amount)
      case Malformed => BadRequest
      case Zero => BadRequest
      case NonFinite => InternalError
      case NonZero =>
        Created(FormGet(form, "register_id"), StatusFor(EffectiveOutcome(FormGet(form, "outcome"))))
  }

  /** PaymentHandler as the source writes it: guards that return early, and `outcome` reassigned. */
  method PaymentHandler(form: Form, parseFloat: string -> FloatParse) returns (reply: Reply)
    ensures reply == Verdict(form, parseFloat)
  {
    var amount := FormGet(form, "amount");
    var outcome := FormGet(form, "outcome");
    var origin := FormGet(form, "origin");
    var registerID := FormGet(form, "register_id");
    if amount == "" || origin == "" {
      return BadRequest;
    }
    if outcome == "" {
      outcome := StatusAccepted;
    }
    var amountFloat := parseFloat(amount);
    if amountFloat == Malformed {
      return BadRequest;
    }
    if amountFloat == Zero {
      return BadRequest;
    }
    var status := StatusFor(outcome);
    if amountFloat == NonFinite {
      return InternalError;
    }
    return Created(registerID, status);
  }

  /**
   * An empty amount or origin is rejected whatever else the request holds;
   * register_id and outcome never decide the status code, which depends only
   * on amount, origin and the amount's parse.
   */
  lemma RequiredParameters(form: Form, other: Form, parseFloat: string -> FloatParse)
    requires FormGet(form, "amount") == FormGet(other, "amount")
    requires FormGet(form, "origin") == FormGet(other, "origin")
    ensures FormGet(form, "amount") == "" || FormGet(form, "origin") == "" ==> Verdict(form, parseFloat) == BadRequest
    ensures Verdict(form, parseFloat).Code() == Verdict(other, parseFloat).Code()
  {
  }

  /**
   * 400 exactly for an empty amount or origin or an amount that does not
   * parse or is zero; 500 exactly for a present origin and an amount that is
   * NaN or infinite; 201 exactly for a present origin and a finite non-zero
   * amount, echoing register_id with the outcome's status. A request
   * without an outcome is answered UNKNOWN.
   */
  lemma VerdictCodes(form: Form, parseFloat: string -> FloatParse)
    ensures var amount := FormGet(form, "amount");
      Verdict(form, parseFloat) == BadRequest <==>
        amount == "" || FormGet(form, "origin") == "" || parseFloat(amount) == Malformed || parseFloat(amount) == Zero
    ensures var amount := FormGet(form, "amount");
      Verdict(form, parseFloat) == InternalError <==>
        amount != "" && FormGet(form, "origin") != "" && parseFloat(amount) == NonFinite
    ensures var amount := FormGet(form, "amount");
      Verdict(form, parseFloat).Created? <==>
        amount != "" && FormGet(form, "origin") != "" && parseFloat(amount) == NonZero
    ensures Verdict(form, parseFloat).Created? ==>
      && Verdict(form, parseFloat).registerId == FormGet(form, "register_id")
      && Verdict(form, parseFloat).status in Statuses
      && (FormGet(form, "outcome") == "" ==> Verdict(form, parseFloat).status == StatusUnknown)
      && (FormGet(form, "outcome") != "" ==> Verdict(form, parseFloat).status == StatusFor(FormGet(form, "outcome")))
  {
    EmptyOutcomeIsUnknown();
  }
}
