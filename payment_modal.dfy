/**
 * The cash-payment modal: the keypad that builds the amount text, the reading of that
 * text as an exact decimal, the comparison in whole cents, the change and its colour,
 * and the settlement record sent on submit.
 *
 * The total due arrives in integer cents, so `Math.round(totalAmount * 100)` is the total
 * itself. The amount paid is read exactly: `Decimal(units, scale)` stands for
 * units / 10^scale, and `Math.round(x)` is floor(x + 1/2).
 */
module PaymentModal {
  import opened Wrappers
  import opened Digits

  // ---------------------------------------------------------------------------
  // The keypad text
  // ---------------------------------------------------------------------------

  /** A key of the on-screen keypad: the ten digits and the decimal point. */
  predicate IsKey(c: char) {
    IsDigit(c) || c == '.'
  }

  /** What keypad text looks like: keypad characters only, at most one point, never a leading point. */
  predicate WellFormedAmount(s: string) {
    && (forall i :: 0 <= i < |s| ==> IsKey(s[i]))
    && (forall i, j :: 0 <= i < j < |s| && s[i] == '.' ==> s[j] != '.')
    && (s != [] ==> s[0] != '.')
  }

  /** `handleNumberClick`: a second point is ignored, a point on empty text gives "0.", any
    * other key is appended. Text only ever grows, and stays well formed. */
  function PressKey(s: string, key: char): (r: string)
    ensures |s| <= |r| <= |s| + 2 && r[..|s|] == s
    ensures WellFormedAmount(s) && IsKey(key) ==> WellFormedAmount(r)
  {
    if key == '.' && '.' in s then s
    else if key == '.' && s == [] then "0."
    else s + [key]
  }

  /** `handleDelete`'s text update: drops the last character; empty text stays empty. */
  function Backspace(s: string): (r: string)
    ensures s == [] ==> r == []
    ensures s != [] ==> r + [s[|s| - 1]] == s
    ensures WellFormedAmount(s) ==> WellFormedAmount(r)
  {
    if s == [] then [] else s[..|s| - 1]
  }

  /** Backspace undoes a key press, except the point typed on empty text, which left "0." behind. */
  lemma BackspaceUndoesKey(s: string, key: char)
    requires !(key == '.' && '.' in s)
    ensures Backspace(PressKey(s, key)) == if key == '.' && s == [] then "0" else s
  {
    if !(key == '.' && s == []) {
      assert (s + [key])[..|s|] == s;
    }
  }

  /** The three things the user can do to the text. */
  datatype KeypadEvent = Key(key: char) | Delete | Clear

  function Apply(s: string, e: KeypadEvent): string {
    match e
    case Key(k) => PressKey(s, k)
    case Delete => Backspace(s)
    case Clear => []
  }

  function Run(s: string, events: seq<KeypadEvent>): string
    decreases |events|
  {
    if events == [] then s else Run(Apply(s, events[0]), events[1..])
  }

  predicate KeypadOnly(events: seq<KeypadEvent>) {
    forall i :: 0 <= i < |events| && events[i].Key? ==> IsKey(events[i].key)
  }

  /** Whatever the user presses, the text stays keypad text. */
  lemma {:induction false} RunKeepsWellFormed(s: string, events: seq<KeypadEvent>)
    requires WellFormedAmount(s) && KeypadOnly(events)
    ensures WellFormedAmount(Run(s, events))
    decreases |events|
  {
    if events != [] {
      assert KeypadOnly(events[1..]) by {
        forall i | 0 <= i < |events[1..]| && events[1..][i].Key?
          ensures IsKey(events[1..][i].key)
        {
          assert events[1..][i] == events[i + 1];
        }
      }
      RunKeepsWellFormed(Apply(s, events[0]), events[1..]);
    }
  }

  /** The digit-entry example: "." gives "0.", a second "." does nothing, "5" gives "0.5",
    * backspace gives "0." again. */
  lemma KeypadExample()
    ensures Run([], [Key('.')]) == "0."
    ensures Run([], [Key('.'), Key('.')]) == "0."
    ensures Run([], [Key('.'), Key('.'), Key('5')]) == "0.5"
    ensures Run([], [Key('.'), Key('.'), Key('5'), Delete]) == "0."
  {
    assert '.' in "0." by { assert "0."[1] == '.'; }
    assert '.' !in "" && "0." + ['5'] == "0.5";
    assert "0.5"[..2] == "0.";
  }

  // ---------------------------------------------------------------------------
  // Reading the text: parseFloat on keypad text
  // ---------------------------------------------------------------------------

  /** units / 10^scale. */
  datatype Decimal = Decimal(units: nat, scale: nat)

  function Pow10(k: nat): (p: nat)
    ensures p >= 1
  {
    if k == 0 then 1 else 10 * Pow10(k - 1)
  }

  /** Left-to-right reading of digits and point: each digit shifts the units, and a digit
    * after the point also adds a decimal place. */
  function ReadDecimal(s: string): Decimal
    requires forall i :: 0 <= i < |s| ==> IsKey(s[i])
  {
    if s == [] then Decimal(0, 0)
    else
      var d, c := ReadDecimal(s[..|s| - 1]), s[|s| - 1];
      assert IsKey(c);
      if c == '.' then d
      else Decimal(10 * d.units + DigitValue(c), if '.' in s[..|s| - 1] then d.scale + 1 else d.scale)
  }

  /** `parseFloat(amountPaid)`: `None` is NaN, which keypad text gives only when empty. */
  function ParseAmount(s: string): (r: Option<Decimal>)
    requires WellFormedAmount(s)
    ensures r.None? <==> s == []
  {
    if s == [] then None else Some(ReadDecimal(s))
  }

  /** Reading agrees with positional notation: "a" is a, "a.b" is the digits of a and b over 10^|b|. */
  lemma {:induction false} ReadIntegerPart(a: string)
    requires AllDigits(a)
    ensures ReadDecimal(a) == Decimal(DigitsValue(a), 0)
  {
    if a != [] {
      var init := a[..|a| - 1];
      ReadIntegerPart(init);
    }
  }

  /** Digits, a point and digits are keypad characters. */
  lemma PointedIsKeys(a: string, b: string)
    requires AllDigits(a) && AllDigits(b)
    ensures forall i :: 0 <= i < |a + ['.'] + b| ==> IsKey((a + ['.'] + b)[i])
  {
    var s := a + ['.'] + b;
    forall i | 0 <= i < |s|
      ensures IsKey(s[i])
    {
      if i < |a| { assert s[i] == a[i]; } else if i > |a| { assert s[i] == b[i - |a| - 1]; }
    }
  }

  lemma {:induction false} ReadPositional(a: string, b: string)
    requires AllDigits(a) && AllDigits(b)
    ensures forall i :: 0 <= i < |a + ['.'] + b| ==> IsKey((a + ['.'] + b)[i])
    ensures ReadDecimal(a + ['.'] + b) == Decimal(DigitsValue(a + b), |b|)
  {
    var s := a + ['.'] + b;
    PointedIsKeys(a, b);
    if b == [] {
      assert s[..|s| - 1] == a && a + b == a;
      ReadIntegerPart(a);
    } else {
      var b' := b[..|b| - 1];
      ReadPositional(a, b');
      assert s[..|s| - 1] == a + ['.'] + b';
      assert '.' in s[..|s| - 1] by { assert (a + ['.'] + b')[|a|] == '.'; }
      assert (a + b)[..|a + b| - 1] == a + b';
    }
  }

  // ---------------------------------------------------------------------------
  // Whole cents
  // ---------------------------------------------------------------------------

  /** `Math.round(n / d)` for d > 0: the nearest integer, halves rounded up. */
  function RoundDiv(n: int, d: nat): (r: int)
    requires d > 0
    ensures 2 * d * r - d <= 2 * n < 2 * d * r + d
  {
    DivBounds(2 * n + d, 2 * d);
    (2 * n + d) / (2 * d)
  }

  lemma DivBounds(a: int, m: int)
    requires m > 0
    ensures m * (a / m) <= a < m * (a / m) + m
  {
  }

  /** The rounding is the only integer within half a unit (halves going up). */
  lemma RoundDivUnique(n: int, d: nat, r': int)
    requires d > 0
    requires 2 * d * r' - d <= 2 * n < 2 * d * r' + d
    ensures r' == RoundDiv(n, d)
  {
    var r := RoundDiv(n, d);
    if r' < r {
      MulMonotone(2 * d, r' + 1, r);
    } else if r' > r {
      MulMonotone(2 * d, r + 1, r');
    }
  }

  lemma MulMonotone(m: nat, x: int, y: int)
    requires x <= y
    ensures m * x <= m * y
  {
  }

  /** `Math.round(paid * 100)`. */
  function Cents(paid: Decimal): int {
    RoundDiv(100 * paid.units, Pow10(paid.scale))
  }

  /** `Math.round((paid - totalAmount) * 100)`, the change in cents. */
  function ChangeCents(paid: Decimal, totalCents: int): int {
    RoundDiv(100 * paid.units - totalCents * Pow10(paid.scale), Pow10(paid.scale))
  }

  /** The change is the paid cents less the due cents: subtracting a whole number of cents
    * commutes with rounding. */
  lemma ChangeIsCentsDifference(paid: Decimal, totalCents: int)
    ensures ChangeCents(paid, totalCents) == Cents(paid) - totalCents
  {
    var n, d := 100 * paid.units, Pow10(paid.scale);
    var r := Cents(paid) - totalCents;
    assert 2 * d * Cents(paid) - d <= 2 * n < 2 * d * Cents(paid) + d;
    assert 2 * d * r == 2 * d * Cents(paid) - 2 * d * totalCents;
    RoundDivUnique(n - totalCents * d, d, r);
  }

  /** With at most two decimal places the paid amount is a whole number of cents already. */
  lemma CentsExact(paid: Decimal)
    requires paid.scale <= 2
    ensures Cents(paid) == paid.units * Pow10(2 - paid.scale)
  {
    var d := Pow10(paid.scale);
    var c := paid.units * Pow10(2 - paid.scale);
    assert d * Pow10(2 - paid.scale) == 100;
    assert 2 * d * c == 2 * 100 * paid.units;
    RoundDivUnique(100 * paid.units, d, c);
  }

  // ---------------------------------------------------------------------------
  // Change colour and submission
  // ---------------------------------------------------------------------------

  datatype TextColor = Gray | Red | Green

  /** `getChangeTextColor`: gray with no text, red when the rounded change is negative, else green. */
  function ChangeTextColor(amountPaid: string, totalCents: int): (c: TextColor)
    requires WellFormedAmount(amountPaid)
    ensures c == Gray <==> amountPaid == []
    ensures c == Red <==> amountPaid != [] && Cents(ParseAmount(amountPaid).value) < totalCents
  {
    if amountPaid == [] then Gray
    else
      ChangeIsCentsDifference(ParseAmount(amountPaid).value, totalCents);
      if ChangeCents(ParseAmount(amountPaid).value, totalCents) < 0 then Red else Green
  }

  const InsufficientMessage := "Amount paid must be greater than or equal to total amount"
  const PaymentFailedMessage := "Payment failed"

  /** The JSON body posted to /payments. `None` stands for NaN (sent as null). */
  datatype PaymentRequest = PaymentRequest(
    orderId: string,
    tableId: string,
    totalAmount: int,
    amountPaid: Option<Decimal>,
    change: Option<int>,
    paymentMethod: string,
    createdAt: string,
    status: string)

  datatype Submission = Rejected(error: string) | Send(request: PaymentRequest)

  /** How the POST ended: an ok response, a response that is not ok, or a `fetch` that threw
    * with `message` (such as the browser's "Failed to fetch"). */
  datatype PostOutcome = Paid | NotOk | Threw(message: string)

  /** The check in `handleSubmit` and the body it builds. */
  function SubmitDecision(amountPaid: string, totalCents: int, orderId: string, tableId: string,
                          paymentMethod: string, now: string): (r: Submission)
    requires WellFormedAmount(amountPaid)
    ensures r.Rejected? <==> amountPaid != [] && Cents(ParseAmount(amountPaid).value) < totalCents
    ensures r.Rejected? ==> r.error == InsufficientMessage
    ensures r.Send? ==> r.request == PaymentRequest(
              orderId, tableId, totalCents, ParseAmount(amountPaid),
              if amountPaid == [] then None else Some(Cents(ParseAmount(amountPaid).value) - totalCents),
              paymentMethod, now, "success")
    ensures r.Send? && amountPaid != [] ==> r.request.change.value >= 0
  {
    var paid := ParseAmount(amountPaid);
    if paid.Some? && Cents(paid.value) < totalCents then Rejected(InsufficientMessage)
    else
      var change := if paid.Some? then
                      ChangeIsCentsDifference(paid.value, totalCents);
                      Some(ChangeCents(paid.value, totalCents))
                    else None;
      Send(PaymentRequest(orderId, tableId, totalCents, paid, change, paymentMethod, now, "success"))
  }

  /** For non-empty text the colour and the submit check agree: red exactly when submit refuses. */
  lemma RedIffRejected(amountPaid: string, totalCents: int, orderId: string, tableId: string,
                       paymentMethod: string, now: string)
    requires WellFormedAmount(amountPaid) && amountPaid != []
    ensures ChangeTextColor(amountPaid, totalCents) == Red
            <==> SubmitDecision(amountPaid, totalCents, orderId, tableId, paymentMethod, now).Rejected?
  {
  }

  /** Empty text is not refused: NaN compares false, so a request goes out with NaN amounts. */
  lemma EmptyAmountIsSent(totalCents: int, orderId: string, tableId: string, paymentMethod: string, now: string)
    ensures SubmitDecision([], totalCents, orderId, tableId, paymentMethod, now)
            == Send(PaymentRequest(orderId, tableId, totalCents, None, None, paymentMethod, now, "success"))
  {
  }

  /** 10.10 due, "10.1" typed: accepted with no change. */
  lemma ExactPaymentExample()
    ensures SubmitDecision("10.1", 1010, "o1", "T1", "cash", "t").Send?
    ensures SubmitDecision("10.1", 1010, "o1", "T1", "cash", "t").request.change == Some(0)
    ensures ChangeTextColor("10.1", 1010) == Green
  {
    ReadPositional("10", "1");
    assert "10" + ['.'] + "1" == "10.1";
    assert DigitsValue("101") == 101 by {
      assert "101"[..2] == "10" && "10"[..1] == "1" && "1"[..0] == "";
    }
    assert "10" + "1" == "101";
    CentsExact(Decimal(101, 1));
  }

  /** 9.99 due, "9.98" typed: refused. */
  lemma ShortPaymentExample()
    ensures SubmitDecision("9.98", 999, "o1", "T1", "cash", "t") == Rejected(InsufficientMessage)
  {
    ReadPositional("9", "98");
    assert "9" + ['.'] + "98" == "9.98";
    assert DigitsValue("998") == 998 by {
      assert "998"[..2] == "99" && "99"[..1] == "9" && "9"[..0] == "";
    }
    assert "9" + "98" == "998";
    CentsExact(Decimal(998, 2));
  }

  /** Items of 0.10 and 0.20 make 30 cents due; "0.3" typed is accepted. */
  lemma SumOfTenthsExample()
    ensures SubmitDecision("0.3", 10 + 20, "o1", "T1", "cash", "t").Send?
  {
    ReadPositional("0", "3");
    assert "0" + ['.'] + "3" == "0.3";
    assert DigitsValue("03") == 3 by {
      assert "03"[..1] == "0" && "0"[..0] == "";
    }
    assert "0" + "3" == "03";
    CentsExact(Decimal(3, 1));
  }

  // ---------------------------------------------------------------------------
  // The modal's state
  // ---------------------------------------------------------------------------

  /** The modal's state: the typed amount, the chosen method and the error line, for one
    * table's total, table id and representative order id. */
  class PaymentModal {
    var amountPaid: string
    var paymentMethod: string
    var error: string
    const totalAmount: int
    const tableId: string
    const orderId: string

    ghost predicate Valid()
      reads this
    {
      WellFormedAmount(amountPaid)
    }

    constructor (totalAmount: int, tableId: string, orderId: string)
      ensures Valid()
      ensures amountPaid == [] && paymentMethod == "cash" && error == []
      ensures this.totalAmount == totalAmount && this.tableId == tableId && this.orderId == orderId
    {
      this.totalAmount := totalAmount;
      this.tableId := tableId;
      this.orderId := orderId;
      amountPaid := [];
      paymentMethod := "cash";
      error := [];
    }

    /** `handleNumberClick`: the error line is left as it is. */
    method NumberClick(key: char)
      requires Valid() && IsKey(key)
      modifies this
      ensures Valid()
      ensures amountPaid == PressKey(old(amountPaid), key)
      ensures error == old(error) && paymentMethod == old(paymentMethod)
    {
      if key == '.' && '.' in amountPaid {
        return;
      }
      if key == '.' && amountPaid == [] {
        amountPaid := "0.";
        return;
      }
      amountPaid := amountPaid + [key];
    }

    /** `handleClear`: text and error both emptied. */
    method ClearAll()
      modifies this
      ensures Valid()
      ensures amountPaid == [] && error == [] && paymentMethod == old(paymentMethod)
    {
      amountPaid := [];
      error := [];
    }

    /** `handleDelete`: one trailing character dropped and the error cleared. */
    method DeleteLast()
      requires Valid()
      modifies this
      ensures Valid()
      ensures amountPaid == Backspace(old(amountPaid)) && error == []
      ensures paymentMethod == old(paymentMethod)
    {
      if amountPaid != [] {
        amountPaid := amountPaid[..|amountPaid| - 1];
      }
      error := [];
    }

    /** The single payment-method button. */
    method ChooseCash()
      modifies this
      ensures paymentMethod == "cash"
      ensures amountPaid == old(amountPaid) && error == old(error)
    {
      paymentMethod := "cash";
    }

    /** `handleSubmit`: refuse with the error line, or send the body; a response that is not
      * ok shows "Payment failed", and a thrown `fetch` shows its own message. The typed text is
      * kept either way. */
    method Submit(now: string, outcome: PostOutcome) returns (sent: Option<PaymentRequest>)
      requires Valid()
      modifies this
      ensures Valid()
      ensures amountPaid == old(amountPaid) && paymentMethod == old(paymentMethod)
      ensures match SubmitDecision(old(amountPaid), totalAmount, orderId, tableId, old(paymentMethod), now)
              case Rejected(e) => sent == None && error == e
              case Send(req) => sent == Some(req)
                                && error == match outcome
                                            case Paid => old(error)
                                            case NotOk => PaymentFailedMessage
                                            case Threw(m) => m
    {
      var paid := ParseAmount(amountPaid);
      if paid.Some? && Cents(paid.value) < totalAmount {
        error := InsufficientMessage;
        return None;
      }
      var change := if paid.Some? then Some(ChangeCents(paid.value, totalAmount)) else None;
      if paid.Some? {
        ChangeIsCentsDifference(paid.value, totalAmount);
      }
      sent := Some(PaymentRequest(orderId, tableId, totalAmount, paid, change, paymentMethod, now, "success"));
      match outcome
      case Paid =>
      case NotOk => error := PaymentFailedMessage;
      case Threw(m) => error := m;
    }
  }

}
