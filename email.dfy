/** The overdue alert of src/lib/email.ts: whether to send, the subject line, the HTML
    body with one table row per order, and the reduction of the send to a boolean. */
module Email {
  import opened Text
  import opened BigCommerce

  /** What is handed to the mail provider. */
  datatype Message = Message(from: string, to: string, subject: string, html: string)

  /** `ALERT_EMAIL`, the raw `THRESHOLD_HOURS` text and `BIGCOMMERCE_STORE_HASH`, an unset
      variable being the empty string. The code tests the first two for falsiness, so
      unset and empty agree there. An unset store hash would render as `undefined` in the
      link, which this model does not show; the check route never gets that far without
      one, because the fetch fails first. */
  datatype EmailConfig = EmailConfig(alertEmail: string, thresholdSetting: string, storeHash: string)

  /** How `sendAlertEmail` ended: no destination configured, nothing to report, or one
      message handed to the provider, `sendCompleted` being false when the send call threw.
      Nothing is known of what the provider did with the message after the call returned. */
  datatype Dispatch =
    | NoRecipient
    | NoAlertNeeded
    | Attempted(message: Message, sendCompleted: bool)
  {
    /** The boolean the function resolves to. */
    function Outcome(): bool {
      match this
      case NoRecipient => false
      case NoAlertNeeded => true
      case Attempted(_, sendCompleted) => sendCompleted
    }
  }

  const SENDER: string := "GTSE Orders <onboarding@resend.dev>"
  const WARNING_SIGN: string := "\U{26A0}\U{FE0F}"
  const SUBJECT_TAIL: string := " Require Attention"

  /** The customer cell: the company when it is non-empty, otherwise first and last name
      joined by one space, untrimmed. */
  function CustomerCell(b: BillingAddress): (r: string)
    ensures b.company != "" ==> r == b.company
    ensures b.company == "" ==> |r| == |b.firstName| + 1 + |b.lastName| && r[|b.firstName|] == ' '
    ensures b.company == "" ==> r[..|b.firstName|] == b.firstName && r[|b.firstName| + 1..] == b.lastName
  {
    if b.company != "" then b.company else b.firstName + " " + b.lastName
  }

  /** A table cell; the inline styles of the source are not modelled. */
  function Cell(content: string): string {
    "<td>" + content + "</td>"
  }

  /** One order's row: id, customer, date (formatted by `localeDate`, the
      `toLocaleDateString('en-GB')` of the runtime), hours open and total. */
  function Row(o: OrderWithAge, localeDate: string -> string): string {
    "<tr>"
      + Cell("#" + IntToString(o.order.id))
      + Cell(CustomerCell(o.order.billing))
      + Cell(localeDate(o.order.dateCreated))
      + Cell(IntToString(o.hoursOpen) + "h")
      + Cell("\U{00A3}" + o.order.totalIncTax)
      + "</tr>"
  }

  /** `orders.map(row).join('')`. */
  function Rows(orders: seq<OrderWithAge>, localeDate: string -> string): string {
    if orders == [] then "" else Row(orders[0], localeDate) + Rows(orders[1..], localeDate)
  }

  /** The rows of a concatenation are the rows of each part in turn, so the table holds
      exactly one row per order, in input order. */
  lemma {:induction false} RowsAppend(a: seq<OrderWithAge>, b: seq<OrderWithAge>, localeDate: string -> string)
    ensures Rows(a + b, localeDate) == Rows(a, localeDate) + Rows(b, localeDate)
  {
    if a == [] {
      assert a + b == b;
    } else {
      assert (a + b)[0] == a[0];
      assert (a + b)[1..] == a[1..] + b;
      RowsAppend(a[1..], b, localeDate);
      var r, x, y := Row(a[0], localeDate), Rows(a[1..], localeDate), Rows(b, localeDate);
      assert Rows(a + b, localeDate) == r + (x + y);
      assert r + (x + y) == (r + x) + y;
    }
  }

  const SUBJECT_HEAD: string := WARNING_SIGN + " "

  /** What follows the count in the subject. */
  function SubjectTail(n: nat): string {
    " Unshipped Order" + (if n > 1 then "s" else "") + SUBJECT_TAIL
  }

  /** The subject `⚠️ N Unshipped Order{s} Require Attention`. */
  function Subject(n: nat): string {
    SUBJECT_HEAD + NatToString(n) + SubjectTail(n)
  }

  predicate EndsWith(s: string, suffix: string) {
    |suffix| <= |s| && s[|s| - |suffix|..] == suffix
  }

  /** The subject says "Orders" exactly when there is more than one order. */
  lemma SubjectPlural(n: nat)
    ensures EndsWith(Subject(n), "Orders" + SUBJECT_TAIL) <==> n > 1
  {
    var s := Subject(n);
    var suffix := "Orders" + SUBJECT_TAIL;
    if n > 1 {
      assert SubjectTail(n) == " Unshipped " + suffix;
      assert s == (SUBJECT_HEAD + NatToString(n) + " Unshipped ") + suffix;
    } else {
      assert s[|s| - |SUBJECT_TAIL| - 1] == 'r';
      assert suffix[|suffix| - |SUBJECT_TAIL| - 1] == 's';
    }
  }

  /** After the head the subject holds the count's digits, then a space. */
  lemma SubjectSplit(n: nat)
    ensures Subject(n)[|SUBJECT_HEAD|..] == NatToString(n) + SubjectTail(n)
    ensures SubjectTail(n) != [] && SubjectTail(n)[0] == ' '
  {
  }

  /** Subjects for different counts differ: the count can be read back from the subject. */
  lemma SubjectInjective(n: nat, m: nat)
    requires Subject(n) == Subject(m)
    ensures n == m
  {
    SubjectSplit(n);
    SubjectSplit(m);
    DigitsPrefixUnique(NatToString(n), SubjectTail(n), NatToString(m), SubjectTail(m));
    NatToStringInjective(n, m);
  }

  /** `order${n > 1 ? 's have' : ' has'}`. */
  function OrderPhrase(n: nat): (r: string)
    ensures r == "orders have" <==> n > 1
    ensures r == "order has" <==> n <= 1
  {
    "order" + (if n > 1 then "s have" else " has")
  }

  /** `THRESHOLD_HOURS || 24`: the setting's own text, or "24" when it is unset. */
  function ThresholdText(setting: string): (r: string)
    ensures setting != "" ==> r == setting
    ensures setting == "" ==> r == "24"
  {
    if setting == "" then "24" else setting
  }

  /** The sentence above the table. */
  function Sentence(n: nat, setting: string): string {
    NatToString(n) + " " + OrderPhrase(n) + " exceeded the " + ThresholdText(setting) + " hour shipping threshold."
  }

  const HEADING: string := "<div><h1>" + WARNING_SIGN + " Unshipped Orders Alert</h1>"
  const TABLE_HEAD: string :=
    "<table><thead><tr><th>Order</th><th>Customer</th><th>Date</th><th>Hours Open</th><th>Total</th></tr></thead><tbody>"
  const TABLE_END: string := "</tbody></table>"
  const LINK_HEAD: string := "<a href=\"https://store-"
  const LINK_TAIL: string := ".mybigcommerce.com/manage/orders\">View in BigCommerce</a>"
  const FOOTER: string := "<div>GTSE Unshipped Orders Monitor</div></div>"

  /** The message body: heading, sentence, table of rows and the link to the store's order
      page. Styling, the logo and layout whitespace are not modelled. */
  function Html(orders: seq<OrderWithAge>, config: EmailConfig, localeDate: string -> string): string {
    Layout(Sentence(|orders|, config.thresholdSetting), Rows(orders, localeDate), config.storeHash)
  }

  /** The fixed text of the body around its three variable parts. */
  function Layout(sentence: string, rows: string, storeHash: string): string {
    HEADING
      + "<p>" + sentence + "</p>"
      + TABLE_HEAD + rows + TABLE_END
      + LINK_HEAD + storeHash + LINK_TAIL
      + FOOTER
  }

  /** `x` appears in `h` starting at position `p`. */
  predicate ShowsAt(h: string, p: nat, x: string) {
    p + |x| <= |h| && forall i :: 0 <= i < |x| ==> h[p + i] == x[i]
  }

  /** Where the sentence, the rows and the store hash start in the laid-out body: each
      after all the text before it. */
  function SentenceAt(): nat { |HEADING| + |"<p>"| }

  function RowsAt(sentence: string): nat { SentenceAt() + |sentence| + |"</p>"| + |TABLE_HEAD| }

  function StoreAt(sentence: string, rows: string): nat { RowsAt(sentence) + |rows| + |TABLE_END| + |LINK_HEAD| }

  /** The body shows the sentence, then every row of the table, then the link to the
      configured store. */
  lemma HtmlShowsContent(orders: seq<OrderWithAge>, config: EmailConfig, localeDate: string -> string)
    ensures var h, sentence, rows := Html(orders, config, localeDate), Sentence(|orders|, config.thresholdSetting), Rows(orders, localeDate);
      && ShowsAt(h, SentenceAt(), sentence)
      && ShowsAt(h, RowsAt(sentence), rows)
      && ShowsAt(h, StoreAt(sentence, rows), config.storeHash)
  {
    var h, sentence, rows := Html(orders, config, localeDate), Sentence(|orders|, config.thresholdSetting), Rows(orders, localeDate);
    assert h == Layout(sentence, rows, config.storeHash);
    LayoutShowsParts(sentence, rows, config.storeHash);
  }

  /** Where the three variable parts sit in the laid-out body. */
  lemma LayoutShowsParts(sentence: string, rows: string, storeHash: string)
    ensures var h := Layout(sentence, rows, storeHash);
      && ShowsAt(h, SentenceAt(), sentence)
      && ShowsAt(h, RowsAt(sentence), rows)
      && ShowsAt(h, StoreAt(sentence, rows), storeHash)
  {
    ElevenParts(HEADING, "<p>", sentence, "</p>", TABLE_HEAD, rows, TABLE_END, LINK_HEAD, storeHash, LINK_TAIL, FOOTER,
                Layout(sentence, rows, storeHash), SentenceAt(), RowsAt(sentence), StoreAt(sentence, rows));
  }

  /** Where the third, sixth and ninth of eleven concatenated parts sit. */
  lemma ElevenParts(x0: string, x1: string, x2: string, x3: string, x4: string, x5: string,
                    x6: string, x7: string, x8: string, x9: string, x10: string,
                    h: string, p: nat, q: nat, l: nat)
    requires h == x0 + x1 + x2 + x3 + x4 + x5 + x6 + x7 + x8 + x9 + x10
    requires p == |x0| + |x1| && q == p + |x2| + |x3| + |x4| && l == q + |x5| + |x6| + |x7|
    ensures ShowsAt(h, p, x2) && ShowsAt(h, q, x5) && ShowsAt(h, l, x8)
  {
  }

  /** The alert: from the fixed sender to the configured address, with the subject for
      the number of orders and their table. */
  function AlertMessage(orders: seq<OrderWithAge>, config: EmailConfig, localeDate: string -> string): (m: Message)
    ensures m.from == SENDER && m.to == config.alertEmail && m.subject == Subject(|orders|)
  {
    Message(SENDER, config.alertEmail, Subject(|orders|), Html(orders, config, localeDate))
  }

  /** `sendAlertEmail(orders)`; `send` tells whether the provider's call completes (true)
      or throws (false). */
  function SendAlertEmail(orders: seq<OrderWithAge>, config: EmailConfig, localeDate: string -> string, send: Message -> bool)
    : (d: Dispatch)
    ensures config.alertEmail == "" ==> d == NoRecipient
    ensures config.alertEmail != "" && orders == [] ==> d == NoAlertNeeded
    ensures config.alertEmail != "" && orders != [] ==>
      && d.Attempted?
      && d.message == AlertMessage(orders, config, localeDate)
      && d.sendCompleted == send(d.message)
    ensures d.Outcome() <==> config.alertEmail != "" && (orders == [] || send(AlertMessage(orders, config, localeDate)))
  {
    if config.alertEmail == "" then NoRecipient
    else if |orders| == 0 then NoAlertNeeded
    else
      var message := AlertMessage(orders, config, localeDate);
      Attempted(message, send(message))
  }
}
