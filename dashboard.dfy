/** The two helpers of the dashboard page, src/app/page.tsx: the class of the hours badge
    and the name shown in the customer column. */
module Dashboard {
  import opened Wrappers
  import opened Text
  import opened BigCommerce

  const DANGER: string := "hours-badge danger"
  const WARNING: string := "hours-badge warning"
  const OK: string := "hours-badge ok"
  const NO_NAME: string := "N/A"

  /** `getHoursBadgeClass(hours, threshold)`. */
  function HoursBadgeClass(hours: int, threshold: int): (c: string)
    ensures c == DANGER <==> hours >= 2 * threshold
    ensures c == WARNING <==> threshold <= hours < 2 * threshold
    ensures c == OK <==> hours < threshold && hours < 2 * threshold
    ensures c in {DANGER, WARNING, OK}
  {
    if hours >= threshold * 2 then DANGER
    else if hours >= threshold then WARNING
    else OK
  }

  /** The severity of a badge class: ok, then warning, then danger. */
  function Severity(c: string): nat {
    if c == DANGER then 2 else if c == WARNING then 1 else 0
  }

  /** An order open longer never gets a milder badge, for every threshold (a negative
      threshold leaves only ok and danger, still in that order). */
  lemma BadgeMonotone(h1: int, h2: int, threshold: int)
    requires h1 <= h2
    ensures Severity(HoursBadgeClass(h1, threshold)) <= Severity(HoursBadgeClass(h2, threshold))
  {
  }

  /** The name and surname joined by one space, `\`${first || ''} ${last || ''}\``; a
      missing billing address gives empty fields. */
  function FullName(billing: Option<BillingAddress>): string {
    if billing.None? then " " else billing.value.firstName + " " + billing.value.lastName
  }

  /** The company of the billing address, or the empty string when there is none. */
  function Company(billing: Option<BillingAddress>): string {
    if billing.None? then "" else billing.value.company
  }

  /** The customer column: `company || full.trim() || 'N/A'`. */
  function DisplayName(billing: Option<BillingAddress>): (name: string)
    ensures name != ""
    ensures Company(billing) != "" ==> name == Company(billing)
    ensures Company(billing) == "" && !IsBlank(FullName(billing)) ==>
      name == Trim(FullName(billing)) && Trimmed(name)
    ensures Company(billing) == "" && IsBlank(FullName(billing)) ==> name == NO_NAME
  {
    if Company(billing) != "" then Company(billing)
    else
      var full := Trim(FullName(billing));
      if full != "" then full else NO_NAME
  }

  /** A customer with a first name only, or a last name only, is shown by that name,
      without the separating space. */
  lemma DisplayNameFirstOnly(first: string, email: string)
    requires first != "" && !IsWhitespace(first[0]) && !IsWhitespace(first[|first| - 1])
    ensures DisplayName(Some(BillingAddress(first, "", "", email))) == first
  {
    var full := FullName(Some(BillingAddress(first, "", "", email)));
    assert full == first + " ";
    TrimOfPadded(first);
    assert Trim(full) == first;
  }

  lemma DisplayNameLastOnly(last: string, email: string)
    requires last != "" && !IsWhitespace(last[0]) && !IsWhitespace(last[|last| - 1])
    ensures DisplayName(Some(BillingAddress("", last, "", email))) == last
  {
    var full := FullName(Some(BillingAddress("", last, "", email)));
    assert full == " " + last;
    TrimOfPadded(last);
    assert Trim(full) == last;
  }

  /** Trimming a word with one space on either side gives the word back. */
  lemma TrimOfPadded(w: string)
    requires w != "" && !IsWhitespace(w[0]) && !IsWhitespace(w[|w| - 1])
    ensures Trim(w + " ") == w && Trim(" " + w) == w
  {
    var right := w + " ";
    assert right[..|right| - 1] == w;
    assert TrimEnd(w) == w;
    assert TrimStart(right) == right;
    var left := " " + w;
    assert left[1..] == w;
    assert TrimStart(w) == w;
  }
}
