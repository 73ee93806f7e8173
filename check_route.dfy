/** The scheduled check, `GET /api/check` in src/app/api/check/route.ts: fetch the overdue
    orders, send one alert when there are any, and report what happened. */
module CheckRoute {
  import opened Wrappers
  import opened BigCommerce
  import opened Email

  /** Whether the `Authorization` header differs from `Bearer CRON_SECRET`. The route only
      logs a line in that case; nothing else depends on it. */
  predicate CronSecretMismatch(cronSecret: string, authHeader: Option<string>) {
    cronSecret != "" && authHeader != Some("Bearer " + cronSecret)
  }

  datatype CheckResponse =
    | NoOverdue(checked: string)
    | Alerted(overdueOrders: nat, emailSent: bool, checked: string)
    | CheckFailed(details: string)
  {
    function Status(): int {
      if CheckFailed? then 500 else 200
    }

    function Message(): string {
      match this
      case NoOverdue(_) => "No overdue orders"
      case Alerted(_, _, _) => ""
      case CheckFailed(_) => "Failed to check orders"
    }
  }

  /** The response, and the call made to `sendAlertEmail`: `None` when it was not called,
      `Some(d)` when it was called once and ended as `d`. */
  datatype CheckOutcome = CheckOutcome(response: CheckResponse, email: Option<Dispatch>)

  /** The inputs of one check: the request header, the configuration and what the store,
      the clock and the mail provider answer. `checked` is the time of the answer, as text. */
  datatype CheckInputs = CheckInputs(
    authHeader: Option<string>,
    cronSecret: string,
    store: StoreConfig,
    upstream: Upstream,
    emailConfig: EmailConfig,
    localeDate: string -> string,
    send: Message -> bool,
    checked: string)

  function Check(inputs: CheckInputs): (out: CheckOutcome)
    ensures var fetched := GetOrdersExceedingThreshold(inputs.store, inputs.upstream);
      && (fetched.Failure? ==>
            out.response == CheckFailed(fetched.error.Describe()) && out.email == None)
      && (fetched.Success? && fetched.value == [] ==>
            out.response == NoOverdue(inputs.checked) && out.email == None)
      && (fetched.Success? && fetched.value != [] ==>
            && out.email == Some(SendAlertEmail(fetched.value, inputs.emailConfig, inputs.localeDate, inputs.send))
            && out.response == Alerted(|fetched.value|, out.email.value.Outcome(), inputs.checked))
    ensures out.response.Status() == 500 <==> out.response.CheckFailed?
  {
    match GetOrdersExceedingThreshold(inputs.store, inputs.upstream)
    case Failure(e) => CheckOutcome(CheckFailed(e.Describe()), None)
    case Success(overdue) =>
      if |overdue| == 0 then CheckOutcome(NoOverdue(inputs.checked), None)
      else
        var dispatch := SendAlertEmail(overdue, inputs.emailConfig, inputs.localeDate, inputs.send);
        CheckOutcome(Alerted(|overdue|, dispatch.Outcome(), inputs.checked), Some(dispatch))
  }

  /** A missing or wrong bearer secret changes nothing: the outcome is that of any other
      header. */
  lemma AuthorizationNotEnforced(inputs: CheckInputs, header: Option<string>)
    ensures Check(inputs.(authHeader := header)) == Check(inputs)
  {
  }

  /** A request whose header does not carry the configured secret is answered exactly as
      one that carries it. */
  lemma MismatchedSecretServed(inputs: CheckInputs)
    requires CronSecretMismatch(inputs.cronSecret, inputs.authHeader)
    ensures Check(inputs) == Check(inputs.(authHeader := Some("Bearer " + inputs.cronSecret)))
  {
    AuthorizationNotEnforced(inputs, Some("Bearer " + inputs.cronSecret));
  }

  /** When alerting, `emailSent` is true exactly when a recipient is configured and the
      send call for the alert built from the overdue orders completed without throwing;
      it says nothing about delivery. */
  lemma EmailSentMeansSendCompleted(inputs: CheckInputs)
    requires Check(inputs).response.Alerted?
    ensures var overdue := GetOrdersExceedingThreshold(inputs.store, inputs.upstream).value;
      Check(inputs).response.emailSent <==>
        inputs.emailConfig.alertEmail != "" && inputs.send(AlertMessage(overdue, inputs.emailConfig, inputs.localeDate))
  {
    var overdue := GetOrdersExceedingThreshold(inputs.store, inputs.upstream).value;
    var d := SendAlertEmail(overdue, inputs.emailConfig, inputs.localeDate, inputs.send);
    assert Check(inputs).email == Some(d);
  }
}
