/**
 * The API status page: one health check (its state updates and the measured
 * response time), the auto-refresh switch, and the pure threshold functions
 * that turn the state into badge colours and texts.
 *
 * Clocks are parameters: `startTime`, `endTime` and `now` are millisecond
 * timestamps read by the caller, and the ISO and locale renderings of dates
 * are given as text. The 30-second refresh timer is not modelled; only the
 * switch that enables it is.
 */
module HealthCheck {
  import opened Common
  import Api

  /** The fields of the health payload the page displays. */
  datatype HealthPayload = HealthPayload(status: Option<string>, version: Option<string>)

  /** `{ ...data, responseTime, timestamp }` */
  datatype HealthData = HealthData(payload: HealthPayload, responseTime: int, timestamp: string)

  /** The Bootstrap variants the badges use. */
  datatype Variant = Success | Warning | Danger | Secondary

  const NeverText: string := "Nunca"

  /** `getStatusColor`: an error wins over data; neither means still checking. */
  function StatusColor(error: Option<Api.ApiError>, healthData: Option<HealthData>): (c: Variant)
    ensures c == Danger <==> error.Some?
    ensures c == Success <==> error.None? && healthData.Some?
    ensures c == Secondary <==> error.None? && healthData.None?
  {
    if error.Some? then Danger
    else if healthData.Some? then Success
    else Secondary
  }

  /** `getStatusText`, with the same precedence as the colour. */
  function StatusText(error: Option<Api.ApiError>, healthData: Option<HealthData>): (t: string)
    ensures t == "Offline" <==> error.Some?
    ensures t == "Online" <==> error.None? && healthData.Some?
    ensures t == "Verificando..." <==> error.None? && healthData.None?
  {
    if error.Some? then "Offline"
    else if healthData.Some? then "Online"
    else "Verificando..."
  }

  /** The main badge: a spinner text while loading, the status text otherwise. */
  function BadgeText(loading: bool, error: Option<Api.ApiError>, healthData: Option<HealthData>): (t: string)
    ensures loading ==> t == "Verificando..."
    ensures !loading ==> t == StatusText(error, healthData)
  {
    if loading then "Verificando..." else StatusText(error, healthData)
  }

  /** `getStatusColor` and `getStatusText` agree in all three cases. */
  lemma ColorAgreesWithText(error: Option<Api.ApiError>, healthData: Option<HealthData>)
    ensures StatusColor(error, healthData) == Danger <==> StatusText(error, healthData) == "Offline"
    ensures StatusColor(error, healthData) == Success <==> StatusText(error, healthData) == "Online"
    ensures StatusColor(error, healthData) == Secondary <==> StatusText(error, healthData) == "Verificando..."
  {
  }

  /**
   * The main badge's text matches its colour once loading is over. During a
   * refresh after a good check the badge stays green and reads "Verificando...".
   */
  lemma BadgeMatchesColorWhenIdle(loading: bool, error: Option<Api.ApiError>, healthData: Option<HealthData>)
    ensures !loading ==>
              (StatusColor(error, healthData) == Danger <==> BadgeText(loading, error, healthData) == "Offline")
              && (StatusColor(error, healthData) == Success <==> BadgeText(loading, error, healthData) == "Online")
    ensures loading && error.None? && healthData.Some? ==>
              StatusColor(error, healthData) == Success && BadgeText(loading, error, healthData) == "Verificando..."
  {
  }

  /** `getResponseTimeColor(time)`: fast below 200 ms, slow from 500 ms. */
  function ResponseTimeColor(time: int): (c: Variant)
    ensures c == Success <==> time < 200
    ensures c == Warning <==> 200 <= time < 500
    ensures c == Danger <==> time >= 500
  {
    if time < 200 then Success
    else if time < 500 then Warning
    else Danger
  }

  function Severity(v: Variant): nat {
    match v
    case Success => 0
    case Warning => 1
    case Danger => 2
    case Secondary => 0
  }

  /** A slower response never gets a milder colour. */
  lemma ResponseTimeColorMonotone(t1: int, t2: int)
    requires t1 <= t2
    ensures Severity(ResponseTimeColor(t1)) <= Severity(ResponseTimeColor(t2))
  {
  }

  /** `Math.floor((now - date) / 1000)`: whole seconds elapsed, rounded down. */
  function ElapsedSeconds(date: int, now: int): (d: int)
    ensures 1000 * d <= now - date < 1000 * (d + 1)
  {
    (now - date) / 1000
  }

  /**
   * `formatLastCheck`: "Nunca" without a check, then seconds under a minute,
   * whole minutes under an hour, and the locale rendering (given) beyond.
   */
  function FormatLastCheck(lastCheck: Option<int>, now: int, localeText: string): (s: string)
    ensures lastCheck.None? ==> s == NeverText
    ensures lastCheck.Some? && ElapsedSeconds(lastCheck.value, now) < 60 ==>
              s == IntToString(ElapsedSeconds(lastCheck.value, now)) + " segundos atrás"
    ensures lastCheck.Some? && 60 <= ElapsedSeconds(lastCheck.value, now) < 3600 ==>
              s == IntToString(ElapsedSeconds(lastCheck.value, now) / 60) + " minutos atrás"
    ensures lastCheck.Some? && ElapsedSeconds(lastCheck.value, now) >= 3600 ==> s == localeText
  {
    match lastCheck
    case None => NeverText
    case Some(date) =>
      var diff := ElapsedSeconds(date, now);
      if diff < 60 then IntToString(diff) + " segundos atrás"
      else if diff < 3600 then IntToString(diff / 60) + " minutos atrás"
      else localeText
  }

  /**
   * In the minutes range the number shown is between 1 and 59 and is the
   * elapsed time rounded down to whole minutes.
   */
  lemma MinutesShownAreWholeMinutes(date: int, now: int, localeText: string)
    requires 60 <= ElapsedSeconds(date, now) < 3600
    ensures var d := ElapsedSeconds(date, now);
            var m := d / 60;
            FormatLastCheck(Some(date), now, localeText) == IntToString(m) + " minutos atrás"
            && 1 <= m <= 59 && 60 * m <= d < 60 * (m + 1)
  {
  }

  class Page {
    var healthData: Option<HealthData>
    var loading: bool
    var error: Option<Api.ApiError>
    var lastCheck: Option<int>
    var autoRefresh: bool

    /** The initial state of every `useState`. */
    constructor ()
      ensures healthData.None? && loading && error.None? && lastCheck.None? && autoRefresh
    {
      healthData := None;
      loading := true;
      error := None;
      lastCheck := None;
      autoRefresh := true;
    }

    /** `verificarHealth` up to the call: loading, no error, and the health request. */
    method BeginVerificar() returns (op: Api.Operation)
      modifies this`loading, this`error
      ensures loading && error.None?
      ensures op == Api.VerificarHealth
    {
      loading := true;
      error := None;
      op := Api.VerificarHealth;
    }

    /**
     * `verificarHealth` after the call, which started at `startTime` and
     * settled at `endTime`: the data is stored with the elapsed time, or the
     * error is stored and the data dropped; the check time is recorded and
     * loading ends either way.
     */
    method EndVerificar(outcome: Result<HealthPayload, Api.ApiError>, startTime: int, endTime: int,
                        isoTimestamp: string, now: int)
      modifies this`healthData, this`error, this`lastCheck, this`loading
      ensures !loading && lastCheck == Some(now)
      ensures outcome.Ok? ==>
                healthData == Some(HealthData(outcome.value, endTime - startTime, isoTimestamp))
                && error == old(error)
      ensures outcome.Err? ==> healthData.None? && error == Some(outcome.error)
    {
      match outcome {
        case Ok(data) =>
          var responseTime := endTime - startTime;
          healthData := Some(HealthData(data, responseTime, isoTimestamp));
          lastCheck := Some(now);
        case Err(err) =>
          error := Some(err);
          healthData := None;
          lastCheck := Some(now);
      }
      loading := false;
    }

    /** `verificarHealth` as one step (on mount, on refresh and on each timer tick). */
    method VerificarHealth(outcome: Result<HealthPayload, Api.ApiError>, startTime: int, endTime: int,
                           isoTimestamp: string, now: int) returns (op: Api.Operation)
      modifies this`healthData, this`error, this`lastCheck, this`loading
      ensures op == Api.VerificarHealth && !loading && lastCheck == Some(now)
      ensures outcome.Ok? ==>
                healthData == Some(HealthData(outcome.value, endTime - startTime, isoTimestamp))
                && error.None?
                && StatusColor(error, healthData) == Success && StatusText(error, healthData) == "Online"
      ensures outcome.Err? ==>
                healthData.None? && error == Some(outcome.error)
                && StatusColor(error, healthData) == Danger && StatusText(error, healthData) == "Offline"
    {
      op := BeginVerificar();
      EndVerificar(outcome, startTime, endTime, isoTimestamp, now);
    }

    /** `toggleAutoRefresh`: the switch flips, so two toggles restore it. */
    method ToggleAutoRefresh()
      modifies this`autoRefresh
      ensures autoRefresh == !old(autoRefresh)
    {
      autoRefresh := !autoRefresh;
    }
  }
}
