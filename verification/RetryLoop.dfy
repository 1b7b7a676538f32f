/** The bounded retry loop of the Dodo API client, run against any script of responses. */
module RetryLoop {
  import opened BillingTypes

  datatype Body = Empty | Json(text: string) | NotJson

  /** A `Retry-After` header: missing or empty, a number of seconds, or anything else. */
  datatype RetryAfter = Absent | Seconds(seconds: real) | Unreadable

  datatype Response =
    | Http(status: nat, body: Body, retryAfter: RetryAfter)
    | ConnectionLost          // a connect error or a timeout
    | OtherException

  datatype ApiError = Authentication | Validation | RateLimited | Server | OtherStatus | Network | NoResponse

  /** How a request ends: with a body, with one of the client's errors, or with an
      exception the client does not translate. */
  datatype Outcome = Answer(body: Option<string>) | Error(error: ApiError) | Untranslated

  const RETRYABLE: set<nat> := {429, 500, 502, 503, 504}
  const BACKOFF_SECONDS := 0.5

  predicate Succeeds(r: Response) {
    r.Http? && 200 <= r.status < 300
  }

  /** The status of an unsuccessful response, as an error of the client. */
  function ErrorOf(status: nat): ApiError {
    if status == 401 || status == 403 then Authentication
    else if status == 400 || status == 422 then Validation
    else if status == 429 then RateLimited
    else if status >= 500 then Server
    else OtherStatus
  }

  function Pow2(n: nat): nat {
    if n == 0 then 1 else 2 * Pow2(n - 1)
  }

  /** A response the loop sleeps on and sends again, attempts permitting. */
  predicate Retried(r: Response) {
    || r.ConnectionLost?
    || (r.Http? && r.status in RETRYABLE
        && (r.retryAfter.Absent? || (r.retryAfter.Seconds? && r.retryAfter.seconds >= 0.0)))
  }

  function Delay(r: Response, attempt: nat): real {
    if r.Http? && r.retryAfter.Seconds? then r.retryAfter.seconds else BACKOFF_SECONDS * (Pow2(attempt) as real)
  }

  /** What the response that ends the loop makes of the request. A `Retry-After` that is no
      duration raises while the delay is being computed, unless no attempt is left. */
  function Ending(r: Response, isLast: bool): Outcome {
    match r
    case OtherException => Untranslated
    case ConnectionLost => Error(Network)
    case Http(status, body, _) =>
      if Succeeds(r) then
        match body
        case Empty => Answer(None)
        case Json(text) => Answer(Some(text))
        case NotJson => Untranslated
      else if status in RETRYABLE && !isLast then Untranslated
      else Error(ErrorOf(status))
  }

  function Attempts(maxRetries: int, idempotent: bool): int {
    if idempotent then maxRetries else 1
  }

  /** What `attempts` tries against a script may look like from outside: everything before
      the last response was worth retrying, the last one was not or used up the budget, and
      it alone decides the outcome. */
  ghost predicate Exchange(script: nat -> Response, attempts: int, outcome: Outcome, sends: nat, sleeps: seq<real>) {
    if attempts <= 0 then outcome == Error(NoResponse) && sends == 0 && sleeps == []
    else
      && 1 <= sends <= attempts
      && (forall i: nat :: i < sends - 1 ==> Retried(script(i)))
      && (sends < attempts ==> !Retried(script(sends - 1)))
      && outcome == Ending(script(sends - 1), sends == attempts)
      && |sleeps| == sends - 1
      && forall i: nat :: i < |sleeps| ==> sleeps[i] == Delay(script(i), i)
  }

  /** `DodoAPIClient.request`. */
  method Request(script: nat -> Response, maxRetries: int, idempotent: bool)
    returns (outcome: Outcome, sends: nat, sleeps: seq<real>)
    ensures Exchange(script, Attempts(maxRetries, idempotent), outcome, sends, sleeps)
  {
    var attempts := if idempotent then maxRetries else 1;
    sends, sleeps := 0, [];
    for attempt := 0 to Max(attempts, 0)
      invariant sends == attempt == |sleeps|
      invariant forall i: nat :: i < attempt ==> Retried(script(i)) && sleeps[i] == Delay(script(i), i)
      invariant attempt == attempts ==> attempts <= 0
    {
      var response := script(sends);
      sends := sends + 1;
      match response
      case OtherException =>
        return Untranslated, sends, sleeps;
      case Http(status, body, retryAfter) =>
        if 200 <= status < 300 {
          match body
          case Empty => return Answer(None), sends, sleeps;
          case Json(text) => return Answer(Some(text)), sends, sleeps;
          case NotJson => return Untranslated, sends, sleeps;
        }
        if status !in RETRYABLE || attempt == attempts - 1 {
          return Error(ErrorOf(status)), sends, sleeps;
        }
        if retryAfter.Unreadable? || (retryAfter.Seconds? && retryAfter.seconds < 0.0) {
          return Untranslated, sends, sleeps;
        }
        var delay := if retryAfter.Seconds? then retryAfter.seconds else BACKOFF_SECONDS * (Pow2(attempt) as real);
        sleeps := sleeps + [delay];
      case ConnectionLost =>
        if attempt == attempts - 1 {
          return Error(Network), sends, sleeps;
        }
        sleeps := sleeps + [BACKOFF_SECONDS * (Pow2(attempt) as real)];
    }
    outcome := Error(NoResponse);
  }

  // ----- What follows for every script -----

  /** The script and the budget determine everything the caller can observe. */
  lemma ExchangeIsUnique(script: nat -> Response, attempts: int, o: Outcome, n: nat, s: seq<real>,
                         o': Outcome, n': nat, s': seq<real>)
    requires Exchange(script, attempts, o, n, s) && Exchange(script, attempts, o', n', s')
    ensures (o, n, s) == (o', n', s')
  {
    if attempts > 0 {
      var last: nat, last': nat := n - 1, n' - 1;
      assert last < last' ==> Retried(script(last));
      assert last' < last ==> Retried(script(last'));
      assert s == s';
    }
  }

  /** The request ends where a response not worth retrying, or the last of the budget, comes
      first; the later responses of the script are never asked for. */
  lemma FirstDecisiveResponseDecides(script: nat -> Response, attempts: int, k: nat, o: Outcome, n: nat, s: seq<real>)
    requires k < attempts && (k == attempts - 1 || !Retried(script(k)))
    requires forall i: nat :: i < k ==> Retried(script(i))
    requires Exchange(script, attempts, o, n, s)
    ensures n == k + 1 && o == Ending(script(k), n == attempts)
  {
    var last: nat := n - 1;
    assert last < k ==> Retried(script(last));
    assert k < last ==> Retried(script(k));
  }

  /** A request that must not be repeated is sent exactly once, whatever comes back. */
  lemma NonIdempotentIsSentOnce(script: nat -> Response, maxRetries: int, o: Outcome, n: nat, s: seq<real>)
    requires Exchange(script, Attempts(maxRetries, false), o, n, s)
    ensures n == 1 && s == [] && o == Ending(script(0), true)
  {
  }

  /** The caller gets a body exactly when a readable success comes within the budget and
      only retried responses come before it. */
  lemma AnswersExactly(script: nat -> Response, attempts: int, o: Outcome, n: nat, s: seq<real>)
    requires Exchange(script, attempts, o, n, s)
    ensures o.Answer? <==>
            exists k: nat :: && k < attempts && Succeeds(script(k)) && !script(k).body.NotJson?
                             && forall i: nat :: i < k ==> Retried(script(i))
  {
    if o.Answer? {
      assert Succeeds(script(n - 1)) && !script(n - 1).body.NotJson?;
    }
    if k: nat :| k < attempts && Succeeds(script(k)) && !script(k).body.NotJson?
                 && forall i: nat :: i < k ==> Retried(script(i)) {
      FirstDecisiveResponseDecides(script, attempts, k, o, n, s);
    }
  }

  /** Except for an unreadable `Retry-After`, every failing status becomes the client's own
      error, and a transient status is only reported when the budget is used up. */
  lemma TransientErrorsUseTheBudget(script: nat -> Response, attempts: int, o: Outcome, n: nat, s: seq<real>)
    requires Exchange(script, attempts, o, n, s) && n > 0
    requires script(n - 1).Http? && script(n - 1).status in RETRYABLE
    ensures o == (if n == attempts then Error(ErrorOf(script(n - 1).status)) else Untranslated)
    ensures n < attempts <==> o.Untranslated?
    ensures n < attempts ==> script(n - 1).retryAfter.Unreadable? || script(n - 1).retryAfter.seconds < 0.0
  {
  }

  /** A response that ends the request with an exception the client does not translate. */
  predicate IsUntranslatable(r: Response, isLast: bool) {
    || r.OtherException?
    || (Succeeds(r) && r.body.NotJson?)
    || (r.Http? && r.status in RETRYABLE && !isLast && !Retried(r))
  }

  /** Such an exception escapes exactly when such a response comes within the budget and only
      retried responses come before it. */
  lemma UntranslatedExactly(script: nat -> Response, attempts: int, o: Outcome, n: nat, s: seq<real>)
    requires Exchange(script, attempts, o, n, s)
    ensures o.Untranslated? <==>
            exists k: nat :: && k < attempts && IsUntranslatable(script(k), k == attempts - 1)
                             && forall i: nat :: i < k ==> Retried(script(i))
  {
    if o.Untranslated? {
      assert IsUntranslatable(script(n - 1), n - 1 == attempts - 1);
    }
    if k: nat :| k < attempts && IsUntranslatable(script(k), k == attempts - 1)
                 && forall i: nat :: i < k ==> Retried(script(i)) {
      FirstDecisiveResponseDecides(script, attempts, k, o, n, s);
    }
  }

  /** A response after which the client waits and sends again: no connection, or one of five
      statuses whose `Retry-After` is missing or a duration. */
  predicate IsTransient(r: Response) {
    match r
    case ConnectionLost => true
    case OtherException => false
    case Http(status, _, header) =>
      && (status == 429 || status == 500 || status == 502 || status == 503 || status == 504)
      && (header == Absent || (header.Seconds? && header.seconds >= 0.0))
  }

  /** How many times a request is sent, and for how long it waits: it is sent again after
      response `k` exactly when that and all before it were transient and the budget, one for
      a request that is not idempotent, allows it; it then waits for the header's duration, or
      half a second, doubled with every send. */
  lemma SentAgainExactly(script: nat -> Response, maxRetries: int, idempotent: bool, o: Outcome, n: nat, s: seq<real>,
                         k: nat)
    requires Exchange(script, Attempts(maxRetries, idempotent), o, n, s) && n > 0
    ensures n > k + 1
            <==> k + 1 < (if idempotent then maxRetries else 1) && forall i: nat :: i <= k ==> IsTransient(script(i))
    ensures n == |s| + 1
    ensures k < |s| && script(k).Http? && script(k).retryAfter.Seconds? ==> s[k] == script(k).retryAfter.seconds
    ensures k < |s| && !(script(k).Http? && script(k).retryAfter.Seconds?) ==> s[k] == 0.5 * (Pow2(k) as real)
    ensures Pow2(0) == 1 && Pow2(k + 1) == 2 * Pow2(k)
  {
    var attempts := Attempts(maxRetries, idempotent);
    var last: nat := n - 1;
    assert forall i: nat :: Retried(script(i)) <==> IsTransient(script(i));
    if k + 1 < attempts && forall i: nat :: i <= k ==> IsTransient(script(i)) {
      assert last <= k ==> Retried(script(last));
    }
  }

  /** What the last response makes of the request, by its status. */
  lemma LastResponseDecides(script: nat -> Response, attempts: int, o: Outcome, n: nat, s: seq<real>)
    requires Exchange(script, attempts, o, n, s) && n > 0
    ensures match script(n - 1)
            case OtherException => o == Untranslated
            case ConnectionLost => o == Error(Network) && n == attempts
            case Http(status, body, _) =>
              if 200 <= status <= 299 then
                o == match body
                     case Empty => Answer(None)
                     case Json(text) => Answer(Some(text))
                     case NotJson => Untranslated
              else if n < attempts && status in {429, 500, 502, 503, 504} then o == Untranslated
              else
                && (o == Error(Authentication) <==> status in {401, 403})
                && (o == Error(Validation) <==> status in {400, 422})
                && (o == Error(RateLimited) <==> status == 429)
                && (o == Error(Server) <==> status >= 500)
                && (o == Error(OtherStatus) <==> status < 500 && status !in {400, 401, 403, 422, 429})
  {
    if script(n - 1).ConnectionLost? {
      assert n < attempts ==> !Retried(script(n - 1));
    }
  }

  function Total(sleeps: seq<real>): real {
    if sleeps == [] then 0.0 else Total(sleeps[..|sleeps| - 1]) + sleeps[|sleeps| - 1]
  }

  lemma {:induction false} BackoffSum(sleeps: seq<real>)
    requires forall i: nat :: i < |sleeps| ==> sleeps[i] == BACKOFF_SECONDS * (Pow2(i) as real)
    ensures Total(sleeps) == BACKOFF_SECONDS * ((Pow2(|sleeps|) - 1) as real)
  {
    if sleeps != [] {
      BackoffSum(sleeps[..|sleeps| - 1]);
    }
  }

  /** Without a `Retry-After`, the time slept between the first send and the last doubles
      with every send: half a second times 2 to the sends before the last, less one. */
  lemma TotalBackoff(script: nat -> Response, attempts: int, o: Outcome, n: nat, s: seq<real>)
    requires Exchange(script, attempts, o, n, s) && n >= 1
    requires forall i: nat :: i < n - 1 ==> script(i).Http? ==> script(i).retryAfter.Absent?
    ensures Total(s) == BACKOFF_SECONDS * ((Pow2(n - 1) - 1) as real)
  {
    forall i: nat | i < |s| ensures s[i] == BACKOFF_SECONDS * (Pow2(i) as real) {
      assert Retried(script(i));
    }
    BackoffSum(s);
  }
}
