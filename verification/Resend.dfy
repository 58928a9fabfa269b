/** app/mailer/resend.py: the provider adapter and its bounded retry loop. */
module Resend {
  import opened Prelude
  import opened Mail

  const MAX_ATTEMPTS := 3
  const BASE_RETRY_DELAY := 0.25
  const MAX_RETRY_DELAY := 5.0

  /** A header value as `float()` reads it: Text does not parse, the last three are legal floats. */
  datatype Header = Absent | Text | Number(value: real) | NotANumber | Infinity | MinusInfinity

  datatype Response = Response(status: int, code: Option<string>, retryAfter: Header, rateLimitReset: Header)

  /** What one post meets: an answer, a transport error, another httpx error, or something else. */
  datatype PostResult =
    | Answered(response: Response)
    | TransportError(name: string)
    | HttpError(name: string)
    | OtherException

  datatype IdempotencyKey = Given(key: Key) | Generated(uuid: nat)

  /** Headers and JSON of one post; a missing reply address is left out of the payload. */
  datatype Post = Post(key: IdempotencyKey, to: string, subject: string, text: Body, html: Body,
                       replyTo: Option<string>)

  datatype SendResult =
    | Delivered
    | DeliveryError(retryable: bool, errorCode: Option<string>, statusCode: Option<int>)
    | Propagated

  predicate IsSuccess(r: Response) { 200 <= r.status <= 299 }

  predicate IsRetryableResponse(r: Response) {
    if r.status in {500, 502, 503, 504} then true
    else if r.status == 409 then r.code in {Some("concurrent_idempotent_requests"), Some("resource_locked")}
    else if r.status == 429 then r.code == Some("rate_limit_exceeded")
    else false
  }

  function Min(a: real, b: real): real { if b < a then b else a }
  function Max(a: real, b: real): real { if b > a then b else a }

  function PowerOfTwo(n: nat): real { if n == 0 then 1.0 else 2.0 * PowerOfTwo(n - 1) }

  /** `min(5, max(0, float(value)))`; Python's max keeps 0.0 against nan. */
  function Honoured(h: Header): Option<real> {
    match h
    case Absent => None
    case Text => None
    case Number(v) => Some(Min(MAX_RETRY_DELAY, Max(0.0, v)))
    case NotANumber => Some(0.0)
    case Infinity => Some(MAX_RETRY_DELAY)
    case MinusInfinity => Some(0.0)
  }

  function Backoff(attempt: nat, jitter: real): real {
    var base := BASE_RETRY_DELAY * PowerOfTwo(attempt);
    Min(MAX_RETRY_DELAY, base + jitter * base)
  }

  function RetryDelay(attempt: nat, response: Option<Response>, jitter: real): real {
    if response.Some? && response.value.status == 429 && Honoured(response.value.retryAfter).Some? then
      Honoured(response.value.retryAfter).value
    else if response.Some? && response.value.status == 429 && Honoured(response.value.rateLimitReset).Some? then
      Honoured(response.value.rateLimitReset).value
    else Backoff(attempt, jitter)
  }

  /** Results after which another post may help. */
  predicate Transient(p: PostResult) {
    p.TransportError? || (p.Answered? && !IsSuccess(p.response) && IsRetryableResponse(p.response))
  }

  predicate Arrived(p: PostResult) { p.Answered? && IsSuccess(p.response) }

  function ResponseOf(p: PostResult): Option<Response> {
    if p.Answered? then Some(p.response) else None
  }

  /** The refusals worth another try, status by status: server errors, two conflicts, one rate limit. */
  predicate Temporary(status: int, code: Option<string>) {
    || status == 500 || status == 502 || status == 503 || status == 504
    || (status == 409 && (code == Some("concurrent_idempotent_requests") || code == Some("resource_locked")))
    || (status == 429 && code == Some("rate_limit_exceeded"))
  }

  /** Another post may follow this one. */
  predicate WorthAnother(p: PostResult) {
    p.TransportError? || (p.Answered? && Temporary(p.response.status, p.response.code))
  }

  predicate RateLimited(p: PostResult) { p.Answered? && p.response.status == 429 }

  /** What the caller of send is told about the last post. */
  function Verdict(p: PostResult): SendResult {
    match p
    case Answered(r) =>
      if IsSuccess(r) then Delivered else DeliveryError(IsRetryableResponse(r), r.code, Some(r.status))
    case TransportError(name) => DeliveryError(true, Some(name), None)
    case HttpError(name) => DeliveryError(true, Some(name), None)
    case OtherException => Propagated
  }

  function Total(sleeps: seq<real>): real
    decreases |sleeps|
  {
    if sleeps == [] then 0.0 else Total(sleeps[..|sleeps| - 1]) + sleeps[|sleeps| - 1]
  }

  predicate FairJitter(jitter: seq<real>) {
    |jitter| >= MAX_ATTEMPTS && forall i | 0 <= i < |jitter| :: 0.0 <= jitter[i] < 1.0
  }

  lemma DelayInBounds(attempt: nat, response: Option<Response>, jitter: real)
    requires 0.0 <= jitter < 1.0
    ensures 0.0 <= RetryDelay(attempt, response, jitter) <= MAX_RETRY_DELAY
  {
    PowerIsPositive(attempt);
    var base := BASE_RETRY_DELAY * PowerOfTwo(attempt);
    assert jitter * base >= 0.0;
  }

  lemma {:induction false} PowerIsPositive(n: nat)
    ensures PowerOfTwo(n) >= 1.0
  {
    if n > 0 { PowerIsPositive(n - 1); }
  }

  /** Without a rate limit the two possible waits stay under half a second and one second. */
  lemma BackoffInBounds(attempt: nat, response: Option<Response>, jitter: real)
    requires 0.0 <= jitter < 1.0 && attempt <= 1 && (response.Some? ==> response.value.status != 429)
    ensures RetryDelay(attempt, response, jitter) == (if attempt == 0 then 0.25 else 0.5) * (1.0 + jitter)
    ensures RetryDelay(attempt, response, jitter) < (if attempt == 0 then 0.5 else 1.0)
  {
  }

  /** What a rate-limit header asks for, once held between nothing and five seconds. */
  predicate Asks(h: Header, delay: real) {
    match h
    case Number(v) => delay == (if v < 0.0 then 0.0 else if v > 5.0 then 5.0 else v)
    case Infinity => delay == 5.0
    case NotANumber => delay == 0.0
    case MinusInfinity => delay == 0.0
    case _ => false
  }

  predicate NoNumber(h: Header) { h.Absent? || h.Text? }

  /**
   * Retry-After counts when it is a number; a date falls through to the reset header, and that
   * to the backoff of an answer without headers.
   */
  lemma OnlyNumericRetryAfter(attempt: nat, r: Response, jitter: real)
    requires r.status == 429
    ensures !NoNumber(r.retryAfter) ==> Asks(r.retryAfter, RetryDelay(attempt, Some(r), jitter))
    ensures NoNumber(r.retryAfter) && !NoNumber(r.rateLimitReset) ==>
              Asks(r.rateLimitReset, RetryDelay(attempt, Some(r), jitter))
    ensures NoNumber(r.retryAfter) && NoNumber(r.rateLimitReset) ==>
              RetryDelay(attempt, Some(r), jitter) == RetryDelay(attempt, None, jitter)
  {
  }

  /**
   * The loop of _send_with_retry. `network[k]` is what the k-th post would meet
   * and `jitter[k]` what the k-th draw would give.
   */
  method SendWithRetry(request: Post, network: seq<PostResult>, jitter: seq<real>)
    returns (last: PostResult, posts: seq<Post>, sleeps: seq<real>)
    requires |network| >= MAX_ATTEMPTS && FairJitter(jitter)
    ensures 1 <= |posts| <= MAX_ATTEMPTS && forall k | 0 <= k < |posts| :: posts[k] == request
    ensures forall k | 0 <= k < |posts| - 1 :: Transient(network[k])
    ensures last == network[|posts| - 1] && (Transient(last) ==> |posts| == MAX_ATTEMPTS)
    ensures Arrived(last) <==> exists k :: 0 <= k < |posts| && Arrived(network[k])
    ensures |sleeps| == |posts| - 1 && forall k | 0 <= k < |sleeps| ::
              sleeps[k] == RetryDelay(k, ResponseOf(network[k]), jitter[k]) && 0.0 <= sleeps[k] <= MAX_RETRY_DELAY
    ensures |posts| <= 3 && (forall k | 0 <= k < |sleeps| :: sleeps[k] <= 5.0)
    ensures forall k | 0 <= k < |posts| :: k + 1 < |posts| <==> k < 2 && WorthAnother(network[k])
    ensures Total(sleeps) <= 10.0
    ensures (forall k | 0 <= k < |posts| :: !RateLimited(network[k])) ==> Total(sleeps) < 1.5
  {
    posts, sleeps := [], [];
    var attempt := 0;
    last := network[0];
    while attempt < MAX_ATTEMPTS
      invariant 0 <= attempt < MAX_ATTEMPTS
      invariant |posts| == |sleeps| == attempt && forall k | 0 <= k < attempt :: posts[k] == request
      invariant forall k | 0 <= k < attempt :: Transient(network[k]) && !Arrived(network[k])
      invariant forall k | 0 <= k < attempt ::
                  sleeps[k] == RetryDelay(k, ResponseOf(network[k]), jitter[k]) && 0.0 <= sleeps[k] <= MAX_RETRY_DELAY
      invariant 0.0 <= Total(sleeps) <= MAX_RETRY_DELAY * (attempt as real)
      invariant (forall k | 0 <= k < attempt :: !RateLimited(network[k])) ==>
                  Total(sleeps) <= (if attempt == 0 then 0.0 else if attempt == 1 then 0.5 else 1.5)
                  && (attempt > 0 ==> Total(sleeps) < (if attempt == 1 then 0.5 else 1.5))
    {
      last := network[attempt];
      posts := posts + [request];
      var response: Option<Response> := None;
      match last {
        case TransportError(_) =>
          if attempt == MAX_ATTEMPTS - 1 { return; }
        case HttpError(_) => return;
        case OtherException => return;
        case Answered(r) =>
          response := Some(r);
          if IsSuccess(r) { return; }
          if !IsRetryableResponse(r) || attempt == MAX_ATTEMPTS - 1 { return; }
      }
      var delay := RetryDelay(attempt, response, jitter[attempt]);
      DelayInBounds(attempt, response, jitter[attempt]);
      if !RateLimited(last) {
        BackoffInBounds(attempt, response, jitter[attempt]);
      }
      assert (sleeps + [delay])[..|sleeps|] == sleeps;
      sleeps := sleeps + [delay];
      attempt := attempt + 1;
    }
  }

  /** send: one key for all posts, and an error whose `retryable` classifies the last post. */
  method Send(apiKey: string, message: EmailMessage, uuid: nat, network: seq<PostResult>, jitter: seq<real>)
    returns (r: SendResult, posts: seq<Post>, sleeps: seq<real>)
    requires |network| >= MAX_ATTEMPTS && FairJitter(jitter)
    ensures |posts| <= 3 && (posts == [] <==> apiKey == "")
    ensures posts == [] ==> r == DeliveryError(false, Some("missing_api_key"), None) && sleeps == []
    ensures posts != [] ==> r == Verdict(network[|posts| - 1])
    ensures forall k | 0 <= k < |posts| ::
              && posts[k] == posts[0] && posts[k].to == message.to && posts[k].text == message.text
              && posts[k].html == message.html && posts[k].subject == message.subject
              && posts[k].replyTo == message.replyTo
              && posts[k].key == (if message.key.Some? then Given(message.key.value) else Generated(uuid))
    ensures r.Delivered? <==> exists k :: 0 <= k < |posts| && Arrived(network[k])
    ensures r.DeliveryError? && posts != [] ==>
              (r.retryable <==> Transient(network[|posts| - 1]) || network[|posts| - 1].HttpError?)
    ensures forall k | 0 <= k < |posts| :: k + 1 < |posts| <==> k < 2 && WorthAnother(network[k])
    ensures posts != [] ==>
              match network[|posts| - 1]
              case Answered(a) =>
                if 200 <= a.status < 300 then r == Delivered
                else r == DeliveryError(Temporary(a.status, a.code), a.code, Some(a.status))
              case TransportError(name) => r == DeliveryError(true, Some(name), None)
              case HttpError(name) => r == DeliveryError(true, Some(name), None)
              case OtherException => r == Propagated
    ensures Total(sleeps) <= 10.0
  {
    if apiKey == "" {
      return DeliveryError(false, Some("missing_api_key"), None), [], [];
    }
    var key := if message.key.Some? then Given(message.key.value) else Generated(uuid);
    var request := Post(key, message.to, message.subject, message.text, message.html, message.replyTo);
    var last;
    last, posts, sleeps := SendWithRetry(request, network, jitter);
    match last {
      case Answered(response) =>
        if IsSuccess(response) {
          r := Delivered;
        } else {
          r := DeliveryError(IsRetryableResponse(response), response.code, Some(response.status));
        }
      case TransportError(name) => r := DeliveryError(true, Some(name), None);
      case HttpError(name) => r := DeliveryError(true, Some(name), None);
      case OtherException => r := Propagated;
    }
  }
}
