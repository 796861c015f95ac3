/** `app.integrations.callback`: the idempotency key and the retry loop of one delivery. */
module Callback {
  import opened Wrappers
  import opened Digests

  const CALLBACK_EVENT_TYPE: Bytes :=
    [76, 73, 86, 69, 80, 72, 79, 84, 79, 46, 68, 69, 67, 73, 83, 73, 79, 78, 46, 67, 82, 69, 65, 84, 69, 68]

  function EventId(consumerId: Bytes, externalId: Bytes): Bytes {
    Sha256Hex(consumerId + [COLON] + externalId + [COLON] + CALLBACK_EVENT_TYPE)
  }

  /**
   * Transactions of one consumer, or of consumers whose ids have no colon, never share the key under which their
   * deliveries are made idempotent.
   */
  lemma EventIdsDiffer(consumerA: Bytes, externalA: Bytes, consumerB: Bytes, externalB: Bytes)
    requires consumerA == consumerB || (COLON !in consumerA && COLON !in consumerB)
    requires EventId(consumerA, externalA) == EventId(consumerB, externalB)
    ensures consumerA == consumerB && externalA == externalB
  {
    Sha256Injective(consumerA + [COLON] + externalA + [COLON] + CALLBACK_EVENT_TYPE,
                    consumerB + [COLON] + externalB + [COLON] + CALLBACK_EVENT_TYPE);
    TaggedIdsDiffer(consumerA, externalA, consumerB, externalB, CALLBACK_EVENT_TYPE);
  }

  lemma TaggedIdsDiffer(c: Bytes, x: Bytes, d: Bytes, y: Bytes, tag: Bytes)
    requires c + [COLON] + x + [COLON] + tag == d + [COLON] + y + [COLON] + tag
    requires c == d || (COLON !in c && COLON !in d)
    ensures c == d && x == y
  {
    var u, v := x + ([COLON] + tag), y + ([COLON] + tag);
    assert c + [COLON] + x + [COLON] + tag == c + [COLON] + u;
    assert d + [COLON] + y + [COLON] + tag == d + [COLON] + v;
    SplitAtFirstColon(c, u, d, v);
    SameSuffix(x, y, [COLON] + tag);
  }

  lemma SplitAtFirstColon(c: Bytes, x: Bytes, d: Bytes, y: Bytes)
    requires c + [COLON] + x == d + [COLON] + y
    requires c == d || (COLON !in c && COLON !in d)
    ensures c == d && x == y
  {
    var a, b := c + [COLON] + x, d + [COLON] + y;
    assert a[|c|] == COLON && b[|d|] == COLON;
    assert |c| == |d|;
    assert a[..|c|] == c && b[..|d|] == d && a[|c| + 1..] == x && b[|d| + 1..] == y;
  }

  lemma SameSuffix(x: Bytes, y: Bytes, s: Bytes)
    requires x + s == y + s
    ensures x == y
  {
    assert |x| == |y|;
    assert (x + s)[..|x|] == x && (y + s)[..|y|] == y;
  }

  datatype Body = NonJson | Json(redirect: Option<string>)

  /** What one POST meets. */
  datatype Response = NetworkFailure | Http(status: int, body: Body)

  datatype Delivery = TransportError | TerminalError | Delivered(redirect: Option<string>)

  predicate Transient(r: Response) {
    r.NetworkFailure? || r.status == 429 || r.status >= 500
  }

  function Conclude(r: Response): Delivery
    requires !Transient(r)
  {
    if r.status < 200 || r.status >= 300 then TerminalError
    else if r.body.NonJson? then TerminalError
    else Delivered(r.body.redirect)
  }

  /** Posts made against `script`, one response each: up to the first that is not transient. */
  function Posts(script: seq<Response>): (n: nat)
    ensures n <= |script| && (script != [] ==> n >= 1)
    ensures forall i :: 0 <= i < n - 1 ==> Transient(script[i])
    ensures 0 < n < |script| ==> !Transient(script[n - 1])
  {
    if script == [] then 0
    else if Transient(script[0]) then 1 + Posts(script[1..])
    else 1
  }

  function Verdict(script: seq<Response>): Delivery
    requires script != []
  {
    var last := script[Posts(script) - 1];
    if Transient(last) then TransportError else Conclude(last)
  }

  /** The consumer took the post: any 2xx status with a JSON body. */
  predicate AcceptedBy(r: Response) {
    r.Http? && 200 <= r.status <= 299 && r.body.Json?
  }

  /** The last response met decides: taken, refused, or still failing after every retry. */
  lemma {:induction false} VerdictTable(script: seq<Response>)
    requires script != []
    ensures forall i :: 0 <= i < Posts(script) - 1 ==>
      script[i].NetworkFailure? || script[i].status == 429 || script[i].status >= 500
    ensures var last := script[Posts(script) - 1];
      && (Posts(script) < |script| ==> last.Http? && last.status != 429 && last.status < 500)
      && (Verdict(script).Delivered? <==> AcceptedBy(last))
      && (Verdict(script).Delivered? ==> Verdict(script).redirect == last.body.redirect)
      && (Verdict(script).TransportError? <==>
          forall i :: 0 <= i < |script| ==> script[i].NetworkFailure? || script[i].status == 429 || script[i].status >= 500)
  {}

  /** `script` holds the response each post would meet, one more than the retries allowed. */
  method SendCallback(script: seq<Response>, maxRetries: nat, secretMissing: bool) returns (delivery: Delivery, posts: nat)
    requires |script| == maxRetries + 1
    ensures posts <= maxRetries + 1
    ensures secretMissing ==> posts == 0 && delivery == TransportError
    ensures !secretMissing ==> 1 <= posts == Posts(script) && delivery == Verdict(script)
    // Only network failures, rate limits and server errors are posted again, and while retries last they all are.
    ensures forall i :: 0 <= i < posts - 1 ==>
      script[i].NetworkFailure? || script[i].status == 429 || script[i].status >= 500
    ensures 0 < posts <= maxRetries ==> script[posts - 1].Http? && script[posts - 1].status != 429 && script[posts - 1].status < 500
    // Delivered: the last response met is a success with a JSON body, and the redirect is the one it names.
    ensures delivery.Delivered? <==> !secretMissing && AcceptedBy(script[posts - 1])
    ensures delivery.Delivered? ==> delivery.redirect == script[posts - 1].body.redirect
    // Given up: every post there may be met one of these failures. Anything else is a refusal.
    ensures !secretMissing ==> (delivery.TransportError? <==>
      forall i :: 0 <= i <= maxRetries ==> script[i].NetworkFailure? || script[i].status == 429 || script[i].status >= 500)
  {
    VerdictTable(script);
    if secretMissing {
      return TransportError, 0;
    }
    var attempt := 0;
    while true
      invariant 0 <= attempt <= maxRetries
      invariant forall i :: 0 <= i < attempt ==> Transient(script[i])
      invariant Posts(script) == attempt + Posts(script[attempt..])
      decreases maxRetries - attempt
    {
      var response := script[attempt];
      attempt := attempt + 1;
      if Transient(response) {
        if attempt > maxRetries {
          return TransportError, attempt;
        }
        continue;
      }
      return Conclude(response), attempt;
    }
  }
}
