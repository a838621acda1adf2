/** `POST /api/rajaongkir/cost`: configuration and payload checks, then the
    variant negotiation with the upstream cost API. Upstream calls are replaced
    by an oracle `upstream`, where `upstream(k)` is what the `k`-th call (from 0)
    comes back with. */
module CostEndpoint {
  import opened JsValues
  import opened Http
  import opened CostRequest
  import opened CostVariants

  const MissingPayloadMessage: string := "Missing shipping cost payload."
  const MissingFieldsMessage: string :=
    "Missing origin, destination, weight, or courier in shipping cost payload."

  /** The upstream's own schema-validation markers. */
  const OriginMarker: string := "CalculateRequestV2.Origin"
  const DestinationMarker: string := "CalculateRequestV2.Destination"

  /** A request sent to `/calculate/domestic-cost`: the four fields form-encoded,
      or one JSON payload. */
  datatype UpstreamRequest = FormPost(quote: Quote) | JsonPost(payload: JsValue)

  /** The index of the last call the negotiation can make: the form attempt is
      call 0 and the seven variants are calls 1 to 7. */
  const LastCall: nat := VariantCount

  /** Every request the negotiation can send, in order. */
  function Requests(q: Quote): (rs: seq<UpstreamRequest>)
    ensures |rs| == LastCall + 1 && rs[0] == FormPost(q)
    ensures forall k :: 1 <= k <= LastCall ==> rs[k] == JsonPost(PayloadVariants(q)[k - 1])
  {
    var vs := PayloadVariants(q);
    [FormPost(q)] + seq(VariantCount, i requires 0 <= i < VariantCount => JsonPost(vs[i]))
  }

  /** The failed body names one of the upstream's schema markers. */
  predicate HasMarker(body: string)
    ensures HasMarker(body) <==>
      exists i :: 0 <= i <= |body| && (OriginMarker <= body[i..] || DestinationMarker <= body[i..])
  {
    IncludesIff(body, OriginMarker);
    IncludesIff(body, DestinationMarker);
    Includes(body, OriginMarker) || Includes(body, DestinationMarker)
  }

  /** Call `k` came back with `a` and the negotiation goes on to call `k + 1`
      (when there is one): `a` is a reply, not `ok`, and either it answered the
      form attempt or its body carries a schema marker. */
  predicate Proceeds(k: nat, a: Attempt)
    ensures Proceeds(k, a) ==> !(200 <= Relay(a).status <= 299)
    ensures k == 0 ==> (Proceeds(k, a) <==> a.Received? && !IsOk(a))
  {
    a.Received? && !IsOk(a) && (k == 0 || HasMarker(a.reply.body))
  }

  /** The index of the last call the negotiation makes, counting from call `k`:
      the first call from `k` on that does not proceed, or the last variant. */
  function StopIndex(upstream: nat -> Attempt, k: nat): (n: nat)
    requires k <= LastCall
    ensures k <= n <= LastCall
    ensures forall j :: k <= j < n ==> Proceeds(j, upstream(j))
    ensures n < LastCall ==> !Proceeds(n, upstream(n))
    decreases LastCall - k
  {
    if k == LastCall || !Proceeds(k, upstream(k)) then k else StopIndex(upstream, k + 1)
  }

  /** The stopping call is determined by the two facts about it: every call
      before it proceeded, and it did not (unless it is the last variant). */
  lemma StopIndexAt(upstream: nat -> Attempt, n: nat)
    requires n <= LastCall
    requires forall j :: 0 <= j < n ==> Proceeds(j, upstream(j))
    requires n < LastCall ==> !Proceeds(n, upstream(n))
    ensures StopIndex(upstream, 0) == n
  {
  }

  /** The `try` block of `POST`: the form attempt, then the variants in order. The calls
      made are the prefix of `Requests(q)` up to the stopping call, and the
      response is that call's reply relayed (or 502 if it threw). */
  method Negotiate(q: Quote, upstream: nat -> Attempt) returns (res: Response, sent: seq<UpstreamRequest>)
    ensures var n := StopIndex(upstream, 0);
      sent == Requests(q)[..n + 1] && res == Relay(upstream(n))
    ensures 1 <= |sent| <= LastCall + 1 && sent[0] == FormPost(q)
  {
    var variants := PayloadVariants(q);
    ghost var all := Requests(q);
    var form := upstream(0);
    sent := [FormPost(q)];
    if form.Thrown? || IsOk(form) {
      StopIndexAt(upstream, 0);
      res := Relay(form);
      return;
    }
    var last := form;
    var i := 0;
    while i < |variants|
      invariant 0 <= i <= |variants|
      invariant sent == all[..i + 1]
      invariant last == upstream(i)
      invariant forall j :: 0 <= j <= i ==> Proceeds(j, upstream(j))
    {
      var attempt := upstream(i + 1);
      sent := sent + [JsonPost(variants[i])];
      assert sent == all[..i + 2];
      if attempt.Thrown? {
        StopIndexAt(upstream, i + 1);
        res := Relay(attempt);
        return;
      }
      last := attempt;
      if IsOk(attempt) {
        StopIndexAt(upstream, i + 1);
        res := Relay(attempt);
        return;
      }
      if !HasMarker(attempt.reply.body) {
        break;
      }
      i := i + 1;
    }
    StopIndexAt(upstream, |sent| - 1);
    res := Relay(last);
  }

  /** The whole handler. A missing key is refused with 500 and a blank body
      with 400 before anything is parsed; a body that fails validation (one
      that does not parse included) with 400; none of these calls upstream.
      Otherwise the response and the calls are those of the negotiation. */
  method Post(apiKey: string, body: string, parseJson: string -> Option<JsValue>,
              parseNumber: StringToNumber, upstream: nat -> Attempt)
    returns (res: Response, sent: seq<UpstreamRequest>)
    ensures apiKey == "" ==> res == JsonMessage(MissingKeyMessage, 500) && sent == []
    ensures apiKey != "" && Trim(body) == "" ==>
      res == JsonMessage(MissingPayloadMessage, 400) && sent == []
    ensures apiKey != "" && Trim(body) != "" && ResolveQuote(Parsed(parseJson(body)), parseNumber).None? ==>
      res == JsonMessage(MissingFieldsMessage, 400) && sent == []
    ensures apiKey != "" && Trim(body) != "" && ResolveQuote(Parsed(parseJson(body)), parseNumber).Some? ==>
      var q := ResolveQuote(Parsed(parseJson(body)), parseNumber).value;
      var n := StopIndex(upstream, 0);
      sent == Requests(q)[..n + 1] && res == Relay(upstream(n))
  {
    if apiKey == "" {
      return JsonMessage(MissingKeyMessage, 500), [];
    }
    if Trim(body) == "" {
      return JsonMessage(MissingPayloadMessage, 400), [];
    }
    var payload := Parsed(parseJson(body));
    var quote := ResolveQuote(payload, parseNumber);
    if quote.None? {
      return JsonMessage(MissingFieldsMessage, 400), [];
    }
    res, sent := Negotiate(quote.value, upstream);
  }

  // ---------------------------------------------------------------------------
  // The retry policy, stated on the specification.

  /** An `ok` form attempt is returned after one call, with no JSON attempt. */
  lemma FormSuccessIsFinal(upstream: nat -> Attempt)
    requires IsOk(upstream(0))
    ensures StopIndex(upstream, 0) == 0
  {
  }

  /** The first `ok` reply, reached while every earlier call proceeded, ends
      the negotiation: no later variant is sent. */
  lemma FirstSuccessIsFinal(upstream: nat -> Attempt, k: nat)
    requires k <= LastCall && IsOk(upstream(k))
    requires forall j :: 0 <= j < k ==> Proceeds(j, upstream(j))
    ensures StopIndex(upstream, 0) == k
  {
  }

  /** A failed variant whose body carries neither marker is the last call. */
  lemma UnmarkedFailureIsFinal(upstream: nat -> Attempt, k: nat)
    requires 1 <= k <= LastCall
    requires upstream(k).Received? && !IsOk(upstream(k)) && !HasMarker(upstream(k).reply.body)
    requires forall j :: 0 <= j < k ==> Proceeds(j, upstream(j))
    ensures StopIndex(upstream, 0) == k
  {
  }

  /** When no reply ever names a marker and none is `ok`, the negotiation
      stops after the first variant: two calls, and the variant's reply. */
  lemma NoMarkersMeansTwoCalls(upstream: nat -> Attempt)
    requires forall k :: upstream(k).Received? && !IsOk(upstream(k)) && !HasMarker(upstream(k).reply.body)
    ensures StopIndex(upstream, 0) == 1
  {
  }

  /** When every reply fails and names a marker, all eight calls are made and
      the last variant's reply is the one returned. */
  lemma MarkedFailuresTryEveryVariant(upstream: nat -> Attempt)
    requires forall k :: upstream(k).Received? && !IsOk(upstream(k)) && HasMarker(upstream(k).reply.body)
    ensures StopIndex(upstream, 0) == LastCall
  {
  }

  /** The client gets a success exactly when the stopping call came back
      `ok` with a status other than 204 and 205, which the runtime refuses
      to send with a body. */
  lemma SuccessIffOkReply(upstream: nat -> Attempt)
    ensures var n := StopIndex(upstream, 0);
      200 <= Relay(upstream(n)).status <= 299 <==>
        IsOk(upstream(n)) && upstream(n).reply.status != 204 && upstream(n).reply.status != 205
  {
  }

  /** When no call comes back `ok`, the client gets no success. The stopping
      call is the first that does not proceed, or the last variant, and its
      reply is relayed with its status, body and content type unless the
      status is one the runtime refuses. */
  lemma FailureRelaysLastReply(upstream: nat -> Attempt)
    requires forall k: nat :: k <= LastCall ==> !IsOk(upstream(k))
    ensures var n := StopIndex(upstream, 0);
      && !(200 <= Relay(upstream(n)).status <= 299)
      && (forall j :: 0 <= j < n ==> Proceeds(j, upstream(j)))
      && (n < LastCall ==> !Proceeds(n, upstream(n)))
      && (upstream(n).Received? && !RefusedStatus(upstream(n).reply.status) ==>
            var r := upstream(n).reply;
            Relay(upstream(n)) == Response(r.status, Text(r.body), r.contentType.GetOr(JsonContentType)))
  {
  }

  /** A variant's reply that carries either marker is found by `includes`,
      wherever the marker stands in the body. */
  lemma MarkerAnywhereProceeds(k: nat, r: Reply, marker: string, before: string, after: string)
    requires marker == OriginMarker || marker == DestinationMarker
    requires 1 <= k && r.body == before + marker + after && !(200 <= r.status <= 299)
    ensures Proceeds(k, Received(r))
  {
    assert r.body[|before|..] == marker + after;
  }

  /** An `ok` form reply with status 204 cannot be relayed: the client gets
      502 after one call. */
  lemma NoContentFormReplyIsBadGateway(upstream: nat -> Attempt)
    requires upstream(0) == Received(Reply(204, "", None))
    ensures StopIndex(upstream, 0) == 0
    ensures Relay(upstream(0)) == Response(502, EngineMessage, JsonContentType)
  {
  }
}
