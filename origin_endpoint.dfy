/** `GET /api/rajaongkir/origin`: the inbound query is copied onto the
    upstream URL, the origin list is asked first and the destination list
    second. Upstream calls are replaced by an oracle `upstream`, where
    `upstream(k)` is what the `k`-th call (from 0) comes back with. */
module OriginEndpoint {
  import opened JsValues
  import opened Http

  const PrimaryPath: string := "/origin/domestic-origin"
  const FallbackPath: string := "/destination/domestic-destination"

  /** A GET to `{base}{path}` with the given query parameters. */
  datatype LookupRequest = LookupRequest(path: string, params: map<string, string>)

  /** The query parameters of the upstream URL after `searchParams.set(key, value)`
      for each inbound pair in order, starting from the base URL's empty query. */
  function QueryMap(query: seq<(string, string)>): (r: map<string, string>)
    ensures forall k :: k in r ==> (k, r[k]) in query
  {
    if query == [] then map[]
    else
      var last := query[|query| - 1];
      QueryMap(query[..|query| - 1])[last.0 := last.1]
  }

  /** Every inbound key, and no other, is set upstream. */
  lemma {:induction false} QueryMapKeys(query: seq<(string, string)>)
    ensures QueryMap(query).Keys == set i | 0 <= i < |query| :: query[i].0
  {
    if query != [] {
      var front := query[..|query| - 1];
      QueryMapKeys(front);
      assert forall i :: 0 <= i < |front| ==> front[i] == query[i];
      assert (set i | 0 <= i < |query| :: query[i].0)
          == (set i | 0 <= i < |front| :: front[i].0) + {query[|query| - 1].0};
    }
  }

  /** For a repeated key the last value wins. */
  lemma {:induction false} QueryMapLastWins(query: seq<(string, string)>, i: nat)
    requires i < |query|
    requires forall j :: i < j < |query| ==> query[j].0 != query[i].0
    ensures query[i].0 in QueryMap(query) && QueryMap(query)[query[i].0] == query[i].1
  {
    if i < |query| - 1 {
      var front := query[..|query| - 1];
      assert front[i] == query[i];
      QueryMapLastWins(front, i);
    }
  }

  /** `buildUpstreamUrl`'s `forEach` over the inbound parameters. */
  method BuildUpstreamQuery(query: seq<(string, string)>) returns (params: map<string, string>)
    ensures params == QueryMap(query)
    ensures params.Keys == set i | 0 <= i < |query| :: query[i].0
    ensures forall i :: 0 <= i < |query| && (forall j :: i < j < |query| ==> query[j].0 != query[i].0) ==>
              params[query[i].0] == query[i].1
  {
    params := map[];
    var i := 0;
    while i < |query|
      invariant 0 <= i <= |query|
      invariant params == QueryMap(query[..i])
    {
      var (key, value) := query[i];
      assert query[..i + 1][..i] == query[..i];
      params := params[key := value];
      i := i + 1;
    }
    assert query[..|query|] == query;
    QueryMapKeys(query);
    forall i | 0 <= i < |query| && (forall j :: i < j < |query| ==> query[j].0 != query[i].0)
      ensures params[query[i].0] == query[i].1
    {
      QueryMapLastWins(query, i);
    }
  }

  /** The response built in `GET` when both lookups failed: the fallback's
      body unless it is empty, the fallback's status unless it is 0, the
      fallback's content type, else the primary's, else JSON. A merged status
      the runtime refuses turns into the `catch`'s 502. Two failures never
      merge into a success. */
  function MergeFailures(primary: Reply, fallback: Reply): (res: Response)
    ensures res.body.Text? ==> res.status in {fallback.status, primary.status}
    ensures res.body.Text? ==> res.body.text in {fallback.body, primary.body}
    ensures !res.body.Text? ==> res == Response(502, EngineMessage, JsonContentType)
    ensures !(200 <= primary.status <= 299) && !(200 <= fallback.status <= 299) ==> !(200 <= res.status <= 299)
  {
    NewResponse(
      if fallback.status != 0 then fallback.status else primary.status,
      if fallback.body != "" then fallback.body else primary.body,
      match fallback.contentType
      case Some(t) => t
      case None => primary.contentType.GetOr(JsonContentType))
  }

  /** The `try` block of `GET`: the response, and how many upstream calls were
      made, given what the primary call and the fallback call (if it is made)
      come back with. A second call is made exactly when the first came back
      with a failed reply, and the response is a success only when a lookup
      that was made succeeded. */
  function SelectOrigin(primary: Attempt, fallback: Attempt): (r: (Response, nat))
    ensures r.1 == 1 <==> primary.Thrown? || IsOk(primary)
    ensures r.1 == 1 || r.1 == 2
    ensures 200 <= r.0.status <= 599
    ensures 200 <= r.0.status <= 299 ==> IsOk(primary) || (r.1 == 2 && IsOk(fallback))
  {
    if primary.Thrown? || IsOk(primary) then (Relay(primary), 1)
    else if fallback.Thrown? || IsOk(fallback) then (Relay(fallback), 2)
    else (MergeFailures(primary.reply, fallback.reply), 2)
  }

  /** The handler. A missing key is refused with 500 and no call. Otherwise
      the primary and then, if needed, the fallback lookup are sent with the
      inbound query, and the response is the one `SelectOrigin` picks. */
  method Get(apiKey: string, query: seq<(string, string)>, upstream: nat -> Attempt)
    returns (res: Response, sent: seq<LookupRequest>)
    ensures apiKey == "" ==> res == JsonMessage(MissingKeyMessage, 500) && sent == []
    ensures apiKey != "" ==>
      var (r, calls) := SelectOrigin(upstream(0), upstream(1));
      res == r && 1 <= calls <= 2
      && sent == [LookupRequest(PrimaryPath, QueryMap(query)), LookupRequest(FallbackPath, QueryMap(query))][..calls]
  {
    if apiKey == "" {
      return JsonMessage(MissingKeyMessage, 500), [];
    }
    var primaryParams := BuildUpstreamQuery(query);
    var primary := upstream(0);
    sent := [LookupRequest(PrimaryPath, primaryParams)];
    if primary.Thrown? || IsOk(primary) {
      res := Relay(primary);
      return;
    }
    var fallbackParams := BuildUpstreamQuery(query);
    var fallback := upstream(1);
    sent := sent + [LookupRequest(FallbackPath, fallbackParams)];
    if fallback.Thrown? || IsOk(fallback) {
      res := Relay(fallback);
      return;
    }
    res := MergeFailures(primary.reply, fallback.reply);
  }

  // ---------------------------------------------------------------------------
  // The selection rule.

  /** An `ok` primary is relayed after exactly one call. */
  lemma PrimaryOkIsFinal(primary: Attempt, fallback: Attempt)
    requires IsOk(primary)
    ensures SelectOrigin(primary, fallback) == (Passthrough(primary.reply), 1)
  {
  }

  /** A failed primary and an `ok` fallback: the fallback's reply is relayed
      after exactly two calls, its status and body kept unless the status is
      204 or 205. */
  lemma FallbackOkAfterPrimaryFails(primary: Attempt, fallback: Attempt)
    requires primary.Received? && !IsOk(primary) && IsOk(fallback)
    ensures var (r, calls) := SelectOrigin(primary, fallback);
      calls == 2 && r == Passthrough(fallback.reply)
      && (!RefusedStatus(fallback.reply.status) ==>
            r.status == fallback.reply.status && r.body == Text(fallback.reply.body))
  {
  }

  /** Both failed: each field is the fallback's when it has one, and a
      merged status the runtime refuses gives 502. */
  lemma BothFailedPrefersFallback(primary: Reply, fallback: Reply)
    requires !(200 <= primary.status <= 299) && !(200 <= fallback.status <= 299)
    ensures var (r, calls) := SelectOrigin(Received(primary), Received(fallback));
      var status := if fallback.status != 0 then fallback.status else primary.status;
      && calls == 2
      && (RefusedStatus(status) ==> r == Response(502, EngineMessage, JsonContentType))
      && (!RefusedStatus(status) ==>
        && r.status == status
        && (fallback.body != "" ==> r.body == Text(fallback.body))
        && (fallback.body == "" ==> r.body == Text(primary.body))
        && r.contentType == fallback.contentType.GetOr(primary.contentType.GetOr(JsonContentType)))
  {
  }

  /** A fallback failure with a status, a body and a content type is relayed
      as it is; one with none of them leaves the primary's failure. */
  lemma MergeFailuresExtremes(primary: Reply, fallback: Reply)
    ensures fallback.status != 0 && fallback.body != "" && fallback.contentType.Some?
      ==> MergeFailures(primary, fallback) == Passthrough(fallback)
    ensures fallback.status == 0 && fallback.body == "" && fallback.contentType.None?
      ==> MergeFailures(primary, fallback) == Passthrough(primary)
  {
  }

  /** A 404 from the origin list and a 200 from the destination list give
      the destination list's 200 and body. */
  lemma NotFoundThenFound(ct: Option<string>)
    ensures SelectOrigin(Received(Reply(404, "", ct)), Received(Reply(200, "{\"data\":[]}", ct)))
      == (Response(200, Text("{\"data\":[]}"), ct.GetOr(JsonContentType)), 2)
  {
  }

  /** A 204 from the origin list cannot be relayed: the constructor throws, and
      the client gets 502 after one call. */
  lemma NoContentPrimaryIsBadGateway(fallback: Attempt)
    ensures SelectOrigin(Received(Reply(204, "", None)), fallback) == (Response(502, EngineMessage, JsonContentType), 1)
  {
  }
}
