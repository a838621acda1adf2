/** The request side of the shipping-cost endpoint: how the parsed body is
    read under its alias keys, how an origin or destination id is resolved,
    and when the request is rejected before any upstream call. */
module CostRequest {
  import opened JsValues

  /** What `resolveId` returns: null, a number or a string. */
  datatype Id = NoId | NumId(n: real) | StrId(s: string)

  /** `!!id` */
  predicate IdTruthy(id: Id) {
    match id
    case NoId => false
    case NumId(n) => n != 0.0
    case StrId(s) => s != ""
  }

  /** The id nested in an object: `record.id ?? record.destination_id ?? record.origin_id`.
      All three keys are tried whichever side the object stands for. */
  function NestedId(record: JsValue): (r: JsValue)
    ensures r in {Prop(record, "id"), Prop(record, "destination_id"), Prop(record, "origin_id")}
    ensures IsNullish(r) <==>
      IsNullish(Prop(record, "id")) && IsNullish(Prop(record, "destination_id")) && IsNullish(Prop(record, "origin_id"))
    ensures !IsNullish(Prop(record, "id")) ==> r == Prop(record, "id")
  {
    Coalesce(Coalesce(Prop(record, "id"), Prop(record, "destination_id")), Prop(record, "origin_id"))
  }

  /** The value an id is read from: the nested id of an object, the value itself otherwise. */
  function IdSource(v: JsValue): JsValue {
    if v.Obj? then NestedId(v) else v
  }

  /** `Number.isFinite(Number(v)) ? Number(v) : String(v)` for a value that is
      neither null nor undefined. */
  function NumberOrText(v: JsValue, parse: StringToNumber): Id
    requires !IsNullish(v)
  {
    match ToNumber(v, parse)
    case Some(x) => NumId(x)
    case None => StrId(ToText(v))
  }

  /** `resolveId`. The id is absent exactly when there is nothing to read it
      from; otherwise it is the number `Number` reads from the source value,
      or, when that number is not finite, the source as text, which `Number`
      then cannot read either. */
  function ResolveId(v: JsValue, parse: StringToNumber): (id: Id)
    ensures id == NoId <==> IsNullish(IdSource(v))
    ensures id.NumId? ==> ToNumber(IdSource(v), parse) == Some(id.n)
    ensures id.StrId? ==> ToNumber(IdSource(v), parse) == None && parse(id.s) == None
    ensures id.StrId? ==> (IdSource(v).Str? || IdSource(v).Obj?) && id.s == ToText(IdSource(v))
  {
    // `value && typeof value === "object"`: null is not a JsValue object, and objects are truthy
    if v.Obj? then
      var nested := NestedId(v);
      if !IsNullish(nested) then NumberOrText(nested, parse) else NoId
    else if IsNullish(v) then NoId
    else NumberOrText(v, parse)
  }

  /** The fields the endpoint reads from the parsed body before it validates them. */
  datatype Fields = Fields(origin: Id, destination: Id, weight: Option<real>, courier: JsValue)

  const OriginKeys: seq<string> := ["origin", "origin_id", "originId"]
  const DestinationKeys: seq<string> := ["destination", "destination_id", "destinationId"]
  const WeightKeys: seq<string> := ["weight", "weight_gram", "weightGram"]
  const CourierKeys: seq<string> := ["courier", "courier_code", "courierCode"]

  /** `p?.a ?? p?.b ?? p?.c` */
  function CoalesceKeys(p: JsValue, keys: seq<string>): JsValue
    requires |keys| == 3
  {
    Coalesce(Coalesce(Prop(p, keys[0]), Prop(p, keys[1])), Prop(p, keys[2]))
  }

  /** `p?.a || p?.b || p?.c` */
  function OrKeys(p: JsValue, keys: seq<string>): JsValue
    requires |keys| == 3
  {
    Or(Or(Prop(p, keys[0]), Prop(p, keys[1])), Prop(p, keys[2]))
  }

  /** `typeof w === "number" ? w : Number(w)`, filtered through `Number.isFinite`. */
  function WeightNumber(w: JsValue, parse: StringToNumber): (r: Option<real>)
    ensures r == ToNumber(w, parse)
    ensures w.Num? ==> r == Some(w.n)
    ensures IsNullish(w) ==> r == (if w.Null? then Some(0.0) else None)
  {
    if w.Num? then Some(w.n) else ToNumber(w, parse)
  }

  /** The alias resolution of the parsed body. */
  function Normalize(p: JsValue, parse: StringToNumber): (f: Fields)
    ensures f.origin in {ResolveId(Prop(p, "origin"), parse), ResolveId(Prop(p, "origin_id"), parse),
      ResolveId(Prop(p, "originId"), parse)}
    ensures f.destination in {ResolveId(Prop(p, "destination"), parse),
      ResolveId(Prop(p, "destination_id"), parse), ResolveId(Prop(p, "destinationId"), parse)}
    ensures f.courier in {Prop(p, "courier"), Prop(p, "courier_code"), Prop(p, "courierCode")}
    ensures !p.Obj? ==> f == Fields(NoId, NoId, None, Undefined)
  {
    Fields(
      ResolveId(CoalesceKeys(p, OriginKeys), parse),
      ResolveId(CoalesceKeys(p, DestinationKeys), parse),
      WeightNumber(CoalesceKeys(p, WeightKeys), parse),
      OrKeys(p, CourierKeys))
  }

  /** The negation of the rejection test: both ids truthy, the weight finite
      and positive, the courier truthy. */
  predicate Acceptable(f: Fields) {
    IdTruthy(f.origin) && IdTruthy(f.destination) && f.weight.Some? && f.weight.value > 0.0 && Truthy(f.courier)
  }

  /** A validated request: what the upstream attempts are built from. */
  datatype Quote = Quote(origin: Id, destination: Id, weight: real, courier: JsValue)

  predicate ValidQuote(q: Quote) {
    IdTruthy(q.origin) && IdTruthy(q.destination) && q.weight > 0.0 && Truthy(q.courier)
  }

  /** A string id is one `Number` cannot read as a finite number. */
  predicate CanonicalId(id: Id, parse: StringToNumber) {
    id.StrId? ==> parse(id.s) == None
  }

  predicate Canonical(q: Quote, parse: StringToNumber) {
    CanonicalId(q.origin, parse) && CanonicalId(q.destination, parse)
  }

  /** Alias resolution followed by validation: `None` is the 400 response.
      An accepted request carries exactly the fields read from the body, and
      they satisfy every condition of the validation. */
  function ResolveQuote(p: JsValue, parse: StringToNumber): (r: Option<Quote>)
    ensures r.Some? <==> Acceptable(Normalize(p, parse))
    ensures r.Some? ==> ValidQuote(r.value) && Canonical(r.value, parse)
    ensures r.Some? ==> Normalize(p, parse) == Fields(r.value.origin, r.value.destination, Some(r.value.weight), r.value.courier)
  {
    var f := Normalize(p, parse);
    if Acceptable(f) then Some(Quote(f.origin, f.destination, f.weight.value, f.courier)) else None
  }

  /** The body as the endpoint holds it: `JSON.parse(body)`, or null when parsing throws. */
  function Parsed(parsed: Option<JsValue>): JsValue {
    parsed.GetOr(Null)
  }

  // ---------------------------------------------------------------------------
  // Alias priority, as an ordered list of accessor rules.

  /** The reading `??` gives an ordered list of candidates: the first that is
      neither null nor undefined, or else the last. */
  function FirstPresent(vs: seq<JsValue>): JsValue
    requires |vs| > 0
  {
    if |vs| == 1 || !IsNullish(vs[0]) then vs[0] else FirstPresent(vs[1..])
  }

  /** The reading `||` gives an ordered list of candidates: the first truthy
      one, or else the last. */
  function FirstTruthy(vs: seq<JsValue>): JsValue
    requires |vs| > 0
  {
    if |vs| == 1 || Truthy(vs[0]) then vs[0] else FirstTruthy(vs[1..])
  }

  /** `FirstPresent` picks candidate `i` when every earlier one is null or
      undefined and `i` is present or last. */
  lemma {:induction false} FirstPresentPicks(vs: seq<JsValue>, i: nat)
    requires i < |vs|
    requires forall j :: 0 <= j < i ==> IsNullish(vs[j])
    requires !IsNullish(vs[i]) || i == |vs| - 1
    ensures FirstPresent(vs) == vs[i]
    decreases i
  {
    if i > 0 {
      assert IsNullish(vs[0]);
      FirstPresentPicks(vs[1..], i - 1);
    }
  }

  /** `FirstTruthy` picks candidate `i` when every earlier one is falsy and
      `i` is truthy or last. */
  lemma {:induction false} FirstTruthyPicks(vs: seq<JsValue>, i: nat)
    requires i < |vs|
    requires forall j :: 0 <= j < i ==> !Truthy(vs[j])
    requires Truthy(vs[i]) || i == |vs| - 1
    ensures FirstTruthy(vs) == vs[i]
    decreases i
  {
    if i > 0 {
      assert !Truthy(vs[0]);
      FirstTruthyPicks(vs[1..], i - 1);
    }
  }

  /** The candidates for one field, in priority order. */
  function Candidates(p: JsValue, keys: seq<string>): (vs: seq<JsValue>)
    ensures |vs| == |keys| && forall i :: 0 <= i < |keys| ==> vs[i] == Prop(p, keys[i])
  {
    if keys == [] then [] else [Prop(p, keys[0])] + Candidates(p, keys[1..])
  }

  /** The chains of `??` and `||` read the alias keys in their listed order:
      the ids and the weight come from the first key whose value is neither
      null nor undefined, the courier from the first key whose value is truthy. */
  lemma AliasesInPriorityOrder(p: JsValue, parse: StringToNumber)
    ensures Normalize(p, parse).origin == ResolveId(FirstPresent(Candidates(p, OriginKeys)), parse)
    ensures Normalize(p, parse).destination == ResolveId(FirstPresent(Candidates(p, DestinationKeys)), parse)
    ensures Normalize(p, parse).weight == WeightNumber(FirstPresent(Candidates(p, WeightKeys)), parse)
    ensures Normalize(p, parse).courier == FirstTruthy(Candidates(p, CourierKeys))
  {
    forall keys | keys in [OriginKeys, DestinationKeys, WeightKeys]
      ensures CoalesceKeys(p, keys) == FirstPresent(Candidates(p, keys))
    {
      var vs := Candidates(p, keys);
      if !IsNullish(vs[0]) {
        FirstPresentPicks(vs, 0);
      } else if !IsNullish(vs[1]) {
        FirstPresentPicks(vs, 1);
      } else {
        FirstPresentPicks(vs, 2);
      }
    }
    var cs := Candidates(p, CourierKeys);
    if Truthy(cs[0]) {
      FirstTruthyPicks(cs, 0);
    } else if Truthy(cs[1]) {
      FirstTruthyPicks(cs, 1);
    } else {
      FirstTruthyPicks(cs, 2);
    }
  }

  /** A present `origin` decides the origin id even when it is falsy: a zero
      `origin` is chosen over a valid `origin_id`, and the request is rejected. */
  lemma PresentOriginShadowsAliases(p: JsValue, parse: StringToNumber)
    requires !IsNullish(Prop(p, "origin"))
    ensures Normalize(p, parse).origin == ResolveId(Prop(p, "origin"), parse)
    ensures !IdTruthy(ResolveId(Prop(p, "origin"), parse)) ==> ResolveQuote(p, parse) == None
  {
  }

  /** The zero-origin case written out: `{origin: 0, origin_id: 501, destination: 114,
      weight: 1000, courier: "jne"}` is rejected. */
  lemma ZeroOriginRejected(parse: StringToNumber)
    ensures ResolveQuote(Obj(map["origin" := Num(0.0), "origin_id" := Num(501.0),
      "destination" := Num(114.0), "weight" := Num(1000.0), "courier" := Str("jne")]), parse) == None
  {
  }

  /** An empty-string `courier` is skipped by `||`: the courier comes from
      `courier_code`, then `courierCode`. */
  lemma EmptyCourierFallsThrough(p: JsValue, parse: StringToNumber)
    requires Prop(p, "courier") == Str("")
    ensures Normalize(p, parse).courier == Or(Prop(p, "courier_code"), Prop(p, "courierCode"))
  {
  }

  /** A body that does not parse, or parses to anything but an object, reads
      as undefined under every key and is rejected. */
  lemma NonObjectPayloadRejected(p: JsValue, parse: StringToNumber)
    requires !p.Obj?
    ensures ResolveQuote(p, parse) == None
  {
  }

  /** `{origin_id: 501, destination_id: 114, weight_gram: 1000, courier_code: "jne"}`
      resolves to origin 501, destination 114, weight 1000 and courier "jne". */
  lemma SnakeCaseExample(parse: StringToNumber)
    ensures ResolveQuote(Obj(map["origin_id" := Num(501.0), "destination_id" := Num(114.0),
      "weight_gram" := Num(1000.0), "courier_code" := Str("jne")]), parse)
      == Some(Quote(NumId(501.0), NumId(114.0), 1000.0, Str("jne")))
  {
  }

  // ---------------------------------------------------------------------------
  // Ids written back into a payload.

  /** An id as it is placed into a JSON payload. */
  function IdValue(id: Id): JsValue {
    match id
    case NoId => Null
    case NumId(n) => Num(n)
    case StrId(s) => Str(s)
  }

  /** `{ id: value }` */
  function Wrapped(id: Id): JsValue {
    Obj(map["id" := IdValue(id)])
  }

  /** Resolving an id that was written back, bare or as `{ id }`, gives the
      same id: `resolveId` is idempotent on its own results. */
  lemma ResolveIdValue(id: Id, parse: StringToNumber)
    requires CanonicalId(id, parse)
    ensures ResolveId(IdValue(id), parse) == id
    ensures ResolveId(Wrapped(id), parse) == id
  {
  }
}
