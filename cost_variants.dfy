/** `buildPayloadVariants`: the seven JSON shapes the shipping-cost endpoint
    tries, in order, after the form-encoded attempt fails. */
module CostVariants {
  import opened JsValues
  import opened CostRequest

  const VariantCount: nat := 7

  /** The seven payloads, in the order they are sent. Variants 1 to 4 carry
      `weight` and `courier` at the top level beside one placement of the ids;
      variants 5 to 7 carry the same fields inside a single `data` envelope. */
  function PayloadVariants(q: Quote): (vs: seq<JsValue>)
    ensures |vs| == VariantCount
    ensures forall i :: 0 <= i < 4 ==>
      vs[i].Obj? && Prop(vs[i], "weight") == Num(q.weight) && Prop(vs[i], "courier") == q.courier
      && Prop(vs[i], "data") == Undefined
    ensures forall i :: 4 <= i < VariantCount ==>
      vs[i].Obj? && vs[i].fields.Keys == {"data"}
      && Prop(Prop(vs[i], "data"), "weight") == Num(q.weight) && Prop(Prop(vs[i], "data"), "courier") == q.courier
  {
    var base := map["weight" := Num(q.weight), "courier" := q.courier];
    var origin, destination := IdValue(q.origin), IdValue(q.destination);
    [
      Obj(base["origin" := Wrapped(q.origin)]["destination" := Wrapped(q.destination)]),
      Obj(base["origin" := origin]["destination" := destination]),
      Obj(base["origin_id" := origin]["destination_id" := destination]),
      Obj(base["originId" := origin]["destinationId" := destination]),
      Obj(map["data" := Obj(base["origin" := origin]["destination" := destination])]),
      Obj(map["data" := Obj(base["origin_id" := origin]["destination_id" := destination])]),
      Obj(map["data" := Obj(base["origin" := Wrapped(q.origin)]["destination" := Wrapped(q.destination)])])
    ]
  }

  /** The id placement of each top-level variant, in the order they are
      sent: beside `weight` and `courier`, variant 1 holds the ids as `{ id }`
      objects under `origin` and `destination`, variant 2 the bare ids under
      the same keys, variant 3 under `origin_id` and `destination_id`, and
      variant 4 under `originId` and `destinationId`. No variant has any
      other key. */
  lemma VariantIdPlacements(q: Quote)
    ensures var vs := PayloadVariants(q);
      && vs[0].fields.Keys == {"weight", "courier", "origin", "destination"}
      && Prop(vs[0], "origin") == Wrapped(q.origin) && Prop(vs[0], "destination") == Wrapped(q.destination)
      && vs[1].fields.Keys == {"weight", "courier", "origin", "destination"}
      && Prop(vs[1], "origin") == IdValue(q.origin) && Prop(vs[1], "destination") == IdValue(q.destination)
      && vs[2].fields.Keys == {"weight", "courier", "origin_id", "destination_id"}
      && Prop(vs[2], "origin_id") == IdValue(q.origin) && Prop(vs[2], "destination_id") == IdValue(q.destination)
      && vs[3].fields.Keys == {"weight", "courier", "originId", "destinationId"}
      && Prop(vs[3], "originId") == IdValue(q.origin) && Prop(vs[3], "destinationId") == IdValue(q.destination)
  {
  }

  /** The `data` envelopes hold, in order, the bodies of variants 2, 3 and 1. */
  lemma EnvelopesRepeatTopLevelShapes(q: Quote)
    ensures var vs := PayloadVariants(q);
      Prop(vs[4], "data") == vs[1] && Prop(vs[5], "data") == vs[2] && Prop(vs[6], "data") == vs[0]
  {
  }

  /** Variant 1: the ids as `{ id }` objects under `origin` and `destination`. */
  lemma NestedVariantReadsBack(q: Quote, parse: StringToNumber)
    requires ValidQuote(q) && Canonical(q, parse)
    ensures ResolveQuote(PayloadVariants(q)[0], parse) == Some(q)
  {
  }

  /** Variant 2: the bare ids under `origin` and `destination`. */
  lemma ScalarVariantReadsBack(q: Quote, parse: StringToNumber)
    requires ValidQuote(q) && Canonical(q, parse)
    ensures ResolveQuote(PayloadVariants(q)[1], parse) == Some(q)
  {
  }

  /** Variant 3: the bare ids under `origin_id` and `destination_id`. */
  lemma SnakeCaseVariantReadsBack(q: Quote, parse: StringToNumber)
    requires ValidQuote(q) && Canonical(q, parse)
    ensures ResolveQuote(PayloadVariants(q)[2], parse) == Some(q)
  {
  }

  /** Variant 4: the bare ids under `originId` and `destinationId`. */
  lemma CamelCaseVariantReadsBack(q: Quote, parse: StringToNumber)
    requires ValidQuote(q) && Canonical(q, parse)
    ensures ResolveQuote(PayloadVariants(q)[3], parse) == Some(q)
  {
  }

  /** Every variant encodes the same request: read back with the endpoint's
      own alias rules, variants 1 to 4 and the envelopes of variants 5 to 7
      resolve to exactly the quote they were built from. */
  lemma VariantsReadBack(q: Quote, parse: StringToNumber)
    requires ValidQuote(q) && Canonical(q, parse)
    ensures forall i :: 0 <= i < 4 ==> ResolveQuote(PayloadVariants(q)[i], parse) == Some(q)
    ensures forall i :: 4 <= i < VariantCount ==> ResolveQuote(Prop(PayloadVariants(q)[i], "data"), parse) == Some(q)
  {
    var vs := PayloadVariants(q);
    forall i | 0 <= i < 4
      ensures ResolveQuote(vs[i], parse) == Some(q)
    {
      if i == 0 {
        NestedVariantReadsBack(q, parse);
      } else if i == 1 {
        ScalarVariantReadsBack(q, parse);
      } else if i == 2 {
        SnakeCaseVariantReadsBack(q, parse);
      } else {
        CamelCaseVariantReadsBack(q, parse);
      }
    }
    forall i | 4 <= i < VariantCount
      ensures ResolveQuote(Prop(vs[i], "data"), parse) == Some(q)
    {
      EnvelopesRepeatTopLevelShapes(q);
      var inner := if i == 4 then 1 else if i == 5 then 2 else 0;
      assert Prop(vs[i], "data") == vs[inner];
      assert ResolveQuote(vs[inner], parse) == Some(q);
    }
  }
}
