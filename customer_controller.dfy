/**
 * `GET /api/customers` (every customer, newest first) and `POST /api/customers` (an upsert
 * by `clientId`, so that resending a record is harmless).
 */
module CustomerController {
  import opened Wrappers
  import opened Text
  import opened Models
  import opened ServerDb
  import opened Sorting
  import Upsert

  datatype CustomerReply = Created201(doc: CustomerDoc) | BadRequest400 | ServerError500

  /**
   * The collection and the reply after `createCustomer`: 400 when `clientId` or `name` is
   * empty; a name made only of whitespace passes that guard and then fails the schema
   * validator, which is a 500; otherwise the upsert and 201 with the stored document.
   */
  function CreateCustomerSpec(m: map<string, CustomerDoc>, r: CustomerReq, now: string): (res: (map<string, CustomerDoc>, CustomerReply))
    ensures res.1.BadRequest400? <==> r.clientId == "" || r.name == ""
    ensures res.1.Created201? <==> CustomerReqValid(r)
    ensures !res.1.Created201? ==> res.0 == m
    ensures res.1.Created201? ==> && res.0 == Upsert.Step(CustomerPolicy(), m, r, now)
                                  && r.clientId in res.0 && res.1.doc == res.0[r.clientId]
  {
    if r.clientId == "" || r.name == "" then (m, BadRequest400)
    else if !CustomerReqValid(r) then (m, ServerError500)
    else
      var m' := Upsert.Step(CustomerPolicy(), m, r, now);
      (m', Created201(m'[r.clientId]))
  }

  method CreateCustomer(store: Store, r: CustomerReq, now: string) returns (reply: CustomerReply)
    requires store.Valid()
    modifies store`customers
    ensures store.Valid()
    ensures (store.customers, reply) == CreateCustomerSpec(old(store.customers), r, now)
  {
    if r.clientId == "" || r.name == "" {
      return BadRequest400;
    }
    var doc := store.UpsertCustomer(r, now);
    if doc.Some? {
      reply := Created201(doc.value);
    } else {
      reply := ServerError500;
    }
  }

  /** After a 201 the customer stored under `clientId` carries the request's name, phone and address, trimmed. */
  lemma CreateCustomerStores(m: map<string, CustomerDoc>, r: CustomerReq, now: string)
    requires CreateCustomerSpec(m, r, now).1.Created201?
    ensures r.clientId in CreateCustomerSpec(m, r, now).0
    ensures var d := CreateCustomerSpec(m, r, now).0[r.clientId];
      d.name == Trim(r.name) && d.phone == Trim(r.phone) && d.address == Trim(r.address)
  {
  }

  /** A 201 adds at most the request's key, and every other customer is as it was. */
  lemma CreateCustomerTouchesOneKey(m: map<string, CustomerDoc>, r: CustomerReq, now: string)
    requires CreateCustomerSpec(m, r, now).1.Created201?
    ensures CreateCustomerSpec(m, r, now).0.Keys == m.Keys + {r.clientId}
    ensures forall k :: k in m && k != r.clientId ==> CreateCustomerSpec(m, r, now).0[k] == m[k]
  {
  }

  /** Re-sending the same body, at any later time, stores nothing new and gets the same reply. */
  lemma CreateCustomerReplay(m: map<string, CustomerDoc>, r: CustomerReq, n1: string, n2: string)
    ensures var first := CreateCustomerSpec(m, r, n1);
      CreateCustomerSpec(first.0, r, n2) == first
  {
    CustomerPolicyOverwrites();
    Upsert.StepIdempotent(CustomerPolicy(), m, r, n1, n2);
  }

  /** `Customer.find().sort({ createdAt: -1 })`: every customer once, newest first. */
  method GetCustomers(store: Store) returns (list: seq<CustomerDoc>)
    ensures |list| == |store.customers|
    ensures forall k :: k in store.customers ==> store.customers[k] in list
    ensures forall d :: d in list ==> exists k :: k in store.customers && store.customers[k] == d
    ensures SortedDescByStr(list, (d: CustomerDoc) => d.createdAt)
  {
    var docs := Documents(store.customers);
    list := SortDescByStr(docs, (d: CustomerDoc) => d.createdAt);
    SortDescByStrSorted(docs, (d: CustomerDoc) => d.createdAt);
    assert forall d :: d in list <==> d in docs by {
      forall d ensures d in list <==> d in docs {
        assert d in list <==> d in multiset(list);
        assert d in docs <==> d in multiset(docs);
      }
    }
  }
}
