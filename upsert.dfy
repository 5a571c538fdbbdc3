/**
 * `Model.findOneAndUpdate({ clientId }, fields, { upsert: true, runValidators: true })`
 * applied to a collection with a unique `clientId`, and a batch of such calls.
 *
 * A collection is a map from `clientId` to the stored document (the unique index makes
 * the key a function of the document). A policy says how a request is keyed, whether
 * the validators accept it, and how the stored document is built from the previous one
 * (absent on insert) and the request.
 */
module Upsert {
  import opened Wrappers

  datatype Policy<!R, !D> = Policy(key: R -> string, valid: R -> bool, merge: (Option<D>, R, string) -> D)

  function Get<D>(m: map<string, D>, k: string): (r: Option<D>)
    ensures r.Some? <==> k in m
    ensures r.Some? ==> r.value == m[k]
  {
    if k in m then Some(m[k]) else None
  }

  /** Two collections that agree on every key are the same collection. */
  lemma MapExt<D>(a: map<string, D>, b: map<string, D>)
    requires forall k :: Get(a, k) == Get(b, k)
    ensures a == b
  {
    forall k | k in a
      ensures k in b && a[k] == b[k]
    {
      assert Get(a, k) == Get(b, k);
    }
    forall k | k in b
      ensures k in a
    {
      assert Get(a, k) == Get(b, k);
    }
  }

  /**
   * A request that passes validation replaces the document stored under its key with
   * the merge; a request the validators reject throws and leaves the collection alone.
   */
  function Step<R(!new), D(!new)>(p: Policy<R, D>, m: map<string, D>, r: R, now: string): (m': map<string, D>)
    ensures p.valid(r) ==> m' == m[p.key(r) := p.merge(Get(m, p.key(r)), r, now)]
    ensures !p.valid(r) ==> m' == m
    ensures forall k :: k != p.key(r) ==> Get(m', k) == Get(m, k)
  {
    if p.valid(r) then m[p.key(r) := p.merge(Get(m, p.key(r)), r, now)] else m
  }

  /** The requests of a batch, applied one after the other. */
  function Fold<R(!new), D(!new)>(p: Policy<R, D>, m: map<string, D>, rs: seq<R>, now: string): map<string, D> {
    if rs == [] then m else Step(p, Fold(p, m, rs[..|rs| - 1], now), rs[|rs| - 1], now)
  }

  /** The last request of the batch that is valid and carries key `k`. */
  function LastValid<R(!new), D(!new)>(p: Policy<R, D>, rs: seq<R>, k: string): (r: Option<R>)
    ensures r.Some? ==> r.value in rs && p.valid(r.value) && p.key(r.value) == k
    ensures r.None? ==> forall x :: x in rs && p.valid(x) ==> p.key(x) != k
  {
    if rs == [] then None
    else
      var x := rs[|rs| - 1];
      assert rs == rs[..|rs| - 1] + [x];
      if p.valid(x) && p.key(x) == k then Some(x) else LastValid(p, rs[..|rs| - 1], k)
  }

  /**
   * The policy overwrites: a second accepted request for the same key gives the document
   * that request alone would have given, built on the document that was there before
   * the first one (so the insert time of the first one is kept).
   */
  ghost predicate Overwrites<R(!new), D(!new)>(p: Policy<R, D>) {
    forall o: Option<D>, r1: R, r2: R, n1: string, n2: string {:trigger p.merge(Some(p.merge(o, r1, n1)), r2, n2)} ::
      (p.valid(r1) && p.valid(r2) && p.key(r1) == p.key(r2) ==>
         p.merge(Some(p.merge(o, r1, n1)), r2, n2) == p.merge(o, r2, n1))
  }

  /** After a batch, each key holds what its last accepted request made of the old document. */
  lemma {:induction false} FoldClosedForm<R(!new), D(!new)>(p: Policy<R, D>, m: map<string, D>, rs: seq<R>, now: string, k: string)
    requires Overwrites(p)
    ensures Get(Fold(p, m, rs, now), k) ==
      match LastValid(p, rs, k)
      case None => Get(m, k)
      case Some(r) => Some(p.merge(Get(m, k), r, now))
  {
    if rs != [] {
      var rs', x := rs[..|rs| - 1], rs[|rs| - 1];
      FoldClosedForm(p, m, rs', now, k);
      if p.valid(x) && p.key(x) == k {
        match LastValid(p, rs', k)
        case None =>
        case Some(r) =>
          assert p.merge(Some(p.merge(Get(m, k), r, now)), x, now) == p.merge(Get(m, k), x, now);
      }
    }
  }

  /** Sending the same batch a second time, at any later time, changes nothing. */
  lemma FoldIdempotent<R(!new), D(!new)>(p: Policy<R, D>, m: map<string, D>, rs: seq<R>, n1: string, n2: string)
    requires Overwrites(p)
    ensures Fold(p, Fold(p, m, rs, n1), rs, n2) == Fold(p, m, rs, n1)
  {
    var once := Fold(p, m, rs, n1);
    forall k
      ensures Get(Fold(p, once, rs, n2), k) == Get(once, k)
    {
      FoldClosedForm(p, once, rs, n2, k);
      FoldClosedForm(p, m, rs, n1, k);
      match LastValid(p, rs, k)
      case None =>
      case Some(r) =>
        assert p.merge(Some(p.merge(Get(m, k), r, n1)), r, n2) == p.merge(Get(m, k), r, n1);
    }
    MapExt(Fold(p, once, rs, n2), once);
  }

  /** A single request sent twice is stored once. */
  lemma StepIdempotent<R(!new), D(!new)>(p: Policy<R, D>, m: map<string, D>, r: R, n1: string, n2: string)
    requires Overwrites(p)
    ensures Step(p, Step(p, m, r, n1), r, n2) == Step(p, m, r, n1)
  {
    if p.valid(r) {
      assert p.merge(Some(p.merge(Get(m, p.key(r)), r, n1)), r, n2) == p.merge(Get(m, p.key(r)), r, n1);
    }
  }

  /** Only keys of accepted requests are added; every key already present stays. */
  lemma {:induction false} FoldKeys<R(!new), D(!new)>(p: Policy<R, D>, m: map<string, D>, rs: seq<R>, now: string)
    ensures Fold(p, m, rs, now).Keys == m.Keys + set x | x in rs && p.valid(x) :: p.key(x)
  {
    if rs != [] {
      var rs', x := rs[..|rs| - 1], rs[|rs| - 1];
      FoldKeys(p, m, rs', now);
      assert rs == rs' + [x];
    }
  }

  /** The requests the validators accept, in batch order (`results.customers` and `results.invoices`). */
  function Accepted<R(!new), D(!new)>(p: Policy<R, D>, rs: seq<R>): (a: seq<R>)
    ensures forall x :: x in a <==> x in rs && p.valid(x)
  {
    if rs == [] then []
    else
      var x := rs[|rs| - 1];
      assert rs == rs[..|rs| - 1] + [x];
      if p.valid(x) then Accepted(p, rs[..|rs| - 1]) + [x] else Accepted(p, rs[..|rs| - 1])
  }

  /** The requests the validators reject, in batch order (the entries pushed onto `errors`). */
  function Rejected<R(!new), D(!new)>(p: Policy<R, D>, rs: seq<R>): (e: seq<R>)
    ensures forall x :: x in e <==> x in rs && !p.valid(x)
  {
    if rs == [] then []
    else
      var x := rs[|rs| - 1];
      assert rs == rs[..|rs| - 1] + [x];
      if p.valid(x) then Rejected(p, rs[..|rs| - 1]) else Rejected(p, rs[..|rs| - 1]) + [x]
  }

  /** Every request is either counted as synced or reported as an error, never both. */
  lemma {:induction false} AcceptedPlusRejected<R(!new), D(!new)>(p: Policy<R, D>, rs: seq<R>)
    ensures |Accepted(p, rs)| + |Rejected(p, rs)| == |rs|
  {
    if rs != [] {
      AcceptedPlusRejected(p, rs[..|rs| - 1]);
    }
  }
}
