/**
 * The subscription-plan router: the public listing and lookup, which only
 * ever show active plans, and the administrative update and deactivation.
 */
module PlanRouter {
  import opened Wrappers
  import opened Table
  import opened Billing

  /** A row of the plan listing: the plan's id and the plan. */
  type Entry = (Id, Plan)

  /** The fields an update may carry; an absent field keeps its stored value. */
  datatype PlanPatch = PlanPatch(
    name: Option<string>,
    description: Option<string>,
    price: Option<Cents>,
    interval: Option<Interval>,
    features: Option<seq<string>>,
    isActive: Option<bool>)

  predicate SortedByPrice(r: seq<Entry>) {
    forall i, j :: 0 <= i < j < |r| ==> r[i].1.price <= r[j].1.price
  }

  predicate NoDuplicates(r: seq<Entry>) {
    forall i, j :: 0 <= i < j < |r| ==> r[i] != r[j]
  }

  /** An entry no dearer than anything in a sorted listing may go in front of it. */
  lemma ConsSorted(e: Entry, t: seq<Entry>)
    requires SortedByPrice(t)
    requires forall y :: y in t ==> e.1.price <= y.1.price
    ensures SortedByPrice([e] + t)
  {
  }

  /** The head of a sorted listing is its cheapest entry. */
  lemma HeadCheapest(r: seq<Entry>)
    requires SortedByPrice(r)
    ensures r != [] ==> forall y :: y in r ==> r[0].1.price <= y.1.price
  {
  }

  /** An entry not yet in a listing without duplicates may go in front of it. */
  lemma ConsNoDuplicates(e: Entry, t: seq<Entry>)
    requires NoDuplicates(t) && e !in t
    ensures NoDuplicates([e] + t)
  {
  }

  /** The rest of a listing without duplicates has none, and lacks the head. */
  lemma TailNoDuplicates(r: seq<Entry>)
    requires NoDuplicates(r) && r != []
    ensures NoDuplicates(r[1..]) && r[0] !in r[1..]
  {
  }

  /** Puts `x` into a price-sorted listing, after every entry of the same price. */
  function InsertByPrice(r: seq<Entry>, x: Entry): (s: seq<Entry>)
    requires SortedByPrice(r)
    ensures SortedByPrice(s)
    ensures forall y :: y in s <==> y in r || y == x
    ensures NoDuplicates(r) && x !in r ==> NoDuplicates(s)
    decreases |r|
  {
    HeadCheapest(r);
    if r == [] || x.1.price < r[0].1.price then
      ConsSorted(x, r);
      if NoDuplicates(r) && x !in r then
        ConsNoDuplicates(x, r);
        [x] + r
      else
        [x] + r
    else
      var t := InsertByPrice(r[1..], x);
      assert forall y :: y in r[1..] ==> y in r;
      ConsSorted(r[0], t);
      if NoDuplicates(r) && x !in r then
        TailNoDuplicates(r);
        ConsNoDuplicates(r[0], t);
        [r[0]] + t
      else
        [r[0]] + t
  }

  /** `byId`: the plan with that id, unless there is none or it is inactive. */
  function ById(s: Store, id: Id): (r: Option<Plan>)
    ensures r.Some? <==> id in s.plans && s.plans[id].isActive
    ensures r.Some? ==> r.value == s.plans[id]
  {
    if id in s.plans && s.plans[id].isActive then Some(s.plans[id]) else None
  }

  /**
   * `all`: every active plan exactly once, cheapest first. Plans of equal
   * price come in an order the database does not fix.
   */
  method All(s: Store) returns (r: seq<Entry>)
    ensures forall e :: e in r <==> e.0 in s.plans && s.plans[e.0] == e.1 && e.1.isActive
    ensures forall e :: e in r <==> ById(s, e.0) == Some(e.1)
    ensures NoDuplicates(r)
    ensures SortedByPrice(r)
  {
    var unseen := s.plans.Keys;
    r := [];
    while unseen != {}
      invariant unseen <= s.plans.Keys
      invariant forall e :: e in r <==> e.0 in s.plans && e.0 !in unseen && s.plans[e.0] == e.1 && e.1.isActive
      invariant NoDuplicates(r)
      invariant SortedByPrice(r)
      decreases unseen
    {
      var k :| k in unseen;
      unseen := unseen - {k};
      if s.plans[k].isActive {
        r := InsertByPrice(r, (k, s.plans[k]));
      }
    }
  }

  function ApplyPatch(p: Plan, patch: PlanPatch): Plan {
    Plan(
      if patch.name.Some? then patch.name.value else p.name,
      if patch.description.Some? then patch.description else p.description,
      if patch.price.Some? then patch.price.value else p.price,
      if patch.interval.Some? then patch.interval.value else p.interval,
      if patch.features.Some? then patch.features.value else p.features,
      if patch.isActive.Some? then patch.isActive.value else p.isActive)
  }

  /** `update`: writes the supplied fields of one plan; the database rejects an unknown id. */
  function Update(s: Store, id: Id, patch: PlanPatch): (r: Reply<Entry>)
    ensures r.result.Err? <==> id !in s.plans
    ensures r.result.Err? ==> r.result.error == RecordNotFound && r.store == s
    ensures r.store.plans.Keys == s.plans.Keys
    ensures r.result.Ok? ==> r.result.value.0 == id && r.store.plans[id] == r.result.value.1
    ensures r.result.Ok? ==>
      var before := s.plans[id];
      var after := r.store.plans[id];
      && after.name == (if patch.name.Some? then patch.name.value else before.name)
      && after.description == (if patch.description.Some? then patch.description else before.description)
      && after.price == (if patch.price.Some? then patch.price.value else before.price)
      && after.interval == (if patch.interval.Some? then patch.interval.value else before.interval)
      && after.features == (if patch.features.Some? then patch.features.value else before.features)
      && after.isActive == (if patch.isActive.Some? then patch.isActive.value else before.isActive)
    ensures forall k :: k in s.plans && k != id ==> r.store.plans[k] == s.plans[k]
    ensures r.store.subscriptions == s.subscriptions && r.store.payments == s.payments
  {
    if id !in s.plans then
      Reply(Err(RecordNotFound), s)
    else
      var p := ApplyPatch(s.plans[id], patch);
      Reply(Ok((id, p)), s.(plans := s.plans[id := p]))
  }

  /** `deactivate`: clears the active flag of one plan; the database rejects an unknown id. */
  function Deactivate(s: Store, id: Id): (r: Reply<Entry>)
    ensures r.result.Err? <==> id !in s.plans
    ensures r.result.Err? ==> r.result.error == RecordNotFound && r.store == s
    ensures r.store.plans.Keys == s.plans.Keys
    ensures r.result.Ok? ==>
      && r.result.value == (id, r.store.plans[id])
      && !r.store.plans[id].isActive
      && r.store.plans[id].(isActive := true) == s.plans[id].(isActive := true)
    ensures forall k :: k in s.plans && k != id ==> r.store.plans[k] == s.plans[k]
    ensures r.store.subscriptions == s.subscriptions && r.store.payments == s.payments
  {
    if id !in s.plans then
      Reply(Err(RecordNotFound), s)
    else
      var p := s.plans[id].(isActive := false);
      Reply(Ok((id, p)), s.(plans := s.plans[id := p]))
  }

  /** Deactivating twice leaves the store as deactivating once does. */
  lemma DeactivateIdempotent(s: Store, id: Id)
    ensures Deactivate(Deactivate(s, id).store, id).store == Deactivate(s, id).store
  {
  }

  /** Deactivation is the update that supplies only `isActive := false`. */
  lemma DeactivateIsUpdate(s: Store, id: Id)
    ensures Deactivate(s, id) == Update(s, id, PlanPatch(None, None, None, None, None, Some(false)))
  {
  }

  /** A deactivated plan disappears from the public lookup, even though its row remains. */
  lemma DeactivateHidesPlan(s: Store, id: Id)
    requires id in s.plans
    ensures id in Deactivate(s, id).store.plans
    ensures ById(Deactivate(s, id).store, id).None?
  {
  }
}
