/** The results view: the payment plans it lists. */
module Results {
  import opened Lists
  import opened Model

  /** The plans shown: exactly those with at least one payment, in their order. */
  function PlansWithPayments(plans: seq<Plan>): (r: seq<Plan>)
    ensures forall p :: p in r ==> p in plans && |p.payments| > 0
    ensures forall p: Plan :: |p.payments| > 0 ==> multiset(r)[p] == multiset(plans)[p]
    ensures IsSubsequence(r, plans)
  {
    Filter(plans, (p: Plan) => |p.payments| > 0)
  }

  /** Filtering the shown plans again shows the same plans. */
  lemma PlansWithPaymentsIdempotent(plans: seq<Plan>)
    ensures PlansWithPayments(PlansWithPayments(plans)) == PlansWithPayments(plans)
  {
    FilterKeepsAll(PlansWithPayments(plans), (p: Plan) => |p.payments| > 0);
  }
}
