/**
 * `PaymentTrackingSection`: counts of the payment requests created in the last thirty days,
 * by status, and the counters the section shows. The window's start date is computed by
 * the calendar and is not part of this model: the fetched rows are a parameter.
 */
module PaymentTracking {
  import opened Wrappers
  import opened Lists

  /** A row of `payment_requests`, with the column the counts read. */
  datatype PaymentRequest = PaymentRequest(status: string, createdAt: int)

  /** The query's counters (the floating-point `totalAmount` is not part of this model). */
  datatype PaymentStats = PaymentStats(approvedPayments: nat, pendingPayments: nat, totalPayments: nat)

  function HasStatus(status: string): PaymentRequest -> bool {
    (p: PaymentRequest) => p.status == status
  }

  /**
   * The query's result: total is the number of rows, and since a row has one status the
   * approved and pending counts together never exceed it.
   */
  function StatsOf(data: seq<PaymentRequest>): (st: PaymentStats)
    ensures st.totalPayments == |data|
    ensures st.approvedPayments + st.pendingPayments <= st.totalPayments
  {
    assert "approved"[0] != "pending"[0];
    DisjointCountsFit(data, HasStatus("approved"), HasStatus("pending"));
    PaymentStats(Count(data, HasStatus("approved")), Count(data, HasStatus("pending")), |data|)
  }

  /**
   * The counters are a tally: one more row raises the total by one, and the approved or the
   * pending count by one exactly when its status is exactly 'approved' or 'pending'.
   */
  lemma StatsTally(data: seq<PaymentRequest>, p: PaymentRequest)
    ensures StatsOf([]) == PaymentStats(0, 0, 0)
    ensures var before, after := StatsOf(data), StatsOf(data + [p]);
      && after.totalPayments == before.totalPayments + 1
      && after.approvedPayments == before.approvedPayments + (if p.status == "approved" then 1 else 0)
      && after.pendingPayments == before.pendingPayments + (if p.status == "pending" then 1 else 0)
  {
    CountAppendOne(data, p, HasStatus("approved"));
    CountAppendOne(data, p, HasStatus("pending"));
  }

  /** What the section shows: a spinner while loading, otherwise the three counters. */
  datatype Section = Loading | Counters(total: nat, approved: nat, pending: nat)

  /**
   * `stats?.field || 0` for each counter. `fetched` is `None` when the query failed (its
   * `stats` is then undefined).
   */
  function SectionOf(isLoading: bool, fetched: Option<seq<PaymentRequest>>): (s: Section)
    ensures s.Loading? <==> isLoading
    ensures !isLoading && fetched.None? ==> s == Counters(0, 0, 0)
    ensures !isLoading && fetched.Some? ==> s.total == |fetched.value| && s.approved + s.pending <= s.total
  {
    if isLoading then Loading
    else
      var stats := if fetched.Some? then Some(StatsOf(fetched.value)) else None;
      Counters(if stats.Some? then stats.value.totalPayments else 0,
               if stats.Some? then stats.value.approvedPayments else 0,
               if stats.Some? then stats.value.pendingPayments else 0)
  }

  /** Rows with other statuses (such as 'rejected') count towards the total only. */
  lemma OtherStatusesCountOnlyInTotal(data: seq<PaymentRequest>)
    requires forall p :: p in data ==> p.status != "approved" && p.status != "pending"
    ensures SectionOf(false, Some(data)) == Counters(|data|, 0, 0)
  {
    FilterNone(data, HasStatus("approved"));
    FilterNone(data, HasStatus("pending"));
  }
}
