/**
 * The invoice record (an `account.move` as the report reads it), flattened
 * into a value, and the order-preserving selection of invoices that both the
 * draft filter and the grouping by partner are made of.
 */
module Invoices {
  import opened Wrappers

  /** Values of `move_type` the report distinguishes. */
  const OutInvoice: string := "out_invoice"
  const OutRefund: string := "out_refund"
  const InInvoice: string := "in_invoice"
  const InRefund: string := "in_refund"

  /** The `state` of an invoice that has not been confirmed yet. */
  const Draft: string := "draft"

  /**
   * One invoice. Relational fields are flattened to the name they are read
   * through (`partner_id.name`, `invoice_payment_term_id.name`,
   * `invoice_user_id.name`, `currency_id.name`); an empty relation is `None`.
   * `amount` is `amount_total` in cents; `rate` is `computed_currency_rate`
   * in millionths (1.0 is 1_000_000); `invoiceDate` is the date already
   * formatted as year-month-day.
   */
  datatype Invoice = Invoice(
    state: string,
    moveType: string,
    partnerName: string,
    name: string,
    invoiceDate: Option<string>,
    paymentTerm: Option<string>,
    salesperson: Option<string>,
    amount: int,
    rate: Option<int>,
    currency: string)

  /** The invoices of `s` that satisfy `p`, in their order in `s`. */
  function Filter(s: seq<Invoice>, p: Invoice -> bool): (r: seq<Invoice>)
    ensures |r| <= |s|
    ensures forall j :: 0 <= j < |r| ==> p(r[j])
  {
    if s == [] then []
    else
      var kept := Filter(s[..|s| - 1], p);
      if p(s[|s| - 1]) then kept + [s[|s| - 1]] else kept
  }

  /** The positions in `s` of the invoices that `Filter(s, p)` keeps. */
  function FilterIndices(s: seq<Invoice>, p: Invoice -> bool): seq<nat>
  {
    if s == [] then []
    else
      var kept := FilterIndices(s[..|s| - 1], p);
      if p(s[|s| - 1]) then kept + [|s| - 1] else kept
  }

  /**
   * `Filter(s, p)` is exactly the subsequence of `s` made of the invoices
   * satisfying `p`: it picks them at strictly increasing positions, and a
   * position is picked if and only if its invoice satisfies `p`.
   */
  lemma {:induction false} FilterIsOrderedSelection(s: seq<Invoice>, p: Invoice -> bool)
    ensures |FilterIndices(s, p)| == |Filter(s, p)|
    ensures forall t :: 0 <= t < |FilterIndices(s, p)| ==>
      FilterIndices(s, p)[t] < |s| && Filter(s, p)[t] == s[FilterIndices(s, p)[t]]
    ensures forall t, u :: 0 <= t < u < |FilterIndices(s, p)| ==>
      FilterIndices(s, p)[t] < FilterIndices(s, p)[u]
    ensures forall i :: 0 <= i < |s| ==> (p(s[i]) <==> i in FilterIndices(s, p))
  {
    if s != [] {
      var init := s[..|s| - 1];
      FilterIsOrderedSelection(init, p);
      assert forall i :: 0 <= i < |init| ==> init[i] == s[i];
    }
  }

  /**
   * Each invoice occurs in `Filter(s, p)` as often as in `s` when it
   * satisfies `p`, and not at all otherwise.
   */
  lemma {:induction false} FilterCount(s: seq<Invoice>, p: Invoice -> bool, x: Invoice)
    ensures multiset(Filter(s, p))[x] == if p(x) then multiset(s)[x] else 0
    ensures x in Filter(s, p) <==> x in s && p(x)
  {
    if s != [] {
      var init := s[..|s| - 1];
      assert s == init + [s[|s| - 1]];
      FilterCount(init, p, x);
    }
  }

  /** The total of `amount` over `s`, as Python's `sum` computes it. */
  function Sum(s: seq<Invoice>): int
  {
    if s == [] then 0 else Sum(s[..|s| - 1]) + s[|s| - 1].amount
  }

  /** Summing a concatenation sums its parts. */
  lemma {:induction false} SumAppend(a: seq<Invoice>, b: seq<Invoice>)
    ensures Sum(a + b) == Sum(a) + Sum(b)
  {
    if b == [] {
      assert a + b == a;
    } else {
      var init := b[..|b| - 1];
      assert (a + b)[..|a + b| - 1] == a + init;
      assert (a + b)[|a + b| - 1] == b[|b| - 1];
      SumAppend(a, init);
    }
  }

  /** Taking one invoice out of a sequence takes its amount off the total. */
  lemma SumRemove(b: seq<Invoice>, j: nat)
    requires j < |b|
    ensures Sum(b) == Sum(b[..j] + b[j + 1..]) + b[j].amount
  {
    var before, x, after := b[..j], b[j], b[j + 1..];
    assert b == (before + [x]) + after;
    assert Sum(before + [x]) == Sum(before) + x.amount by {
      assert (before + [x])[..|before|] == before;
    }
    SumAppend(before + [x], after);
    SumAppend(before, after);
  }

  /** Taking one occurrence of `b[j]` out of `b` takes it out of the multiset. */
  lemma MultisetRemove(b: seq<Invoice>, j: nat)
    requires j < |b|
    ensures multiset(b[..j] + b[j + 1..]) == multiset(b) - multiset{b[j]}
  {
    assert b == b[..j] + [b[j]] + b[j + 1..];
  }

  /** The total does not depend on the order of the invoices. */
  lemma {:induction false} SumPermutation(a: seq<Invoice>, b: seq<Invoice>)
    requires multiset(a) == multiset(b)
    ensures Sum(a) == Sum(b)
    decreases |a|
  {
    if a == [] {
      assert |b| == |multiset(b)| == 0;
    } else {
      var init, x := a[..|a| - 1], a[|a| - 1];
      assert a == init + [x];
      assert multiset(init) == multiset(a) - multiset{x};
      assert x in multiset(b);
      var j :| 0 <= j < |b| && b[j] == x;
      MultisetRemove(b, j);
      SumPermutation(init, b[..j] + b[j + 1..]);
      SumRemove(b, j);
    }
  }
}
