/**
 * Grouping of the invoices by partner name into an insertion-ordered
 * dictionary (`grouped_invoices`), as a loop that builds it in place and the
 * specification it meets: the distinct partner names in order of first
 * appearance, and for each name the invoices that carry it, in input order.
 * Partners are told apart by name only, so two partners that share a name
 * share a group.
 */
module Grouping {
  import opened Invoices

  /** The test that puts an invoice in the group keyed by `partner`. */
  function HasPartner(partner: string): Invoice -> bool
  {
    (inv: Invoice) => inv.partnerName == partner
  }

  /** The group of `partner`: its invoices in input order. */
  function InvoicesOf(invoices: seq<Invoice>, partner: string): (group: seq<Invoice>)
    ensures forall j :: 0 <= j < |group| ==> group[j].partnerName == partner
  {
    if invoices == [] then []
    else
      var kept := InvoicesOf(invoices[..|invoices| - 1], partner);
      if invoices[|invoices| - 1].partnerName == partner then kept + [invoices[|invoices| - 1]] else kept
  }

  /** A group is the selection of the invoices that carry its partner name. */
  lemma {:induction false} InvoicesOfIsFilter(invoices: seq<Invoice>, partner: string)
    ensures InvoicesOf(invoices, partner) == Filter(invoices, HasPartner(partner))
  {
    if invoices != [] {
      InvoicesOfIsFilter(invoices[..|invoices| - 1], partner);
    }
  }

  /** The keys of the dictionary, in insertion order: each partner name at its first appearance. */
  function PartnerOrder(invoices: seq<Invoice>): seq<string>
  {
    if invoices == [] then []
    else
      var seen := PartnerOrder(invoices[..|invoices| - 1]);
      var name := invoices[|invoices| - 1].partnerName;
      if name in seen then seen else seen + [name]
  }

  /** The groups of `partners`, one after the other. */
  function ConcatGroups(invoices: seq<Invoice>, partners: seq<string>): seq<Invoice>
  {
    if partners == [] then []
    else ConcatGroups(invoices, partners[..|partners| - 1]) + InvoicesOf(invoices, partners[|partners| - 1])
  }

  ghost predicate NoDuplicates(names: seq<string>)
  {
    forall i, j :: 0 <= i < j < |names| ==> names[i] != names[j]
  }

  /** Appending an invoice extends its own group and no other. */
  lemma InvoicesOfSnoc(invoices: seq<Invoice>, inv: Invoice, partner: string)
    ensures InvoicesOf(invoices + [inv], partner) ==
      InvoicesOf(invoices, partner) + (if inv.partnerName == partner then [inv] else [])
  {
    assert (invoices + [inv])[..|invoices|] == invoices;
  }

  /**
   * The dictionary has one key per partner name that occurs in the input,
   * and no key twice.
   */
  lemma {:induction false} PartnerOrderKeys(invoices: seq<Invoice>)
    ensures NoDuplicates(PartnerOrder(invoices))
    ensures forall i :: 0 <= i < |invoices| ==> invoices[i].partnerName in PartnerOrder(invoices)
    ensures forall name :: name in PartnerOrder(invoices) ==>
      exists i :: 0 <= i < |invoices| && invoices[i].partnerName == name
  {
    if invoices != [] {
      var init := invoices[..|invoices| - 1];
      PartnerOrderKeys(init);
      assert forall i :: 0 <= i < |init| ==> init[i] == invoices[i];
    }
  }

  /** Every invoice of `later` is preceded by some invoice of `earlier`. */
  ghost predicate AppearsBefore(invoices: seq<Invoice>, earlier: string, later: string)
  {
    forall j :: 0 <= j < |invoices| && invoices[j].partnerName == later ==>
      exists i :: 0 <= i < j && invoices[i].partnerName == earlier
  }

  /**
   * The keys come in order of first appearance: whenever key `a` comes
   * before key `b`, every invoice of `b` is preceded by some invoice of `a`.
   */
  lemma {:induction false} PartnerOrderFirstAppearance(invoices: seq<Invoice>)
    ensures forall a, b :: 0 <= a < b < |PartnerOrder(invoices)| ==>
      AppearsBefore(invoices, PartnerOrder(invoices)[a], PartnerOrder(invoices)[b])
  {
    if invoices != [] {
      var init := invoices[..|invoices| - 1];
      var order := PartnerOrder(invoices);
      var seen := PartnerOrder(init);
      PartnerOrderFirstAppearance(init);
      PartnerOrderKeys(init);
      var last := invoices[|invoices| - 1];
      assert init + [last] == invoices;
      forall a, b | 0 <= a < b < |order|
        ensures AppearsBefore(invoices, order[a], order[b])
      {
        assert order[a] == seen[a] && seen[a] in seen;
        var w :| 0 <= w < |init| && init[w].partnerName == seen[a];
        if b < |seen| {
          AppearsBeforeExtend(init, last, seen[a], seen[b], w);
        } else {
          assert last.partnerName !in seen;
          AppearsBeforeNew(init, last, seen[a], w);
        }
      }
    }
  }

  /** An appended invoice of a partner already met is preceded by every earlier partner. */
  lemma AppearsBeforeExtend(init: seq<Invoice>, last: Invoice, earlier: string, later: string, w: nat)
    requires AppearsBefore(init, earlier, later)
    requires w < |init| && init[w].partnerName == earlier
    ensures AppearsBefore(init + [last], earlier, later)
  {
    var invoices := init + [last];
    forall j | 0 <= j < |invoices| && invoices[j].partnerName == later
      ensures exists i :: 0 <= i < j && invoices[i].partnerName == earlier
    {
      if j < |init| {
        assert invoices[j] == init[j];
        var i :| 0 <= i < j && init[i].partnerName == earlier;
        assert invoices[i] == init[i];
      } else {
        assert invoices[w] == init[w];
      }
    }
  }

  /** The invoice that introduces a new partner is preceded by every partner met before. */
  lemma AppearsBeforeNew(init: seq<Invoice>, last: Invoice, earlier: string, w: nat)
    requires forall i :: 0 <= i < |init| ==> init[i].partnerName != last.partnerName
    requires w < |init| && init[w].partnerName == earlier
    ensures AppearsBefore(init + [last], earlier, last.partnerName)
  {
    var invoices := init + [last];
    forall j | 0 <= j < |invoices| && invoices[j].partnerName == last.partnerName
      ensures exists i :: 0 <= i < j && invoices[i].partnerName == earlier
    {
      if j < |init| {
        assert false;
      } else {
        assert invoices[w] == init[w];
      }
    }
  }

  /** A partner has a non-empty group exactly when it is a key. */
  lemma {:induction false} GroupNonEmptyIffKey(invoices: seq<Invoice>, partner: string)
    ensures InvoicesOf(invoices, partner) != [] <==> partner in PartnerOrder(invoices)
  {
    if invoices != [] {
      var init := invoices[..|invoices| - 1];
      var last := invoices[|invoices| - 1];
      assert invoices == init + [last];
      InvoicesOfSnoc(init, last, partner);
      GroupNonEmptyIffKey(init, partner);
    }
  }

  /**
   * Every invoice belongs to the group keyed by its partner name and to no
   * other group.
   */
  lemma InvoiceInExactlyOneGroup(invoices: seq<Invoice>, i: nat)
    requires i < |invoices|
    ensures invoices[i].partnerName in PartnerOrder(invoices)
    ensures invoices[i] in InvoicesOf(invoices, invoices[i].partnerName)
    ensures forall partner :: partner != invoices[i].partnerName ==> invoices[i] !in InvoicesOf(invoices, partner)
  {
    PartnerOrderKeys(invoices);
    InvoicesOfIsFilter(invoices, invoices[i].partnerName);
    FilterCount(invoices, HasPartner(invoices[i].partnerName), invoices[i]);
    forall partner ensures InvoicesOf(invoices, partner) == Filter(invoices, HasPartner(partner)) {
      InvoicesOfIsFilter(invoices, partner);
    }
  }

  /**
   * Within its group an invoice keeps its input position relative to the
   * others: the group picks, at strictly increasing positions, exactly the
   * invoices of that partner.
   */
  lemma GroupKeepsInputOrder(invoices: seq<Invoice>, partner: string)
    ensures |FilterIndices(invoices, HasPartner(partner))| == |InvoicesOf(invoices, partner)|
    ensures forall t :: 0 <= t < |InvoicesOf(invoices, partner)| ==>
      FilterIndices(invoices, HasPartner(partner))[t] < |invoices| &&
      InvoicesOf(invoices, partner)[t] == invoices[FilterIndices(invoices, HasPartner(partner))[t]]
    ensures forall t, u :: 0 <= t < u < |InvoicesOf(invoices, partner)| ==>
      FilterIndices(invoices, HasPartner(partner))[t] < FilterIndices(invoices, HasPartner(partner))[u]
    ensures forall i :: 0 <= i < |invoices| ==>
      (invoices[i].partnerName == partner <==> i in FilterIndices(invoices, HasPartner(partner)))
  {
    InvoicesOfIsFilter(invoices, partner);
    FilterIsOrderedSelection(invoices, HasPartner(partner));
  }

  /**
   * Concatenating the groups of distinct keys gives each invoice as often as
   * the input does if its partner is one of the keys, and never otherwise.
   */
  lemma {:induction false} ConcatGroupsCount(invoices: seq<Invoice>, partners: seq<string>, x: Invoice)
    requires NoDuplicates(partners)
    ensures multiset(ConcatGroups(invoices, partners))[x] ==
      if x.partnerName in partners then multiset(invoices)[x] else 0
  {
    if partners != [] {
      var init := partners[..|partners| - 1];
      var last := partners[|partners| - 1];
      assert partners == init + [last];
      ConcatGroupsCount(invoices, init, x);
      InvoicesOfIsFilter(invoices, last);
      FilterCount(invoices, HasPartner(last), x);
    }
  }

  /** The groups, concatenated in key order, are a permutation of the input. */
  lemma GroupsArePermutation(invoices: seq<Invoice>)
    ensures multiset(ConcatGroups(invoices, PartnerOrder(invoices))) == multiset(invoices)
    ensures |ConcatGroups(invoices, PartnerOrder(invoices))| == |invoices|
  {
    var order := PartnerOrder(invoices);
    PartnerOrderKeys(invoices);
    forall x ensures multiset(ConcatGroups(invoices, order))[x] == multiset(invoices)[x] {
      ConcatGroupsCount(invoices, order, x);
      if x in invoices {
        var i :| 0 <= i < |invoices| && invoices[i] == x;
      }
    }
    assert multiset(ConcatGroups(invoices, order)) == multiset(invoices);
    assert |multiset(ConcatGroups(invoices, order))| == |multiset(invoices)|;
  }

  /**
   * `order` and `groups` are the dictionary built from `seen`: its keys in
   * insertion order, and under each key the invoices of that partner.
   */
  ghost predicate GroupedSoFar(seen: seq<Invoice>, order: seq<string>, groups: map<string, seq<Invoice>>)
  {
    && order == PartnerOrder(seen)
    && (forall name :: name in groups <==> name in order)
    && (forall name :: InvoicesOf(seen, name) == if name in groups then groups[name] else [])
  }

  /**
   * Handling one more invoice keeps the dictionary in step: a new key when
   * its partner is met for the first time, and the invoice appended to that
   * key's list.
   */
  lemma GroupedSoFarStep(invoices: seq<Invoice>, i: nat, order: seq<string>, groups: map<string, seq<Invoice>>)
    requires i < |invoices|
    requires GroupedSoFar(invoices[..i], order, groups)
    ensures var name := invoices[i].partnerName;
      GroupedSoFar(invoices[..i + 1],
        if name in groups then order else order + [name],
        if name in groups then groups[name := groups[name] + [invoices[i]]] else groups[name := [invoices[i]]])
  {
    var seen, inv := invoices[..i], invoices[i];
    var name := inv.partnerName;
    var order2 := if name in groups then order else order + [name];
    var groups2 := if name in groups then groups[name := groups[name] + [inv]] else groups[name := [inv]];
    assert invoices[..i + 1] == seen + [inv];
    assert (seen + [inv])[..|seen|] == seen;
    assert order2 == PartnerOrder(seen + [inv]);
    forall n ensures n in groups2 <==> n in order2 {
    }
    forall n ensures InvoicesOf(seen + [inv], n) == if n in groups2 then groups2[n] else [] {
      InvoicesOfSnoc(seen, inv, n);
    }
  }

  /**
   * Builds `grouped_invoices`: for each invoice, a new key is added the first
   * time its partner name is met, and the invoice is appended to that key's
   * list. `order` is the dictionary's insertion order.
   */
  method GroupByPartner(invoices: seq<Invoice>) returns (order: seq<string>, groups: map<string, seq<Invoice>>)
    ensures order == PartnerOrder(invoices)
    ensures forall name :: name in groups <==> name in order
    ensures forall name :: name in groups ==> groups[name] == InvoicesOf(invoices, name)
  {
    order, groups := [], map[];
    for i := 0 to |invoices|
      invariant GroupedSoFar(invoices[..i], order, groups)
    {
      var inv := invoices[i];
      GroupedSoFarStep(invoices, i, order, groups);
      if inv.partnerName !in groups {
        order := order + [inv.partnerName];
        groups := groups[inv.partnerName := [inv]];
      } else {
        groups := groups[inv.partnerName := groups[inv.partnerName] + [inv]];
      }
    }
    assert invoices[..|invoices|] == invoices;
  }
}
