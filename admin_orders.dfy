/**
 * The admin order list of app/admin/orders/page.tsx: the order status flow,
 * status updates by order id, the search and status filter, and the
 * `formatStatus` label.
 */
module AdminOrders {
  import opened Text
  import opened ListOps
  import opened CheckoutPage

  /** `statusFlow`: each status and the one after it; delivered is final. */
  const StatusFlow: map<string, string> := map[
    "confirmed" := "preparing",
    "preparing" := "out_for_delivery",
    "out_for_delivery" := "delivered",
    "delivered" := "delivered"]

  /** `getNextStatus`: the flow's successor, or the status itself when it is not in the flow. */
  function NextStatus(status: string): (r: string)
    ensures status !in StatusFlow ==> r == status
    ensures status in StatusFlow ==> r in StatusFlow
  {
    if status in StatusFlow then StatusFlow[status] else status
  }

  /** The position of a known status along the flow. */
  function StatusRank(status: string): (r: nat)
    requires status in StatusFlow
    ensures r <= 3
    ensures r == 3 <==> status == "delivered"
  {
    match status
    case "confirmed" => 0
    case "preparing" => 1
    case "out_for_delivery" => 2
    case _ => 3
  }

  /** The three forward steps, and delivered as a fixed point. */
  lemma NextStatusSteps()
    ensures NextStatus("confirmed") == "preparing"
    ensures NextStatus("preparing") == "out_for_delivery"
    ensures NextStatus("out_for_delivery") == "delivered"
    ensures NextStatus("delivered") == "delivered"
    ensures NextStatus(NextStatus("delivered")) == NextStatus("delivered")
  {
  }

  /** A known status stays known and never moves back: one step forward, or stays at delivered. */
  lemma NextStatusAdvances(status: string)
    requires status in StatusFlow
    ensures NextStatus(status) in StatusFlow
    ensures status != "delivered" ==> StatusRank(NextStatus(status)) == StatusRank(status) + 1
    ensures status == "delivered" ==> NextStatus(status) == status
  {
  }

  /** `n` clicks of "Mark as next". */
  function Advance(status: string, n: nat): string
    decreases n
  {
    if n == 0 then status else Advance(NextStatus(status), n - 1)
  }

  /** Enough steps from a known status always reach delivered. */
  lemma {:induction false} AdvanceReachesDelivered(status: string, n: nat)
    requires status in StatusFlow && n >= 3 - StatusRank(status)
    ensures Advance(status, n) == "delivered"
    decreases n
  {
    if n > 0 {
      NextStatusAdvances(status);
      AdvanceReachesDelivered(NextStatus(status), n - 1);
    }
  }

  /** From any known status, three steps suffice. */
  lemma DeliveredWithinThreeSteps(status: string)
    requires status in StatusFlow
    ensures Advance(status, 3) == "delivered"
  {
    AdvanceReachesDelivered(status, 3);
  }

  /** Progress along the flow never decreases the rank. */
  lemma {:induction false} AdvanceNeverBackward(status: string, n: nat)
    requires status in StatusFlow
    ensures Advance(status, n) in StatusFlow
    ensures StatusRank(Advance(status, n)) >= StatusRank(status)
    decreases n
  {
    if n > 0 {
      NextStatusAdvances(status);
      AdvanceNeverBackward(NextStatus(status), n - 1);
    }
  }

  /** The `map` of `updateOrderStatus`: orders with the id get the new status. */
  function WithStatus(orders: seq<Order>, orderId: string, newStatus: string): seq<Order>
  {
    seq(|orders|, i requires 0 <= i < |orders| =>
      if orders[i].id == orderId then orders[i].(status := newStatus) else orders[i])
  }

  /** Only the status of orders with that id changes; the list keeps its length and order. */
  lemma WithStatusChangesOnlyThoseOrders(orders: seq<Order>, orderId: string, newStatus: string)
    ensures |WithStatus(orders, orderId, newStatus)| == |orders|
    ensures forall i :: 0 <= i < |orders| && orders[i].id == orderId ==>
      WithStatus(orders, orderId, newStatus)[i] == orders[i].(status := newStatus)
    ensures forall i :: 0 <= i < |orders| && orders[i].id != orderId ==>
      WithStatus(orders, orderId, newStatus)[i] == orders[i]
    ensures (forall i :: 0 <= i < |orders| ==> orders[i].id != orderId) ==> WithStatus(orders, orderId, newStatus) == orders
  {
  }

  /** The row menu's two actions. */
  datatype StatusAction = MarkAsNext | ResetToConfirmed

  /** "Mark as next" is offered below delivered; "Reset to Confirmed" is enabled off confirmed. */
  function AvailableActions(order: Order): (r: set<StatusAction>)
    ensures MarkAsNext in r <==> order.status != "delivered"
    ensures ResetToConfirmed in r <==> order.status != "confirmed"
  {
    (if order.status != "delivered" then {MarkAsNext} else {})
      + (if order.status != "confirmed" then {ResetToConfirmed} else {})
  }

  /** The status an action writes. */
  function ActionStatus(order: Order, action: StatusAction): (r: string)
    ensures action == ResetToConfirmed ==> r == "confirmed"
    ensures order.status in StatusFlow ==> r in StatusFlow
    ensures action == MarkAsNext && order.status in StatusFlow && order.status != "delivered" ==>
      StatusRank(r) == StatusRank(order.status) + 1
  {
    match action
    case MarkAsNext => NextStatus(order.status)
    case ResetToConfirmed => "confirmed"
  }

  /** An offered action always changes a known status. */
  lemma OfferedActionChangesStatus(order: Order, action: StatusAction)
    requires order.status in StatusFlow && action in AvailableActions(order)
    ensures ActionStatus(order, action) != order.status
  {
  }

  /** Search by id, case-insensitively. */
  function IdMatches(term: string): Order -> bool
  {
    (o: Order) => Contains(Lower(o.id), Lower(term))
  }

  /** Keep one status. */
  function HasStatus(status: string): Order -> bool
  {
    (o: Order) => o.status == status
  }

  /** The `useEffect` that sets `filteredOrders`: the search, then the status unless "all". */
  function FilterOrders(orders: seq<Order>, searchTerm: string, statusFilter: string): seq<Order>
  {
    var bySearch := if searchTerm != "" then Filter(orders, IdMatches(searchTerm)) else orders;
    if statusFilter != "all" then Filter(bySearch, HasStatus(statusFilter)) else bySearch
  }

  /**
   * The filter keeps, in their original order, exactly the orders whose
   * lower-cased id contains the lower-cased term and whose status is the
   * selected one (any status under "all"), each as often as in the list.
   */
  lemma FilterOrdersKeepsExactlyMatches(orders: seq<Order>, searchTerm: string, statusFilter: string)
    ensures IsSubsequence(FilterOrders(orders, searchTerm, statusFilter), orders)
    ensures forall o :: o in FilterOrders(orders, searchTerm, statusFilter) <==>
      o in orders && Contains(Lower(o.id), Lower(searchTerm)) && (statusFilter == "all" || o.status == statusFilter)
    ensures forall o ::
      multiset(FilterOrders(orders, searchTerm, statusFilter))[o] ==
        (if Contains(Lower(o.id), Lower(searchTerm)) && (statusFilter == "all" || o.status == statusFilter)
         then multiset(orders)[o] else 0)
  {
    var bySearch := if searchTerm != "" then Filter(orders, IdMatches(searchTerm)) else orders;
    if searchTerm != "" {
      FilterIsSubsequence(orders, IdMatches(searchTerm));
    } else {
      forall o: Order ensures Contains(Lower(o.id), Lower(searchTerm)) {
        ContainsEmpty(Lower(o.id));
      }
    }
    if statusFilter != "all" {
      FilterIsSubsequence(bySearch, HasStatus(statusFilter));
      if searchTerm != "" {
        SubsequenceTransitive(FilterOrders(orders, searchTerm, statusFilter), bySearch, orders);
      }
    } else if searchTerm == "" {
      SubsequenceReflexive(orders);
    }
    forall o ensures multiset(FilterOrders(orders, searchTerm, statusFilter))[o] ==
        (if Contains(Lower(o.id), Lower(searchTerm)) && (statusFilter == "all" || o.status == statusFilter)
         then multiset(orders)[o] else 0)
    {
      FilterOrdersCount(orders, searchTerm, statusFilter, o);
    }
  }

  /** How often one order occurs in the filtered listing. */
  lemma FilterOrdersCount(orders: seq<Order>, searchTerm: string, statusFilter: string, o: Order)
    ensures multiset(FilterOrders(orders, searchTerm, statusFilter))[o] ==
      (if Contains(Lower(o.id), Lower(searchTerm)) && (statusFilter == "all" || o.status == statusFilter)
       then multiset(orders)[o] else 0)
  {
    var bySearch := if searchTerm != "" then Filter(orders, IdMatches(searchTerm)) else orders;
    if searchTerm != "" {
      FilterCount(orders, IdMatches(searchTerm), o);
    } else {
      ContainsEmpty(Lower(o.id));
    }
    if statusFilter != "all" {
      FilterCount(bySearch, HasStatus(statusFilter), o);
    }
  }

  /** `word.charAt(0).toUpperCase() + word.slice(1)`. */
  function Capitalize(word: string): (r: string)
    ensures |r| == |word|
    ensures word != [] ==> r[0] == UpperChar(word[0]) && r[1..] == word[1..]
  {
    if word == [] then [] else [UpperChar(word[0])] + word[1..]
  }

  function CapitalizeAll(words: seq<string>): (r: seq<string>)
    ensures |r| == |words|
    ensures forall i :: 0 <= i < |words| ==> r[i] == Capitalize(words[i])
  {
    if words == [] then [] else [Capitalize(words[0])] + CapitalizeAll(words[1..])
  }

  /** `formatStatus`: split on "_", capitalize each word, join with spaces. */
  function FormatStatus(status: string): string
  {
    Join(CapitalizeAll(Split(status, '_')), ' ')
  }

  /**
   * The label read character by character: underscores become spaces, the
   * first character and every character after an underscore are upper-cased,
   * the rest are kept. `atStart` says whether a word begins here.
   */
  function Label(s: string, atStart: bool): (r: string)
    ensures |r| == |s|
  {
    if s == [] then []
    else if s[0] == '_' then [' '] + Label(s[1..], true)
    else [if atStart then UpperChar(s[0]) else s[0]] + Label(s[1..], false)
  }

  /** Capitalize the first word only when it begins a word. */
  function CapitalizeFrom(words: seq<string>, atStart: bool): seq<string>
    requires words != []
  {
    [if atStart then Capitalize(words[0]) else words[0]] + CapitalizeAll(words[1..])
  }

  lemma {:induction false} LabelOfSplit(s: string, atStart: bool)
    ensures Label(s, atStart) == Join(CapitalizeFrom(Split(s, '_'), atStart), ' ')
  {
    if s != [] {
      var rest := Split(s[1..], '_');
      if s[0] == '_' {
        LabelOfSplit(s[1..], true);
        assert Split(s, '_') == [[]] + rest;
        assert CapitalizeFrom(Split(s, '_'), atStart) == [[]] + CapitalizeAll(rest);
        assert CapitalizeFrom(rest, true) == CapitalizeAll(rest);
      } else {
        LabelOfSplit(s[1..], false);
        var c := if atStart then UpperChar(s[0]) else s[0];
        assert Split(s, '_') == [[s[0]] + rest[0]] + rest[1..];
        assert CapitalizeFrom(Split(s, '_'), atStart) == [[c] + rest[0]] + CapitalizeAll(rest[1..]);
        JoinConsFirst(c, rest[0], CapitalizeAll(rest[1..]), ' ');
      }
    }
  }

  /** `formatStatus` equals the character-by-character reading. */
  lemma FormatStatusIsLabel(status: string)
    ensures FormatStatus(status) == Label(status, true)
  {
    LabelOfSplit(status, true);
    var words := Split(status, '_');
    assert CapitalizeFrom(words, true) == CapitalizeAll(words);
  }

  lemma {:induction false} LabelAt(s: string, atStart: bool, i: nat)
    requires i < |s|
    ensures Label(s, atStart)[i]
         == if s[i] == '_' then ' '
            else if (if i == 0 then atStart else s[i - 1] == '_') then UpperChar(s[i])
            else s[i]
  {
    if i > 0 {
      LabelAt(s[1..], s[0] == '_', i - 1);
    }
  }

  /**
   * `formatStatus` keeps the length; each underscore becomes a space, the
   * first character and each one after an underscore are upper-cased, and
   * every other character is kept.
   */
  lemma FormatStatusCharacters(status: string)
    ensures |FormatStatus(status)| == |status|
    ensures forall i :: 0 <= i < |status| ==>
      FormatStatus(status)[i]
        == (if status[i] == '_' then ' '
            else if i == 0 || status[i - 1] == '_' then UpperChar(status[i])
            else status[i])
  {
    FormatStatusIsLabel(status);
    forall i | 0 <= i < |status|
      ensures Label(status, true)[i]
           == if status[i] == '_' then ' '
              else if i == 0 || status[i - 1] == '_' then UpperChar(status[i])
              else status[i]
    {
      LabelAt(status, true, i);
    }
  }

  /** "out_for_delivery" is the three words joined by underscores. */
  lemma StatusWords()
    ensures Split("out_for_delivery", '_') == ["out", "for", "delivery"]
  {
    assert Join(["out", "for", "delivery"], '_') == "out_for_delivery";
    SplitJoin(["out", "for", "delivery"], '_');
  }

  /** Each word gets its first letter upper-cased. */
  lemma CapitalizedWords()
    ensures CapitalizeAll(["out", "for", "delivery"]) == ["Out", "For", "Delivery"]
  {
    var caps := CapitalizeAll(["out", "for", "delivery"]);
    assert caps[0] == Capitalize("out") == "Out";
    assert caps[1] == Capitalize("for") == "For";
    assert caps[2] == Capitalize("delivery") == "Delivery";
  }

  /** The label of the third step. */
  lemma OutForDeliveryLabel()
    ensures FormatStatus("out_for_delivery") == "Out For Delivery"
  {
    calc {
      FormatStatus("out_for_delivery");
    == { StatusWords(); }
      Join(CapitalizeAll(["out", "for", "delivery"]), ' ');
    == { CapitalizedWords(); }
      Join(["Out", "For", "Delivery"], ' ');
    ==
      "Out For Delivery";
    }
  }

  /** The admin page's state: the loaded orders and the two filter inputs. */
  class OrdersPage {
    var orders: seq<Order>
    var searchTerm: string
    var statusFilter: string

    /** Orders are loaded from storage, here passed in. */
    constructor (stored: seq<Order>)
      ensures orders == stored && searchTerm == "" && statusFilter == "all"
    {
      orders := stored;
      searchTerm := "";
      statusFilter := "all";
    }

    /** `filteredOrders`, recomputed whenever an input changes. */
    function Visible(): seq<Order>
      reads this
    {
      FilterOrders(orders, searchTerm, statusFilter)
    }

    /** `updateOrderStatus`: the new list replaces the old one (and is written back to storage). */
    method UpdateOrderStatus(orderId: string, newStatus: string)
      modifies this
      ensures orders == WithStatus(old(orders), orderId, newStatus)
      ensures searchTerm == old(searchTerm) && statusFilter == old(statusFilter)
    {
      orders := WithStatus(orders, orderId, newStatus);
    }

    /** A click on one of the row menu's offered actions for `order`. */
    method ApplyAction(order: Order, action: StatusAction)
      requires action in AvailableActions(order)
      modifies this
      ensures orders == WithStatus(old(orders), order.id, ActionStatus(order, action))
      ensures searchTerm == old(searchTerm) && statusFilter == old(statusFilter)
    {
      UpdateOrderStatus(order.id, ActionStatus(order, action));
    }
  }
}
