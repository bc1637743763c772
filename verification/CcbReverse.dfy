/**
 * A target daemon's reversed connections: the orders that a broker sends it, the hellos that
 * it writes to clients and the reports that it writes back, over all its connections.
 */
module CcbReverse {
  import opened CcbReconnectFile
  import opened CcbServerSpec

  /** An order to connect to `returnAddr`, which a broker sent over `sock` to the target it knows as `ccbid`. */
  datatype Order = Order(sock: SockId, ccbid: CcbId, requestId: CcbId, returnAddr: string, connectId: string)

  /** What a listener writes about an order: a hello to the client, and a report to the broker. */
  datatype Sent = Hello(order: Order) | Report(order: Order, success: bool)

  /** The orders whose connections are under way, all that were ever received, and all that was written about them. */
  datatype Reverse = Reverse(pending: seq<Order>, received: seq<Order>, sent: seq<Sent>)

  const NONE := Reverse([], [], [])

  /** An order arrives; its connection is begun, or the broker is told that it could not be. */
  function Take(r: Reverse, order: Order, begun: bool, told: bool): Reverse
  {
    Reverse(if begun then r.pending + [order] else r.pending, r.received + [order],
            if begun then r.sent else Tell(r.sent, order, false, told))
  }

  /** A connection is made or not; the client is greeted if it is, and then the broker is told. */
  function Close(r: Reverse, i: nat, greeted: bool, told: bool): Reverse
    requires i < |r.pending|
  {
    Reverse(r.pending[..i] + r.pending[i + 1..], r.received,
            Tell(Greet(r.sent, r.pending[i], greeted), r.pending[i], greeted, told))
  }

  function Greet(sent: seq<Sent>, order: Order, greeted: bool): seq<Sent>
  {
    if greeted then sent + [Hello(order)] else sent
  }

  function Tell(sent: seq<Sent>, order: Order, success: bool, told: bool): seq<Sent>
  {
    if told then sent + [Report(order, success)] else sent
  }

  /** Every success that is reported comes right after its hello. */
  ghost predicate Honest(sent: seq<Sent>)
  {
    forall i :: 0 <= i < |sent| && sent[i].Report? && sent[i].success ==> i > 0 && sent[i - 1] == Hello(sent[i].order)
  }

  /** How often an order was received, or is under way. */
  function Times(orders: seq<Order>, order: Order): nat
  {
    if orders == [] then 0
    else Times(orders[..|orders| - 1], order) + if orders[|orders| - 1] == order then 1 else 0
  }

  function Hellos(sent: seq<Sent>, order: Order): nat
  {
    if sent == [] then 0
    else Hellos(sent[..|sent| - 1], order) + if sent[|sent| - 1] == Hello(order) then 1 else 0
  }

  function Reports(sent: seq<Sent>, order: Order): nat
  {
    if sent == [] then 0
    else Reports(sent[..|sent| - 1], order) + if Reporting(sent[|sent| - 1], order) then 1 else 0
  }

  predicate Reporting(x: Sent, order: Order)
  {
    x.Report? && x.order == order
  }

  /** No order is greeted or reported more often than it was received, those under way not at all yet. */
  ghost predicate AtMostOnce(r: Reverse, order: Order)
  {
    && Hellos(r.sent, order) + Times(r.pending, order) <= Times(r.received, order)
    && Reports(r.sent, order) + Times(r.pending, order) <= Times(r.received, order)
  }

  ghost predicate Proper(r: Reverse)
  {
    Honest(r.sent) && forall order :: AtMostOnce(r, order)
  }

  lemma TimesMore(orders: seq<Order>, x: Order, order: Order)
    ensures Times(orders + [x], order) == Times(orders, order) + if x == order then 1 else 0
  {
    assert (orders + [x])[..|orders|] == orders;
  }

  lemma {:induction false} TimesLess(orders: seq<Order>, i: nat, order: Order)
    requires i < |orders|
    ensures Times(orders, order) ==
            Times(orders[..i] + orders[i + 1..], order) + if orders[i] == order then 1 else 0
  {
    hide Times;
    var front, last := orders[..|orders| - 1], orders[|orders| - 1];
    assert orders == front + [last];
    TimesMore(front, last, order);
    if i == |front| {
      assert orders[..i] + orders[i + 1..] == front;
    } else {
      TimesLess(front, i, order);
      var rest := front[..i] + front[i + 1..];
      assert orders[..i] + orders[i + 1..] == rest + [last];
      TimesMore(rest, last, order);
    }
  }

  lemma SentMore(sent: seq<Sent>, x: Sent, order: Order)
    ensures Hellos(sent + [x], order) == Hellos(sent, order) + if x == Hello(order) then 1 else 0
    ensures Reports(sent + [x], order) == Reports(sent, order) + if Reporting(x, order) then 1 else 0
  {
    assert (sent + [x])[..|sent|] == sent;
  }

  lemma TakeOnce(r: Reverse, order: Order, begun: bool, told: bool, q: Order)
    requires AtMostOnce(r, q)
    ensures AtMostOnce(Take(r, order, begun, told), q)
  {
    hide Times, Hellos, Reports;
    SentMore(r.sent, Report(order, false), q);
    TimesMore(r.pending, order, q);
    TimesMore(r.received, order, q);
  }

  lemma CloseOnce(r: Reverse, i: nat, greeted: bool, told: bool, q: Order)
    requires AtMostOnce(r, q) && i < |r.pending|
    ensures AtMostOnce(Close(r, i, greeted, told), q)
  {
    hide Times, Hellos, Reports;
    var order := r.pending[i];
    SentMore(r.sent, Hello(order), q);
    SentMore(Greet(r.sent, order, greeted), Report(order, greeted), q);
    TimesLess(r.pending, i, q);
  }

  lemma NothingProper()
    ensures Proper(NONE)
  {
    assert forall order :: AtMostOnce(NONE, order);
  }

  lemma TakeProper(r: Reverse, order: Order, begun: bool, told: bool)
    requires Proper(r)
    ensures Proper(Take(r, order, begun, told))
  {
    forall q
      ensures AtMostOnce(Take(r, order, begun, told), q)
    {
      TakeOnce(r, order, begun, told, q);
    }
  }

  lemma CloseProper(r: Reverse, i: nat, greeted: bool, told: bool)
    requires Proper(r) && i < |r.pending|
    ensures Proper(Close(r, i, greeted, told))
  {
    forall q
      ensures AtMostOnce(Close(r, i, greeted, told), q)
    {
      CloseOnce(r, i, greeted, told, q);
    }
  }

  /** What is written about an order that is settled: a hello if the connection is made, a report if it can be sent. */
  lemma CloseWrites(r: Reverse, i: nat, greeted: bool, told: bool)
    requires i < |r.pending|
    ensures var o := r.pending[i];
            Close(r, i, greeted, told).sent == r.sent
              + (if greeted then [Hello(o)] else [])
              + (if told then [Report(o, greeted)] else [])
  {
  }

  lemma TakeWrites(r: Reverse, order: Order, begun: bool, told: bool)
    ensures Take(r, order, begun, told).sent == r.sent + if !begun && told then [Report(order, false)] else []
    ensures Take(r, order, begun, told).pending == r.pending + if begun then [order] else []
  {
  }
}
