/** `OrderGenerator`: acquisition orders placed with the generated vendors,
    each with one to six order lines for distinct documents. Dates are
    microseconds since the epoch; prices are left out. */
module OrderGenerator {
  import opened Base
  import opened Random
  import opened Records
  import opened Holders
  import DocumentGenerator

  const RECEIVED := "RECEIVED"
  const CANCELLED := "CANCELLED"
  /** `datetime(2010, 1, 1)`. */
  const JANUARY_2010: Instant := 1_262_304_000 * SECOND

  /** `random_date(start, end)`: `start` plus a whole number of seconds
      drawn by `randrange` below the whole seconds of `end - start`, so the
      date is at least a second before `end`. `randrange(0)` raises
      ValueError when the two are less than a second apart. */
  function RandomDate(src: Source, c: Cursor, start: Instant, end: Instant): (r: Result<Drawn<Instant>>)
    ensures r.Err? <==> end - start < SECOND
    ensures r.Err? ==> r.error == ValueError
    ensures r.Ok? ==> start <= r.value.value && r.value.value + SECOND <= end
    ensures r.Ok? ==> (r.value.value - start) % SECOND == 0
    ensures r.Ok? ==> r.value.next == Skip(c, 1)
  {
    var seconds := (end - start) / SECOND;
    if seconds <= 0 then Err(ValueError)
    else
      var offset := RandRange(src, c, seconds);
      Ok(Drawn(start + offset.value * SECOND, offset.next))
  }

  /** What `random_order_lines(status)` promises of a line: one to five
      copies ordered, and copies received (from one up to the copies
      ordered) only when the order was received. */
  predicate LineFits(line: OrderLine, status: string, patronsPids: seq<Pid>) {
    && 1 <= line.copiesOrdered <= 5
    && (if status == RECEIVED then 1 <= line.copiesReceived <= line.copiesOrdered else line.copiesReceived == 0)
    && line.patronPid in patronsPids
    && line.medium == "PAPER" && line.paymentMode == "CREDIT_CARD"
    && line.purchaseType == "PERPETUAL" && line.recipient == "PATRON"
  }

  /** The document PIDs of some order lines, in order. */
  function LinePids(lines: seq<OrderLine>): (r: seq<Pid>)
    ensures |r| == |lines|
    ensures forall i :: 0 <= i < |lines| ==> r[i] == lines[i].documentPid
  {
    if lines == [] then [] else LinePids(lines[..|lines| - 1]) + [lines[|lines| - 1].documentPid]
  }

  /** One line of `random_order_lines`: copies ordered, copies received,
      donation and suggestion flags, notes, patron and the two prices (each
      a currency choice and a float, drawn but not kept). */
  function OrderLineFor(src: Source, c: Cursor, documentPid: Pid, status: string, patronsPids: seq<Pid>)
    : (r: Result<Drawn<OrderLine>>)
    ensures r.Err? <==> patronsPids == []
    ensures r.Err? ==> r.error == IndexError
    ensures r.Ok? ==> LineFits(r.value.value, status, patronsPids) && r.value.value.documentPid == documentPid
    ensures r.Ok? ==> r.value.next.minted == c.minted
  {
    var ordered := RandInt(src, c, 1, 5);
    var received := if status == RECEIVED then RandInt(src, ordered.next, 1, ordered.value) else Drawn(0, ordered.next);
    var donation := Choice(src, received.next, [true, false]);
    var suggestion := Choice(src, donation.next, [true, false]);
    var notes := Sentence(src, suggestion.next);
    if patronsPids == [] then Err(IndexError)
    else
      var patron := Choice(src, notes.next, patronsPids);
      var prices := Skip(patron.next, 4);
      Ok(Drawn(
        OrderLine(ordered.value, received.value, documentPid, donation.value, suggestion.value,
                  "PAPER", notes.value, patron.value, "CREDIT_CARD", "PERPETUAL", "PATRON"),
        prices))
  }

  /** The loop of `random_order_lines` from the line for `pids[0]` on. */
  function OrderLinesFor(src: Source, c: Cursor, pids: seq<Pid>, status: string, patronsPids: seq<Pid>)
    : (r: Result<Drawn<seq<OrderLine>>>)
    ensures r.Err? ==> r.error == IndexError
    ensures r.Err? <==> patronsPids == [] && pids != []
    ensures r.Ok? ==> LinePids(r.value.value) == pids
    ensures r.Ok? ==> forall i :: 0 <= i < |r.value.value| ==> LineFits(r.value.value[i], status, patronsPids)
    ensures r.Ok? ==> r.value.next.minted == c.minted
    decreases |pids|
  {
    if pids == [] then Ok(Drawn([], c))
    else
      match OrderLineFor(src, c, pids[0], status, patronsPids)
      case Err(e) => Err(e)
      case Ok(line) =>
        match OrderLinesFor(src, line.next, pids[1..], status, patronsPids)
        case Err(e) => Err(e)
        case Ok(rest) =>
          var lines := [line.value] + rest.value;
          assert lines[1..] == rest.value;
          LinePidsCons(line.value, rest.value);
          Ok(Drawn(lines, rest.next))
  }

  /** `LinePids` of a list with a first line. */
  lemma {:induction false} LinePidsCons(line: OrderLine, rest: seq<OrderLine>)
    ensures LinePids([line] + rest) == [line.documentPid] + LinePids(rest)
  {
    var lhs := LinePids([line] + rest);
    assert |lhs| == |[line.documentPid] + LinePids(rest)|;
    forall i | 0 <= i < |lhs| ensures lhs[i] == ([line.documentPid] + LinePids(rest))[i] {
      if i > 0 {
        assert ([line] + rest)[i] == rest[i - 1];
      }
    }
  }

  /** `random_order_lines(status)`: `randint(1, 6)` lines for a sample of
      that many of the document PIDs, which raises ValueError when there are
      fewer documents than lines drawn; the lines then fit and name distinct
      documents of the holder, one each, when the document PIDs are
      distinct. */
  function RandomOrderLines(src: Source, c: Cursor, documentPids: seq<Pid>, status: string, patronsPids: seq<Pid>)
    : (r: Result<Drawn<seq<OrderLine>>>)
    ensures documentPids == [] ==> r == Err(ValueError)
    ensures r.Err? ==> r.error == ValueError || (r.error == IndexError && patronsPids == [])
    ensures |documentPids| >= 6 && patronsPids != [] ==> r.Ok?
    ensures r.Ok? ==> 1 <= |r.value.value| <= 6
    ensures r.Ok? ==> forall i :: 0 <= i < |r.value.value| ==>
      LineFits(r.value.value[i], status, patronsPids) && r.value.value[i].documentPid in documentPids
    ensures r.Ok? && Distinct(documentPids) ==> Distinct(LinePids(r.value.value))
    ensures r.Ok? ==> r.value.next.minted == c.minted
  {
    var count := RandInt(src, c, 1, 6);
    if count.value > |documentPids| then Err(ValueError)
    else
      var pids := Sample(src, count.next, documentPids, count.value);
      SampleDistinct(src, count.next, documentPids, count.value);
      match OrderLinesFor(src, pids.next, pids.value, status, patronsPids)
      case Err(e) => Err(e)
      case Ok(lines) =>
        assert forall i :: 0 <= i < |lines.value| ==> lines.value[i].documentPid == pids.value[i];
        Ok(lines)
  }

  /** What the loop of `generate` promises of an order placed at `now`. */
  predicate OrderFits(
    o: Order, now: Instant, statuses: seq<string>, librarianPid: Pid, vendorPids: seq<Pid>,
    documentPids: seq<Pid>, patronsPids: seq<Pid>)
  {
    && o.createdByPid == librarianPid
    && o.vendorPid in vendorPids
    && o.status in statuses
    && JANUARY_2010 <= o.orderDate && o.orderDate + SECOND <= now
    && now <= o.expectedDeliveryDate && o.expectedDeliveryDate + SECOND <= now + 400 * DAY
    && 1 <= |o.orderLines| <= 6
    && (forall i :: 0 <= i < |o.orderLines| ==>
          LineFits(o.orderLines[i], o.status, patronsPids) && o.orderLines[i].documentPid in documentPids)
    && (Distinct(documentPids) ==> Distinct(LinePids(o.orderLines)))
    && (o.cancelReason.Some? <==> o.status == CANCELLED)
    && (o.receivedDate.Some? <==> o.status == RECEIVED)
    && (o.receivedDate.Some? ==> o.orderDate <= o.receivedDate.value && o.receivedDate.value + SECOND <= now)
  }

  /** One turn of the loop of `generate`. The order date is drawn between
      2010 and `now` (ValueError if `now` is not a second past 2010); the
      received date is drawn between the order date and `now`, which the
      order date leaves at least a second for, so it never fails. */
  method NewOrder(
    src: Source, c: Cursor, now: Instant, statuses: seq<string>, librarianPid: Pid,
    vendorPids: seq<Pid>, documentPids: seq<Pid>, patronsPids: seq<Pid>) returns (r: Result<Drawn<Order>>)
    ensures now < JANUARY_2010 + SECOND ==> r == Err(ValueError)
    ensures r.Err? ==> r.error == ValueError || r.error == IndexError
    ensures (now >= JANUARY_2010 + SECOND && statuses != [] && vendorPids != []
             && |documentPids| >= 6 && patronsPids != []) ==> r.Ok?
    ensures r.Ok? ==> OrderFits(r.value.value, now, statuses, librarianPid, vendorPids, documentPids, patronsPids)
    ensures r.Ok? ==> r.value.value.pid == src.pid(c.minted) && r.value.next.minted == c.minted + 1
  {
    var orderDate := RandomDate(src, c, JANUARY_2010, now);
    if orderDate.Err? {
      return Err(orderDate.error);
    }
    if statuses == [] {
      return Err(IndexError);
    }
    var status := Choice(src, orderDate.value.next, statuses);
    var lines := RandomOrderLines(src, status.next, documentPids, status.value, patronsPids);
    if lines.Err? {
      return Err(lines.error);
    }
    var grandTotal := Skip(lines.value.next, 2);
    var pid := CreatePid(src, grandTotal);
    if vendorPids == [] {
      return Err(IndexError);
    }
    var vendor := Choice(src, pid.next, vendorPids);
    var notes := Sentence(src, vendor.next);
    var funds := Skip(notes.next, 1);
    var expected := RandomDate(src, funds, now, now + 400 * DAY);
    var order := Order(
      pid.value, librarianPid, vendor.value, status.value, orderDate.value.value, notes.value,
      lines.value.value, expected.value.value, None, None);
    var cur := expected.value.next;
    if status.value == CANCELLED {
      var reason := Sentence(src, cur);
      order := order.(cancelReason := Some(reason.value));
      cur := reason.next;
    } else if status.value == RECEIVED {
      var received := RandomDate(src, cur, orderDate.value.value, now);
      order := order.(receivedDate := Some(received.value.value));
      cur := received.value.next;
    }
    r := Ok(Drawn(order, cur));
  }

  /** `OrderGenerator.generate`, with `datetime.now()` read once as `now`:
      on success the holder's orders are `total` orders that fit, the k-th
      with the k-th PID of the supply; the list is stored only at the end,
      so on an exception the holder is left as it was. */
  method Generate(holder: Holder, src: Source, c0: Cursor, now: Instant, statuses: seq<string>)
    returns (r: Result<Cursor>)
    modifies holder`orders
    ensures r.Err? ==> holder.orders == old(holder.orders)
    ensures r.Err? ==> r.error == ValueError || r.error == IndexError
    ensures holder.totalOrders > 0 && now < JANUARY_2010 + SECOND ==> r == Err(ValueError)
    ensures (now >= JANUARY_2010 + SECOND && statuses != [] && holder.vendors != []
             && |holder.documents| >= 6 && holder.patronsPids != []) ==> r.Ok?
    ensures r.Ok? ==> |holder.orders| == holder.totalOrders
    ensures r.Ok? ==> r.value.minted == c0.minted + holder.totalOrders
    ensures r.Ok? ==> forall k :: 0 <= k < |holder.orders| ==>
      && holder.orders[k].pid == src.pid(c0.minted + k)
      && OrderFits(holder.orders[k], now, statuses, holder.librarianPid,
                   Pids(holder.vendors, (v: Vendor) => v.pid), holder.DocumentPids(), holder.patronsPids)
  {
    var size := holder.totalOrders;
    var vendorPids := Pids(holder.vendors, (v: Vendor) => v.pid);
    var documentPids := holder.DocumentPids();
    var objs: seq<Order> := [];
    var c := c0;
    while |objs| < size
      invariant |objs| <= size && c.minted == c0.minted + |objs|
      invariant holder.orders == old(holder.orders)
      invariant now < JANUARY_2010 + SECOND ==> objs == []
      invariant forall k :: 0 <= k < |objs| ==>
        objs[k].pid == src.pid(c0.minted + k)
        && OrderFits(objs[k], now, statuses, holder.librarianPid, vendorPids, documentPids, holder.patronsPids)
    {
      var next := NewOrder(src, c, now, statuses, holder.librarianPid, vendorPids, documentPids, holder.patronsPids);
      if next.Err? {
        return Err(next.error);
      }
      objs := objs + [next.value.value];
      c := next.value.next;
    }
    holder.orders := objs;
    r := Ok(c);
  }

  /** The order lines of a generated order name pairwise different
      documents whenever the holder's documents were minted as one run from a
      supply that never repeats a PID, which is how `DocumentGenerator`
      fills the holder. */
  lemma OrderLinesDistinct(
    o: Order, now: Instant, statuses: seq<string>, librarianPid: Pid, vendorPids: seq<Pid>,
    documents: seq<Document>, patronsPids: seq<Pid>, src: Source, first: nat)
    requires OrderFits(o, now, statuses, librarianPid, vendorPids, Pids(documents, (d: Document) => d.pid), patronsPids)
    requires FreshSupply(src) && DocumentGenerator.MintedFrom(documents, src, first)
    ensures Distinct(LinePids(o.orderLines))
  {
    DocumentGenerator.MintedDistinct(documents, src, first);
  }
}
