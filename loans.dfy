/** `LoanGenerator`: `total` loans on circulating items, each with the
    date fields its state calls for, never two loans holding the same item. */
module LoanGenerator {
  import opened Base
  import opened Random
  import opened Records
  import opened Holders

  const CAN_CIRCULATE := "CAN_CIRCULATE"

  /** `LoanGenerator.LOAN_STATES`, in order. */
  const LOAN_STATES: seq<LoanState> := [Pending, ItemOnLoan, ItemReturned, Cancelled]

  /** `.date()` of a UTC date-time: the number of the day it falls in. */
  function DayOf(t: Instant): int {
    t / DAY
  }

  /** Moving a date-time by whole days moves its date by as many days. */
  lemma DayShift(t: Instant, k: int)
    ensures DayOf(t + k * DAY) == DayOf(t) + k
  {
    var q := t / DAY;
    assert q * DAY <= t < q * DAY + DAY;
    assert (q + k) * DAY <= t + k * DAY < (q + k) * DAY + DAY;
  }

  /** `_get_item_can_circulate(items)` with `depth` frames of the
      interpreter's recursion limit left: an item drawn from positions
      1..|items|-1 (never the first), drawn again until its status is
      `CAN_CIRCULATE`. `randint(1, len(items) - 1)` raises ValueError when
      there are fewer than two items. */
  function ItemCanCirculate(src: Source, c: Cursor, items: seq<Item>, depth: nat): (r: Result<Drawn<Item>>)
    ensures |items| < 2 ==> r == Err(ValueError)
    ensures |items| >= 2 && r.Err? ==> r.error == RecursionError
    ensures r.Ok? ==> |items| >= 2 && r.value.value in items[1..] && r.value.value.status == CAN_CIRCULATE
    ensures r.Ok? ==> r.value.next.minted == c.minted
    decreases depth
  {
    if |items| < 2 then Err(ValueError)
    else if depth == 0 then Err(RecursionError)
    else
      var i := RandInt(src, c, 1, |items| - 1);
      if items[i.value].status != CAN_CIRCULATE then ItemCanCirculate(src, i.next, items, depth - 1)
      else Ok(Drawn(items[i.value], i.next))
  }

  /** When no item past the first can circulate the recursion never stops:
      whatever the draws, the search fails. */
  lemma {:induction false} NoCirculatingItemFails(src: Source, c: Cursor, items: seq<Item>, depth: nat)
    requires forall i :: 1 <= i < |items| ==> items[i].status != CAN_CIRCULATE
    ensures ItemCanCirculate(src, c, items, depth).Err?
    decreases depth
  {
    if |items| >= 2 && depth > 0 {
      NoCirculatingItemFails(src, Skip(c, 1), items, depth - 1);
    }
  }

  /** `_get_valid_status(item, items_on_loan)`: an item already on loan
      only gets a pending request, without a draw; any other item gets one
      of the four states. */
  function ValidStatus(src: Source, c: Cursor, item: Item, itemsOnLoan: seq<Pid>): (r: Drawn<LoanState>)
    ensures item.pid in itemsOnLoan ==> r.value == Pending && r.next == c
    ensures item.pid !in itemsOnLoan ==> r.value in LOAN_STATES && r.next == Skip(c, 1)
  {
    if item.pid in itemsOnLoan then Drawn(LOAN_STATES[0], c)
    else
      var i := RandInt(src, c, 0, 3);
      Drawn(LOAN_STATES[i.value], i.next)
  }

  /** The transaction date-time lies `lo` to `hi` days before `now`. */
  predicate TransactionWithin(l: Loan, now: Instant, lo: int, hi: int) {
    l.transactionDate.Some? && now - hi * DAY <= l.transactionDate.value <= now - lo * DAY
  }

  /** The loan period starts `lo` to `hi` days before the transaction's
      date and ends 30 days after it starts. */
  predicate PeriodBefore(l: Loan, lo: int, hi: int)
    requires l.transactionDate.Some?
  {
    var day := DayOf(l.transactionDate.value);
    l.startDate.Some? && day - hi <= l.startDate.value <= day - lo
    && l.endDate == Some(l.startDate.value + 30)
  }

  /** The request expires 180 days after the transaction's date. */
  predicate ExpiresAfter180(l: Loan)
    requires l.transactionDate.Some?
  {
    l.requestExpireDate == Some(DayOf(l.transactionDate.value) + 180)
  }

  /** The date fields `_fill_loan` sets for the loan's state, as offsets
      from the moment `now` the clock was read. */
  predicate DatesFit(l: Loan, now: Instant) {
    match l.state
    case Pending =>
      TransactionWithin(l, now, 1, 10)
      && l.requestStartDate == Some(DayOf(l.transactionDate.value) + 15) && ExpiresAfter180(l)
    case ItemOnLoan =>
      TransactionWithin(l, now, 10, 30) && PeriodBefore(l, 1, 5)
      && l.extensionCount.Some? && 0 <= l.extensionCount.value <= 3
    case ItemReturned =>
      TransactionWithin(l, now, 50, 70) && PeriodBefore(l, 40, 50)
    case Cancelled =>
      TransactionWithin(l, now, 50, 100) && PeriodBefore(l, 40, 50)
      && ExpiresAfter180(l) && l.cancelReason.Some?
  }

  /** `l` is `base` with only the fields its state's fill sets changed. */
  predicate FilledFrom(base: Loan, l: Loan) {
    && l.(transactionDate := base.transactionDate, requestStartDate := base.requestStartDate,
          requestExpireDate := base.requestExpireDate, startDate := base.startDate,
          endDate := base.endDate, extensionCount := base.extensionCount,
          cancelReason := base.cancelReason) == base
    && match base.state
       case Pending =>
         l.startDate == base.startDate && l.endDate == base.endDate
         && l.extensionCount == base.extensionCount && l.cancelReason == base.cancelReason
       case ItemOnLoan =>
         l.requestStartDate == base.requestStartDate && l.requestExpireDate == base.requestExpireDate
         && l.cancelReason == base.cancelReason
       case ItemReturned =>
         l.requestStartDate == base.requestStartDate && l.requestExpireDate == base.requestExpireDate
         && l.extensionCount == base.extensionCount && l.cancelReason == base.cancelReason
       case Cancelled =>
         l.requestStartDate == base.requestStartDate && l.extensionCount == base.extensionCount
  }

  /** `_fill_loan_with_valid_request`: a transaction 1 to 10 days ago; the
      request starts 15 and expires 180 days after its date. */
  function FillValidRequest(src: Source, c: Cursor, now: Instant, loan: Loan): (r: Drawn<Loan>)
    requires loan.state == Pending
    ensures DatesFit(r.value, now) && FilledFrom(loan, r.value)
    ensures r.next == Skip(c, 1)
  {
    var days := RandInt(src, c, 1, 10);
    var t := now - days.value * DAY;
    DayShift(t, 15);
    DayShift(t, 180);
    Drawn(loan.(transactionDate := Some(t),
                requestStartDate := Some(DayOf(t + 15 * DAY)),
                requestExpireDate := Some(DayOf(t + 180 * DAY))), days.next)
  }

  /** `_fill_loan_with_valid_loan`: a transaction 10 to 30 days ago, a loan
      period starting 1 to 5 days before it and lasting 30 days, and 0 to 3
      extensions. */
  function FillValidLoan(src: Source, c: Cursor, now: Instant, loan: Loan): (r: Drawn<Loan>)
    requires loan.state == ItemOnLoan
    ensures DatesFit(r.value, now) && FilledFrom(loan, r.value)
    ensures r.next == Skip(c, 3)
  {
    var days := RandInt(src, c, 10, 30);
    var t := now - days.value * DAY;
    var back := RandInt(src, days.next, 1, 5);
    var start := t - back.value * DAY;
    var extensions := RandInt(src, back.next, 0, 3);
    DayShift(t, -back.value);
    DayShift(start, 30);
    Drawn(loan.(transactionDate := Some(t),
                startDate := Some(DayOf(start)),
                endDate := Some(DayOf(start + 30 * DAY)),
                extensionCount := Some(extensions.value)), extensions.next)
  }

  /** `_fill_loan_with_loan_returned`: a transaction 50 to 70 days ago and a
      30-day loan period starting 40 to 50 days before it. */
  function FillLoanReturned(src: Source, c: Cursor, now: Instant, loan: Loan): (r: Drawn<Loan>)
    requires loan.state == ItemReturned
    ensures DatesFit(r.value, now) && FilledFrom(loan, r.value)
    ensures r.next == Skip(c, 2)
  {
    var days := RandInt(src, c, 50, 70);
    var t := now - days.value * DAY;
    var back := RandInt(src, days.next, 40, 50);
    var start := t - back.value * DAY;
    DayShift(t, -back.value);
    DayShift(start, 30);
    Drawn(loan.(transactionDate := Some(t),
                startDate := Some(DayOf(start)),
                endDate := Some(DayOf(start + 30 * DAY))), back.next)
  }

  /** `_fill_loan_with_loan_cancelled`: a transaction 50 to 100 days ago, a
      request expiring 180 days after it, a 30-day loan period starting 40
      to 50 days before it, and a cancel reason. */
  function FillLoanCancelled(src: Source, c: Cursor, now: Instant, loan: Loan): (r: Drawn<Loan>)
    requires loan.state == Cancelled
    ensures DatesFit(r.value, now) && FilledFrom(loan, r.value)
    ensures r.next == Skip(c, 3)
  {
    var days := RandInt(src, c, 50, 100);
    var t := now - days.value * DAY;
    var back := RandInt(src, days.next, 40, 50);
    var start := t - back.value * DAY;
    var reason := Sentence(src, back.next);
    DayShift(t, 180);
    DayShift(t, -back.value);
    DayShift(start, 30);
    Drawn(loan.(transactionDate := Some(t),
                requestExpireDate := Some(DayOf(t + 180 * DAY)),
                startDate := Some(DayOf(start)),
                endDate := Some(DayOf(start + 30 * DAY)),
                cancelReason := Some(reason.value)), reason.next)
  }

  /** `_fill_loan(loan)`: the fill of the loan's state. */
  function FillLoan(src: Source, c: Cursor, now: Instant, loan: Loan): (r: Drawn<Loan>)
    ensures DatesFit(r.value, now) && FilledFrom(loan, r.value)
    ensures r.next.minted == c.minted
  {
    match loan.state
    case Pending => FillValidRequest(src, c, now, loan)
    case ItemOnLoan => FillValidLoan(src, c, now, loan)
    case ItemReturned => FillLoanReturned(src, c, now, loan)
    case Cancelled => FillLoanCancelled(src, c, now, loan)
  }

  /** Every loan period starts strictly before the day of its transaction
      and every date the fill sets is fixed by the transaction date-time:
      request dates 15 and 180 days after it, end dates 30 days after the
      start. */
  lemma StartBeforeTransaction(l: Loan, now: Instant)
    requires DatesFit(l, now) && l.state != Pending
    ensures l.transactionDate.Some? && l.startDate.Some? && l.endDate.Some?
    ensures l.startDate.value < DayOf(l.transactionDate.value)
    ensures l.endDate.value == l.startDate.value + 30
  {
  }

  /** The optional fields a loan of each state carries once filled, for a
      loan that had none of them before. */
  predicate ShapeFits(l: Loan) {
    match l.state
    case Pending =>
      l.startDate.None? && l.endDate.None? && l.extensionCount.None? && l.cancelReason.None?
    case ItemOnLoan =>
      l.requestStartDate.None? && l.requestExpireDate.None? && l.cancelReason.None?
    case ItemReturned =>
      l.requestStartDate.None? && l.requestExpireDate.None?
      && l.extensionCount.None? && l.cancelReason.None?
    case Cancelled =>
      l.requestStartDate.None? && l.extensionCount.None?
  }

  /** The PIDs of the items that can circulate, in order. */
  function CirculatingPids(items: seq<Item>): (r: seq<Pid>)
    ensures forall p :: p in r ==> exists it :: it in items && it.pid == p && it.status == CAN_CIRCULATE
  {
    if items == [] then []
    else
      var rest := CirculatingPids(items[..|items| - 1]);
      var last := items[|items| - 1];
      assert forall it :: it in items[..|items| - 1] ==> it in items;
      if last.status == CAN_CIRCULATE then rest + [last.pid] else rest
  }

  /** Every item that can circulate has its PID among the circulating ones. */
  lemma {:induction false} CirculatingPidsComplete(items: seq<Item>, it: Item)
    requires it in items && it.status == CAN_CIRCULATE
    ensures it.pid in CirculatingPids(items)
    decreases |items|
  {
    if it != items[|items| - 1] {
      var k :| 0 <= k < |items| && items[k] == it;
      assert items[..|items| - 1][k] == it;
      CirculatingPidsComplete(items[..|items| - 1], it);
    }
  }

  /** The context one `generate` call builds its loans in. */
  datatype LoanContext = LoanContext(
    items: seq<Item>, patronsPids: seq<Pid>, documentPids: seq<Pid>,
    locationPid: Pid, librarianPid: Pid, delivery: string)

  /** A loan as `generate` builds it, before the item is attached: the
      patron, document, locations, librarian and delivery come from the
      context, the dates fit the state and the other optional fields are
      absent. */
  predicate DraftFits(l: Loan, ctx: LoanContext, now: Instant) {
    && l.patronPid in ctx.patronsPids && l.documentPid in ctx.documentPids
    && l.pickupLocationPid == ctx.locationPid && l.transactionLocationPid == ctx.locationPid
    && l.transactionUserPid == ctx.librarianPid && l.delivery == ctx.delivery
    && DatesFit(l, now) && ShapeFits(l)
  }

  /** One generated loan: a draft whose item PID is attached exactly when
      it is not a pending request, and then is the PID of an item past the
      first that can circulate. */
  predicate LoanFits(l: Loan, ctx: LoanContext, now: Instant) {
    && DraftFits(l, ctx, now)
    && (l.itemPid.Some? <==> l.state != Pending)
    && (l.itemPid.Some? ==> |ctx.items| >= 2 && l.itemPid.value in CirculatingPids(ctx.items[1..]))
  }

  /** A loan before its item is attached, with the item it was drawn for. */
  datatype Draft = Draft(loan: Loan, item: Item)

  /** The body of the `generate` loop up to `_fill_loan`: draw an item that
      can circulate, a state valid for it, a patron, a fresh PID and a
      document, then fill the dates. `random.choice` raises IndexError on
      an empty list of patrons or documents. */
  method DraftLoan(
    src: Source, c: Cursor, now: Instant, ctx: LoanContext, itemsOnLoan: seq<Pid>, depth: nat)
    returns (r: Result<Drawn<Draft>>)
    ensures |ctx.items| < 2 ==> r == Err(ValueError)
    ensures |ctx.items| >= 2 && r.Err? ==>
      r.error == RecursionError || (r.error == IndexError && (ctx.patronsPids == [] || ctx.documentPids == []))
    ensures r.Ok? ==> DraftFits(r.value.value.loan, ctx, now) && r.value.value.loan.itemPid.None?
    ensures r.Ok? ==> |ctx.items| >= 2 && r.value.value.item in ctx.items[1..]
    ensures r.Ok? ==> r.value.value.item.status == CAN_CIRCULATE
    ensures r.Ok? && r.value.value.item.pid in itemsOnLoan ==> r.value.value.loan.state == Pending
    ensures r.Ok? ==> r.value.value.loan.pid == src.pid(c.minted) && r.value.next.minted == c.minted + 1
  {
    var item := ItemCanCirculate(src, c, ctx.items, depth);
    if item.Err? {
      return Err(item.error);
    }
    var state := ValidStatus(src, item.value.next, item.value.value, itemsOnLoan);
    if ctx.patronsPids == [] {
      return Err(IndexError);
    }
    var patron := Choice(src, state.next, ctx.patronsPids);
    var pid := CreatePid(src, patron.next);
    if ctx.documentPids == [] {
      return Err(IndexError);
    }
    var document := Choice(src, pid.next, ctx.documentPids);
    var base := Loan(
      pid.value, document.value, patron.value, ctx.locationPid, state.value,
      ctx.locationPid, ctx.librarianPid, ctx.delivery,
      None, None, None, None, None, None, None, None);
    var filled := FillLoan(src, document.next, now, base);
    r := Ok(Drawn(Draft(filled.value, item.value.value), filled.next));
  }

  /** The item PIDs attached to `loans`, in order. */
  function ItemPids(loans: seq<Loan>): (r: seq<Pid>)
    ensures |r| <= |loans|
  {
    if loans == [] then []
    else
      var last := loans[|loans| - 1];
      ItemPids(loans[..|loans| - 1]) + (if last.itemPid.Some? then [last.itemPid.value] else [])
  }

  /** An item PID is attached to a loan exactly when it is among `ItemPids`. */
  lemma {:induction false} InItemPids(loans: seq<Loan>, i: nat)
    requires i < |loans| && loans[i].itemPid.Some?
    ensures loans[i].itemPid.value in ItemPids(loans)
    decreases |loans|
  {
    if i < |loans| - 1 {
      InItemPids(loans[..|loans| - 1], i);
    }
  }

  /** No item PID is attached to two of the loans. */
  ghost predicate NoItemOnTwoLoans(loans: seq<Loan>) {
    forall i, j :: 0 <= i < j < |loans| && loans[i].itemPid.Some? && loans[j].itemPid.Some? ==>
      loans[i].itemPid.value != loans[j].itemPid.value
  }

  /** Duplicate-free item PIDs mean no item sits on two loans. */
  lemma {:induction false} DistinctItemPids(loans: seq<Loan>)
    requires Distinct(ItemPids(loans))
    ensures NoItemOnTwoLoans(loans)
    decreases |loans|
  {
    if loans != [] {
      var n := |loans| - 1;
      var init := loans[..n];
      var pids := ItemPids(init);
      var extra := if loans[n].itemPid.Some? then [loans[n].itemPid.value] else [];
      assert ItemPids(loans) == pids + extra;
      assert Distinct(pids) by {
        forall a, b | 0 <= a < b < |pids| ensures pids[a] != pids[b] {
          assert ItemPids(loans)[a] == pids[a] && ItemPids(loans)[b] == pids[b];
        }
      }
      DistinctItemPids(init);
      forall i | 0 <= i < n && loans[i].itemPid.Some? && loans[n].itemPid.Some?
        ensures loans[i].itemPid.value != loans[n].itemPid.value
      {
        assert init[i] == loans[i];
        InItemPids(init, i);
        var k :| 0 <= k < |pids| && pids[k] == loans[i].itemPid.value;
        assert ItemPids(loans)[k] == pids[k];
        assert ItemPids(loans)[|pids|] == loans[n].itemPid.value;
      }
      forall i, j | 0 <= i < j < n && loans[i].itemPid.Some? && loans[j].itemPid.Some?
        ensures loans[i].itemPid.value != loans[j].itemPid.value
      {
        assert init[i] == loans[i] && init[j] == loans[j];
      }
    }
  }

  /** Every loan of a run fits, the k-th (from 0) built at `clock(k)` with
      the k-th PID of the supply from `first`. */
  ghost predicate LoansFit(loans: seq<Loan>, ctx: LoanContext, clock: nat -> Instant, src: Source, first: nat)
    decreases |loans|
  {
    loans == []
    || (&& LoansFit(loans[..|loans| - 1], ctx, clock, src, first)
        && LoanFits(loans[|loans| - 1], ctx, clock(|loans| - 1))
        && loans[|loans| - 1].pid == src.pid(first + |loans| - 1))
  }

  /** A run of loans read position by position. */
  lemma {:induction false} LoansFitAt(
    loans: seq<Loan>, ctx: LoanContext, clock: nat -> Instant, src: Source, first: nat, k: nat)
    requires LoansFit(loans, ctx, clock, src, first) && k < |loans|
    ensures LoanFits(loans[k], ctx, clock(k)) && loans[k].pid == src.pid(first + k)
    decreases |loans|
  {
    if k < |loans| - 1 {
      LoansFitAt(loans[..|loans| - 1], ctx, clock, src, first, k);
    }
  }

  /** Attaching the drawn item to a loan that is not a pending request
      keeps the run fitting. */
  lemma AttachFits(
    built: seq<Loan>, d: Draft, loan: Loan, ctx: LoanContext, clock: nat -> Instant, src: Source, first: nat)
    requires LoansFit(built, ctx, clock, src, first)
    requires DraftFits(d.loan, ctx, clock(|built|)) && d.loan.itemPid.None?
    requires |ctx.items| >= 2 && d.item in ctx.items[1..] && d.item.status == CAN_CIRCULATE
    requires d.loan.pid == src.pid(first + |built|)
    requires loan == if d.loan.state != Pending then d.loan.(itemPid := Some(d.item.pid)) else d.loan
    ensures LoansFit(built + [loan], ctx, clock, src, first)
  {
    assert (built + [loan])[..|built|] == built;
    assert DraftFits(loan, ctx, clock(|built|));
    if d.loan.state != Pending {
      CirculatingPidsComplete(ctx.items[1..], d.item);
    }
  }

  /** Recording the attached item as on loan keeps `items_on_loan` the
      duplicate-free list of the attached item PIDs. */
  lemma AttachDistinct(built: seq<Loan>, itemsOnLoan: seq<Pid>, loan: Loan, itemsOnLoan': seq<Pid>)
    requires itemsOnLoan == ItemPids(built) && Distinct(itemsOnLoan)
    requires loan.itemPid.Some? ==> loan.itemPid.value !in itemsOnLoan
    requires itemsOnLoan' == if loan.itemPid.Some? then itemsOnLoan + [loan.itemPid.value] else itemsOnLoan
    ensures itemsOnLoan' == ItemPids(built + [loan]) && Distinct(itemsOnLoan')
  {
    assert (built + [loan])[..|built|] == built;
    if loan.itemPid.Some? {
      DistinctAppend(itemsOnLoan, loan.itemPid.value);
    }
  }

  /** One turn of the `generate` loop before the append: the drafted loan
      gets its item attached, and the item recorded as on loan, exactly
      when it is not a pending request. */
  method NextLoan(
    src: Source, c: Cursor, now: Instant, ctx: LoanContext, itemsOnLoan: seq<Pid>, depth: nat,
    ghost built: seq<Loan>, ghost clock: nat -> Instant, ghost first: nat)
    returns (r: Result<Drawn<Loan>>, itemsOnLoan': seq<Pid>)
    requires now == clock(|built|) && c.minted == first + |built|
    requires LoansFit(built, ctx, clock, src, first)
    requires itemsOnLoan == ItemPids(built) && Distinct(itemsOnLoan)
    ensures r.Ok? ==> LoansFit(built + [r.value.value], ctx, clock, src, first)
    ensures r.Ok? ==> itemsOnLoan' == ItemPids(built + [r.value.value]) && Distinct(itemsOnLoan')
    ensures r.Ok? ==> r.value.next.minted == c.minted + 1
    ensures |ctx.items| < 2 ==> r == Err(ValueError)
    ensures |ctx.items| >= 2 && r.Err? ==>
      r.error == RecursionError || (r.error == IndexError && (ctx.patronsPids == [] || ctx.documentPids == []))
  {
    itemsOnLoan' := itemsOnLoan;
    var draft := DraftLoan(src, c, now, ctx, itemsOnLoan, depth);
    if draft.Err? {
      return Err(draft.error), itemsOnLoan';
    }
    var d := draft.value.value;
    var loan := d.loan;
    if loan.state != Pending {
      loan := loan.(itemPid := Some(d.item.pid));
      itemsOnLoan' := itemsOnLoan + [d.item.pid];
    }
    AttachFits(built, d, loan, ctx, clock, src, first);
    AttachDistinct(built, itemsOnLoan, loan, itemsOnLoan');
    r := Ok(Drawn(loan, draft.value.next));
  }

  /** One turn of the loop of `generate`: draws the next loan and appends it
      to the holder's loans; a failed draw appends nothing. */
  method AppendLoan(
    holder: Holder, src: Source, c: Cursor, now: Instant, ctx: LoanContext, itemsOnLoan: seq<Pid>, depth: nat,
    ghost built: seq<Loan>, clock: nat -> Instant, ghost first: nat)
    returns (r: Result<Cursor>, itemsOnLoan': seq<Pid>, ghost built': seq<Loan>)
    modifies holder`loans
    requires now == clock(|built|) && c.minted == first + |built|
    requires LoansFit(built, ctx, clock, src, first)
    requires itemsOnLoan == ItemPids(built) && Distinct(itemsOnLoan)
    ensures |built| <= |built'| && built'[..|built|] == built
    ensures holder.loans == old(holder.loans) + built'[|built|..]
    ensures r.Ok? ==> |built'| == |built| + 1 && r.value.minted == c.minted + 1
    ensures LoansFit(built', ctx, clock, src, first)
    ensures itemsOnLoan' == ItemPids(built') && Distinct(itemsOnLoan')
    ensures r.Err? ==> built' == built
    ensures |ctx.items| < 2 ==> r == Err(ValueError)
    ensures r.Err? ==> r.error in {ValueError, IndexError, RecursionError}
  {
    var next, onLoan := NextLoan(src, c, now, ctx, itemsOnLoan, depth, built, clock, first);
    if next.Err? {
      assert built[|built|..] == [];
      return Err(next.error), itemsOnLoan, built;
    }
    holder.loans := holder.loans + [next.value.value];
    built' := built + [next.value.value];
    assert built'[|built|..] == [next.value.value];
    assert built'[..|built|] == built;
    return Ok(next.value.next), onLoan, built';
  }

  /** The `for pid in range(1, size + 1)` loop of `generate`: appends one
      loan per turn until `size` loans are built or a turn fails. */
  method AppendLoans(
    holder: Holder, src: Source, c0: Cursor, ctx: LoanContext, size: nat, depth: nat,
    clock: nat -> Instant, ghost first: nat)
    returns (failure: Option<Error>, c: Cursor, ghost built: seq<Loan>)
    modifies holder`loans
    requires c0.minted == first
    ensures holder.loans == old(holder.loans) + built
    ensures LoansFit(built, ctx, clock, src, first) && Distinct(ItemPids(built))
    ensures c.minted == first + |built|
    ensures failure.None? ==> |built| == size
    ensures size == 0 ==> failure.None?
    ensures |ctx.items| < 2 ==> built == [] && (size > 0 ==> failure == Some(ValueError))
    ensures failure.Some? ==> failure.value in {ValueError, IndexError, RecursionError}
  {
    c := c0;
    var itemsOnLoan: seq<Pid> := [];
    built := [];
    var pid := 1;
    failure := None;
    while pid <= size && failure.None?
      invariant 1 <= pid <= size + 1 && |built| == pid - 1
      invariant holder.loans == old(holder.loans) + built
      invariant c.minted == first + |built|
      invariant LoansFit(built, ctx, clock, src, first)
      invariant itemsOnLoan == ItemPids(built) && Distinct(itemsOnLoan)
      invariant |ctx.items| < 2 ==> built == [] && (failure.Some? ==> failure == Some(ValueError))
      invariant failure.Some? ==> failure.value in {ValueError, IndexError, RecursionError}
      invariant size == 0 ==> failure.None?
      decreases size + 1 - pid, if failure.None? then 1 else 0
    {
      var next;
      next, itemsOnLoan, built := AppendLoan(holder, src, c, clock(pid - 1), ctx, itemsOnLoan, depth, built, clock, first);
      if next.Err? {
        failure := Some(next.error);
      } else {
        c := next.value;
        pid := pid + 1;
      }
    }
  }

  /** `LoanGenerator.generate`. Reading `location["pid"]` raises KeyError
      before anything is drawn; the delivery method is
      `all_delivery_methods[randint(0, 1)]`, IndexError when the drawn
      position is missing. Each loan is appended as soon as it is built, so
      an exception keeps the loans built before it. The k-th new loan (from
      0) reads the clock as `clock(k)`; `depth` is the recursion left to
      `_get_item_can_circulate`. */
  method Generate(
    holder: Holder, src: Source, c0: Cursor, clock: nat -> Instant,
    deliveryMethods: seq<string>, depth: nat) returns (r: Result<Cursor>, ghost delivery: string)
    modifies holder`loans
    ensures holder.locationPid.None? ==> r == Err(KeyError) && holder.loans == old(holder.loans)
    ensures |old(holder.loans)| <= |holder.loans| && holder.loans[..|old(holder.loans)|] == old(holder.loans)
    ensures r.Ok? ==> |holder.loans| == |old(holder.loans)| + holder.totalLoans
    ensures holder.locationPid.Some? && |holder.loans| > |old(holder.loans)| ==>
      delivery in deliveryMethods &&
      LoansFit(holder.loans[|old(holder.loans)|..],
               LoanContext(holder.items, holder.patronsPids, holder.DocumentPids(),
                           holder.locationPid.value, holder.librarianPid, delivery),
               clock, src, c0.minted)
    ensures NoItemOnTwoLoans(holder.loans[|old(holder.loans)|..])
    ensures holder.locationPid.Some? && deliveryMethods == [] ==> r == Err(IndexError)
    ensures (holder.locationPid.Some? && |deliveryMethods| >= 2 && holder.totalLoans > 0 && |holder.items| < 2
             ==> r == Err(ValueError))
    ensures holder.locationPid.Some? && |deliveryMethods| >= 2 && holder.totalLoans == 0 ==> r.Ok?
    ensures r.Err? ==> r.error in {KeyError, ValueError, IndexError, RecursionError}
  {
    delivery := "";
    var size := holder.totalLoans;
    if holder.locationPid.None? {
      assert holder.loans[|old(holder.loans)|..] == [];
      return Err(KeyError), delivery;
    }
    var ctx := LoanContext(holder.items, holder.patronsPids, holder.DocumentPids(),
                           holder.locationPid.value, holder.librarianPid, "");
    var choice := RandInt(src, c0, 0, 1);
    if choice.value >= |deliveryMethods| {
      assert holder.loans[|old(holder.loans)|..] == [];
      return Err(IndexError), delivery;
    }
    var deliveryMethod := deliveryMethods[choice.value];
    delivery := deliveryMethod;
    ctx := ctx.(delivery := deliveryMethod);
    var failure, c, built := AppendLoans(holder, src, choice.next, ctx, size, depth, clock, c0.minted);
    assert holder.loans[|old(holder.loans)|..] == built;
    DistinctItemPids(built);
    r := if failure.Some? then Err(failure.value) else Ok(c);
  }
}
