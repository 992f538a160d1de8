/** `BorrowingRequestGenerator`: inter-library borrowing requests, each from
    a generated library; cancelled ones carry a reason. */
module BorrowingRequestGenerator {
  import opened Base
  import opened Random
  import opened Records
  import opened Holders

  const CANCELLED := "CANCELLED"

  /** What the loop of `generate` promises of a request: a status of
      `BorrowingRequest.STATUSES`, one of the generated libraries, and a
      cancel reason exactly when cancelled. */
  predicate BorrowingFits(req: BorrowingRequest, statuses: seq<string>, libraryPids: seq<Pid>) {
    && req.status in statuses
    && req.libraryPid in libraryPids
    && (req.cancelReason.Some? <==> req.status == CANCELLED)
  }

  /** One turn of the loop of `generate`: PID, status, library (through
      `random_library_pid`), notes, and a cancel reason when cancelled.
      `random.choice` on no statuses or no libraries raises IndexError. */
  method NewBorrowingRequest(src: Source, c: Cursor, statuses: seq<string>, libraryPids: seq<Pid>)
    returns (r: Result<Drawn<BorrowingRequest>>)
    ensures r.Err? <==> statuses == [] || libraryPids == []
    ensures r.Err? ==> r.error == IndexError
    ensures r.Ok? ==> BorrowingFits(r.value.value, statuses, libraryPids)
    ensures r.Ok? ==> r.value.value.pid == src.pid(c.minted) && r.value.next.minted == c.minted + 1
  {
    var pid := CreatePid(src, c);
    if statuses == [] {
      return Err(IndexError);
    }
    var status := Choice(src, pid.next, statuses);
    if libraryPids == [] {
      return Err(IndexError);
    }
    var library := Choice(src, status.next, libraryPids);
    var notes := Sentence(src, library.next);
    var req := BorrowingRequest(pid.value, status.value, library.value, notes.value, None);
    var cur := notes.next;
    if status.value == CANCELLED {
      var reason := Sentence(src, cur);
      req := req.(cancelReason := Some(reason.value));
      cur := reason.next;
    }
    r := Ok(Drawn(req, cur));
  }

  /** `BorrowingRequestGenerator.generate`: on success the holder's
      borrowing requests are `total` requests that fit, the k-th with the
      k-th PID of the supply; the list is stored only at the end, so on an
      exception the holder is left as it was. */
  method Generate(holder: Holder, src: Source, c0: Cursor, statuses: seq<string>) returns (r: Result<Cursor>)
    modifies holder`borrowingRequests
    ensures r.Err? <==> holder.totalBorrowingRequests > 0 && (statuses == [] || holder.libraries == [])
    ensures r.Err? ==> r.error == IndexError && holder.borrowingRequests == old(holder.borrowingRequests)
    ensures r.Ok? ==> |holder.borrowingRequests| == holder.totalBorrowingRequests
    ensures r.Ok? ==> r.value.minted == c0.minted + holder.totalBorrowingRequests
    ensures r.Ok? ==> forall k :: 0 <= k < |holder.borrowingRequests| ==>
      && holder.borrowingRequests[k].pid == src.pid(c0.minted + k)
      && BorrowingFits(holder.borrowingRequests[k], statuses, holder.LibraryPids())
  {
    var size := holder.totalBorrowingRequests;
    var libraryPids := holder.LibraryPids();
    var objs: seq<BorrowingRequest> := [];
    var c := c0;
    while |objs| < size
      invariant |objs| <= size && c.minted == c0.minted + |objs|
      invariant holder.borrowingRequests == old(holder.borrowingRequests)
      invariant statuses == [] || libraryPids == [] ==> objs == []
      invariant forall k :: 0 <= k < |objs| ==>
        objs[k].pid == src.pid(c0.minted + k) && BorrowingFits(objs[k], statuses, libraryPids)
    {
      var next := NewBorrowingRequest(src, c, statuses, libraryPids);
      if next.Err? {
        return Err(next.error);
      }
      objs := objs + [next.value.value];
      c := next.value.next;
    }
    holder.borrowingRequests := objs;
    r := Ok(c);
  }
}
