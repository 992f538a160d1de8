/** `DocumentRequestGenerator`: requests for documents, whose state decides
    whether they carry a reject reason and a document PID. */
module DocumentRequestGenerator {
  import opened Base
  import opened Random
  import opened Records
  import opened Holders

  const REJECTED := "REJECTED"
  const ACCEPTED := "ACCEPTED"
  const IN_CATALOG := "IN_CATALOG"

  /** What the loop of `generate` promises of a request: a state of
      `DocumentRequest.STATES`, a known patron, a year from 1700 to 2019; a
      reject reason exactly when rejected, and a document PID exactly when
      accepted or rejected as already in the catalogue. */
  predicate RequestFits(
    req: DocumentRequest, states: seq<string>, rejectTypes: seq<string>,
    patronsPids: seq<Pid>, documentPids: seq<Pid>)
  {
    && req.state in states
    && req.patronPid in patronsPids
    && 1700 <= req.publicationYear <= 2019
    && (req.rejectReason.Some? <==> req.state == REJECTED)
    && (req.rejectReason.Some? ==> req.rejectReason.value in rejectTypes)
    && (req.documentPid.Some? <==>
          req.state == ACCEPTED || (req.state == REJECTED && req.rejectReason == Some(IN_CATALOG)))
    && (req.documentPid.Some? ==> req.documentPid.value in documentPids)
  }

  /** One turn of the loop of `generate`. Every `random.choice` on an empty
      list (states, patrons, reject types, document PIDs) raises
      IndexError. */
  method NewRequest(
    src: Source, c: Cursor, states: seq<string>, rejectTypes: seq<string>,
    patronsPids: seq<Pid>, documentPids: seq<Pid>) returns (r: Result<Drawn<DocumentRequest>>)
    ensures r.Err? ==> r.error == IndexError
    ensures states == [] || patronsPids == [] ==> r.Err?
    ensures states != [] && patronsPids != [] && rejectTypes != [] && documentPids != [] ==> r.Ok?
    ensures r.Ok? ==> RequestFits(r.value.value, states, rejectTypes, patronsPids, documentPids)
    ensures r.Ok? ==> r.value.value.pid == src.pid(c.minted) && r.value.next.minted == c.minted + 1
  {
    if states == [] {
      return Err(IndexError);
    }
    var state := Choice(src, c, states);
    var pid := CreatePid(src, state.next);
    if patronsPids == [] {
      return Err(IndexError);
    }
    var patron := Choice(src, pid.next, patronsPids);
    var title := Sentence(src, patron.next);
    var authors := Sentence(src, title.next);
    var year := RandInt(src, authors.next, 1700, 2019);
    var req := DocumentRequest(
      pid.value, state.value, patron.value, title.value, authors.value, year.value, None, None);
    var cur := year.next;
    if state.value == REJECTED {
      if rejectTypes == [] {
        return Err(IndexError);
      }
      var reason := Choice(src, cur, rejectTypes);
      req := req.(rejectReason := Some(reason.value));
      cur := reason.next;
      if reason.value == IN_CATALOG {
        if documentPids == [] {
          return Err(IndexError);
        }
        var document := Choice(src, cur, documentPids);
        req := req.(documentPid := Some(document.value));
        cur := document.next;
      }
    } else if state.value == ACCEPTED {
      if documentPids == [] {
        return Err(IndexError);
      }
      var document := Choice(src, cur, documentPids);
      req := req.(documentPid := Some(document.value));
      cur := document.next;
    }
    r := Ok(Drawn(req, cur));
  }

  /** `DocumentRequestGenerator.generate`: on success the holder's requests
      are `total` requests that fit, the k-th with the k-th PID of the
      supply; the list is stored only at the end, so on an exception the
      holder is left as it was. */
  method Generate(holder: Holder, src: Source, c0: Cursor, states: seq<string>, rejectTypes: seq<string>)
    returns (r: Result<Cursor>)
    modifies holder`documentRequests
    ensures r.Err? ==> r.error == IndexError && holder.documentRequests == old(holder.documentRequests)
    ensures holder.totalDocumentRequests > 0 && (states == [] || holder.patronsPids == []) ==> r.Err?
    ensures states != [] && holder.patronsPids != [] && rejectTypes != [] && holder.documents != [] ==> r.Ok?
    ensures r.Ok? ==> |holder.documentRequests| == holder.totalDocumentRequests
    ensures r.Ok? ==> r.value.minted == c0.minted + holder.totalDocumentRequests
    ensures r.Ok? ==> forall k :: 0 <= k < |holder.documentRequests| ==>
      && holder.documentRequests[k].pid == src.pid(c0.minted + k)
      && RequestFits(holder.documentRequests[k], states, rejectTypes, holder.patronsPids, holder.DocumentPids())
  {
    var size := holder.totalDocumentRequests;
    var documentPids := holder.DocumentPids();
    var objs: seq<DocumentRequest> := [];
    var c := c0;
    while |objs| < size
      invariant |objs| <= size && c.minted == c0.minted + |objs|
      invariant holder.documentRequests == old(holder.documentRequests)
      invariant states == [] || holder.patronsPids == [] ==> objs == []
      invariant forall k :: 0 <= k < |objs| ==>
        objs[k].pid == src.pid(c0.minted + k)
        && RequestFits(objs[k], states, rejectTypes, holder.patronsPids, documentPids)
    {
      var next := NewRequest(src, c, states, rejectTypes, holder.patronsPids, documentPids);
      if next.Err? {
        return Err(next.error);
      }
      objs := objs + [next.value.value];
      c := next.value.next;
    }
    holder.documentRequests := objs;
    r := Ok(c);
  }
}
