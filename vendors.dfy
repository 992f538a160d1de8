/** `VendorGenerator`: vendors with a short random name and CERN's fixed
    contact details. */
module VendorGenerator {
  import opened Base
  import opened Text
  import opened Random
  import opened Records
  import opened Holders

  const ADDRESS := "CERN\n1211 Geneva 23\nSwitzerland"
  const EMAIL := "visits.service@cern.ch"
  const PHONE := "+41 (0) 22 76 776 76"

  /** `random_name`: the first one or two words of a lorem sentence, joined
      by a space. Splitting the name gives those words back, so the name is
      at most two words, starts the sentence's words, and is empty only
      when the sentence is blank. */
  function RandomName(src: Source, c: Cursor): (r: Drawn<string>)
    ensures |Words(r.value)| <= 2
    ensures Words(r.value) <= Words(src.text(c.draws))
    ensures |Words(r.value)| == 0 <==> Words(src.text(c.draws)) == []
    ensures r.next == Skip(c, 2)
  {
    var sentence := Sentence(src, c);
    var parts := Words(sentence.value);
    var count := RandInt(src, sentence.next, 1, 2);
    var n := if count.value < |parts| then count.value else |parts|;
    WordsJoin(parts[..n]);
    Drawn(Join(parts[..n]), count.next)
  }

  /** What the loop of `generate` promises of a vendor. */
  predicate VendorFits(v: Vendor) {
    |Words(v.name)| <= 2 && v.address == ADDRESS && v.email == EMAIL && v.phone == PHONE
  }

  /** `VendorGenerator.generate`: `total` vendors, the k-th with the k-th
      PID of the supply. Nothing in it can fail. */
  method Generate(holder: Holder, src: Source, c0: Cursor) returns (c: Cursor)
    modifies holder`vendors
    ensures |holder.vendors| == holder.totalVendors
    ensures c.minted == c0.minted + holder.totalVendors
    ensures forall k :: 0 <= k < |holder.vendors| ==>
      holder.vendors[k].pid == src.pid(c0.minted + k) && VendorFits(holder.vendors[k])
  {
    var size := holder.totalVendors;
    var objs: seq<Vendor> := [];
    c := c0;
    while |objs| < size
      invariant |objs| <= size && c.minted == c0.minted + |objs|
      invariant forall k :: 0 <= k < |objs| ==> objs[k].pid == src.pid(c0.minted + k) && VendorFits(objs[k])
    {
      var pid := CreatePid(src, c);
      var name := RandomName(src, pid.next);
      var notes := Sentence(src, name.next);
      objs := objs + [Vendor(pid.value, name.value, ADDRESS, EMAIL, PHONE, notes.value)];
      c := notes.next;
    }
    holder.vendors := objs;
  }
}
