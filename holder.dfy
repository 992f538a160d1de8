/** `Holder`: the shared store the generators read from and write to, one
    collection of generated records per entity, each with the number of
    records to generate. */
module Holders {
  import opened Base
  import opened Records

  class Holder {
    const patronsPids: seq<Pid>
    /** The `key` of each language of the vocabulary file. */
    const languages: seq<string>
    const librarianPid: Pid
    /** The `key` of each tag of the vocabulary file. */
    const tags: seq<string>

    /** `location["pid"]`; `None` until the location has been generated. */
    var locationPid: Option<Pid>

    var items: seq<Item>
    const totalItems: nat
    var documents: seq<Document>
    const totalDocuments: nat
    var loans: seq<Loan>
    const totalLoans: nat
    var series: seq<Series>
    const totalSeries: nat
    var relatedRecords: seq<Related>
    var documentRequests: seq<DocumentRequest>
    const totalDocumentRequests: nat
    var vendors: seq<Vendor>
    const totalVendors: nat
    var orders: seq<Order>
    const totalOrders: nat
    var borrowingRequests: seq<BorrowingRequest>
    const totalBorrowingRequests: nat
    var libraries: seq<Library>
    const totalLibraries: nat

    /** Every collection starts empty with the requested total; the location
        is not there yet. */
    constructor (
      patronsPids: seq<Pid>, languages: seq<string>, librarianPid: Pid, tags: seq<string>,
      totalItems: nat, totalDocuments: nat, totalLoans: nat, totalSeries: nat,
      totalDocumentRequests: nat, totalVendors: nat, totalOrders: nat,
      totalBorrowingRequests: nat, totalLibraries: nat)
      ensures this.patronsPids == patronsPids && this.languages == languages
      ensures this.librarianPid == librarianPid && this.tags == tags
      ensures this.totalItems == totalItems && this.totalDocuments == totalDocuments
      ensures this.totalLoans == totalLoans && this.totalSeries == totalSeries
      ensures this.totalDocumentRequests == totalDocumentRequests
      ensures this.totalVendors == totalVendors && this.totalOrders == totalOrders
      ensures this.totalBorrowingRequests == totalBorrowingRequests
      ensures this.totalLibraries == totalLibraries
      ensures locationPid.None?
      ensures items == [] && documents == [] && loans == [] && series == []
      ensures relatedRecords == [] && documentRequests == [] && vendors == []
      ensures orders == [] && borrowingRequests == [] && libraries == []
    {
      this.patronsPids := patronsPids;
      this.languages := languages;
      this.librarianPid := librarianPid;
      this.tags := tags;
      this.totalItems := totalItems;
      this.totalDocuments := totalDocuments;
      this.totalLoans := totalLoans;
      this.totalSeries := totalSeries;
      this.totalDocumentRequests := totalDocumentRequests;
      this.totalVendors := totalVendors;
      this.totalOrders := totalOrders;
      this.totalBorrowingRequests := totalBorrowingRequests;
      this.totalLibraries := totalLibraries;
      locationPid := None;
      items, documents, loans, series := [], [], [], [];
      relatedRecords, documentRequests, vendors := [], [], [];
      orders, borrowingRequests, libraries := [], [], [];
    }

    /** `pids("documents", "pid")`. */
    function DocumentPids(): (r: seq<Pid>)
      reads this
      ensures |r| == |documents|
      ensures forall i :: 0 <= i < |r| ==> r[i] == documents[i].pid
    {
      Pids(documents, (d: Document) => d.pid)
    }

    /** `pids("libraries", "pid")`. */
    function LibraryPids(): (r: seq<Pid>)
      reads this
      ensures |r| == |libraries|
      ensures forall i :: 0 <= i < |r| ==> r[i] == libraries[i].pid
    {
      Pids(libraries, (l: Library) => l.pid)
    }
  }

  /** `[obj[pid_field] for obj in objs]`: the PIDs of a collection, in order. */
  function Pids<T>(objs: seq<T>, pidOf: T -> Pid): (r: seq<Pid>)
    ensures |r| == |objs|
    ensures forall i :: 0 <= i < |objs| ==> r[i] == pidOf(objs[i])
  {
    if objs == [] then [] else Pids(objs[..|objs| - 1], pidOf) + [pidOf(objs[|objs| - 1])]
  }
}
