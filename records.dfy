/** The records the demo-data generators build. Each keeps the fields whose
    presence or value the generators decide; free text is an opaque string
    and date-times are integer microseconds since the Unix epoch. */
module Records {
  import opened Base

  /** Microseconds since 1970-01-01T00:00:00. */
  type Instant = int

  /** `timedelta(seconds=1)` in microseconds. */
  const SECOND: int := 1_000_000

  /** `timedelta(days=1)` in microseconds. */
  const DAY: int := 86_400 * SECOND

  /** A document. The source stores `publication_year`, `edition` and
      `number_of_pages` as the decimal strings of these numbers (`str(n)`),
      and the imprint date as `"{publication_year}-08-02"`. */
  datatype Document = Document(
    pid: Pid,
    title: string,
    documentType: string,
    publicationYear: nat,
    imprintDate: string,
    edition: nat,
    authors: seq<string>,
    languages: seq<string>,
    tags: seq<string>,
    numberOfPages: nat)

  /** An item as the loan generator sees it: its PID and circulation status. */
  datatype Item = Item(pid: Pid, documentPid: Pid, status: string)

  datatype LoanState = Pending | ItemOnLoan | ItemReturned | Cancelled

  /** A loan; the optional fields are the ones `_fill_loan` and the
      `item_pid` assignment add depending on the state. Dates are day
      numbers since the epoch (the `.date()` of a date-time). */
  datatype Loan = Loan(
    pid: Pid,
    documentPid: Pid,
    patronPid: Pid,
    pickupLocationPid: Pid,
    state: LoanState,
    transactionLocationPid: Pid,
    transactionUserPid: Pid,
    delivery: string,
    transactionDate: Option<Instant>,
    requestStartDate: Option<int>,
    requestExpireDate: Option<int>,
    startDate: Option<int>,
    endDate: Option<int>,
    extensionCount: Option<int>,
    cancelReason: Option<string>,
    itemPid: Option<Pid>)

  datatype Identifier = Identifier(scheme: string, value: string, material: Option<string>)

  /** The fields `random_serial` adds to a serial: the values of the
      `SUBTITLE` and `TRANSLATED_TITLE` alternative titles, and the
      descriptions of the two access URLs and of the two URLs. */
  datatype SerialDetails = SerialDetails(
    abbreviatedTitle: string,
    alternativeTitles: seq<string>,
    notes: string,
    publisher: string,
    accessUrls: seq<string>,
    urls: seq<string>)

  /** The fields every generated series has beyond the minimal one's. The
      source stores the edition of a multipart monograph as `str(index)`. */
  datatype SeriesDetails = SeriesDetails(
    authors: seq<string>,
    abstractText: string,
    languages: seq<string>,
    identifiers: seq<Identifier>,
    edition: Option<nat>,
    serial: Option<SerialDetails>)

  datatype Series = Series(
    pid: Pid,
    modeOfIssuance: string,
    title: string,
    details: Option<SeriesDetails>)

  /** An entry of `holder.related_records["objs"]`: a document, or the
      result of `random_series`, which may be `None`. */
  datatype Related = RelatedDocument(doc: Document) | RelatedSeries(series: Option<Series>)

  datatype DocumentRequest = DocumentRequest(
    pid: Pid,
    state: string,
    patronPid: Pid,
    title: string,
    authors: string,
    publicationYear: int,
    rejectReason: Option<string>,
    documentPid: Option<Pid>)

  datatype Library = Library(pid: Pid, name: string, notes: string)

  datatype BorrowingRequest = BorrowingRequest(
    pid: Pid,
    status: string,
    libraryPid: Pid,
    notes: string,
    cancelReason: Option<string>)

  datatype Vendor = Vendor(
    pid: Pid,
    name: string,
    address: string,
    email: string,
    phone: string,
    notes: string)

  datatype OrderLine = OrderLine(
    copiesOrdered: int,
    copiesReceived: int,
    documentPid: Pid,
    isDonation: bool,
    isPatronSuggestion: bool,
    medium: string,
    notes: string,
    patronPid: Pid,
    paymentMode: string,
    purchaseType: string,
    recipient: string)

  datatype Order = Order(
    pid: Pid,
    createdByPid: Pid,
    vendorPid: Pid,
    status: string,
    orderDate: Instant,
    notes: string,
    orderLines: seq<OrderLine>,
    expectedDeliveryDate: Instant,
    cancelReason: Option<string>,
    receivedDate: Option<Instant>)
}
