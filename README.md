# invenio-app-ils demo-data generators, modelled in Dafny

`invenio_app_ils/cli.py` fills a fresh library installation with demo data.
A `Holder` keeps one collection per entity, and a generator per entity fills
that collection. There are generators for documents with a run of periodical
issues, loans, series, record relations, document requests, borrowing
requests, vendors and acquisition orders. Each one draws from Python's
`random` module and `lorem`, and mints PIDs through `create_pid`.

The model makes these inputs explicit:

- **Randomness.** A `Random.Source` holds three oracles: random numbers, lorem
  text and fresh PIDs. A `Random.Cursor` counts the draws and PIDs used. Every
  generator threads the cursor, so the model fixes the order of draws in the
  source.
- **Clock.** The clock is a parameter: `now` for orders, and `clock(k)` for
  the k-th loan.
- **Exceptions.** Python's exceptions become the `Base.Error` branch of a
  `Result`:
  - `ValueError` from `randint`, `randrange` or `random.sample`;
  - `IndexError` from `random.choice` on an empty list and from `split()[0]`;
  - `KeyError` for a missing location;
  - `RecursionError` for `_get_item_can_circulate`.
- **The `Holder`.** It is a class whose fields are the collections. Each
  `generate` is a method that assigns or appends to its collection.
- **What is proved.** Each generator is proved against a predicate saying what
  every generated record looks like:
  - `LoanFits` for loans;
  - `DocumentFits` / `RunFits` for documents;
  - `SeriesFits` for series;
  - `RequestFits` for document requests;
  - `BorrowingFits` for borrowing requests;
  - `VendorFits` for vendors;
  - `OrderFits` / `LineFits` for orders.

  It is also proved against the exact conditions under which it raises.

The main results:

- **Loans.** No item is attached to two loans. A loan carries an item exactly
  when it is not pending, and only an item past the first one that can
  circulate. The dates of every state sit at the fixed day offsets of
  `_fill_loan`.
- **Periodical issues.** The ten issues after the regular documents are
  numbered in closed form: issue `k % 3 + 1`, volume `k / 3 + 1`, year
  `start + k / 3`. Their titles run from `Volume 1 Issue 1` to
  `Volume 4 Issue 1`.
- **Serial relations.** The volume of every serial relation is the number
  parsed from the issue title, which for the generated issues is the issue's
  volume. Multipart relations are numbered 1, 2, … over one to five
  non-periodical documents.
- **Requests and orders.** Fields that depend on the state are present exactly
  in the right states. Order lines number one to six, with bounded copy
  counts. Their documents are pairwise different whenever the documents were
  minted from a supply that never repeats a PID.

Modules, one file each:

- `base.dfy`: `Result`, `Option`, `Distinct`.
- `text.dfy`: digits, `str(n)`, `str.split`, `" ".join`, the `Volume N` regular expression.
- `random.dfy`: `randint`, `randrange`, `choice`, `sample`, lorem, `create_pid`.
- `records.dfy`: the record datatypes.
- `holder.dfy`: `Holder`.
- One file per generator: `documents.dfy`, `loans.dfy`, `series.dfy`,
  `relations.dfy`, `document_requests.dfy`, `borrowing_requests.dfy`,
  `vendors.dfy`, `orders.dfy`.

## Model

| member | source | states |
|---|---|---|
| Holders.Holder.constructor | invenio_app_ils/cli.py:64-99 | every collection starts empty with its requested total and the given patrons, languages, librarian and tags; no location yet |
| Holders.Pids | invenio_app_ils/cli.py:101-103 | `pids(collection, field)` has one entry per record, the i-th being the i-th record's PID |
| Holders.Holder.DocumentPids | invenio_app_ils/cli.py:101-103 | `pids("documents", "pid")`: same length as the documents, position by position their PIDs |
| Holders.Holder.LibraryPids | invenio_app_ils/cli.py:101-103 | `pids("libraries", "pid")`: same length as the libraries, position by position their PIDs |
| Random.SampleDistinct | invenio_app_ils/cli.py:683-685 | a `random.sample` of a duplicate-free list is duplicate-free |
| Random.SampleSubMultiset | invenio_app_ils/cli.py:683-685 | a `random.sample` takes distinct positions: no element occurs in it more often than in the population |
| Random.ShuffleCovers | invenio_app_ils/cli.py:625 | `random.sample(series, len(series))` contains every series, so the scan of `random_series` sees all of them |
| Text.NatToStringRoundTrip | invenio_app_ils/cli.py:658 | reading back the digits of `str(n)` gives `n` |
| Text.WordsJoin | invenio_app_ils/cli.py:825 | splitting `" ".join(parts)` gives back `parts` when each part is a word |
| Text.MatchVolume | invenio_app_ils/cli.py:655-660 | the case-insensitive `Volume (\d+)` matches exactly when the title starts with `volume`, a space and a digit; the group is the maximal digit run after the space |
| Text.MatchVolumeOf | invenio_app_ils/cli.py:655-660 | a title `Volume <digits><non-digit…>` yields exactly `<digits>` |
| DocumentGenerator.NewDocument | invenio_app_ils/cli.py:299-340 | `generate_document`: fresh PID; 1–3 distinct authors of `AUTHORS`; 1–3 languages; 1 to `len(tags)-1` tags; year 1700–2020 unless overridden; imprint date `<year>-08-02`; IndexError exactly on no document types; otherwise every error is a ValueError, and fewer than two tags or no languages always give one |
| DocumentGenerator.AdvanceWraps | invenio_app_ils/cli.py:362-367 | the issue stays in 1..3 and wraps from 3 to 1; volume and year grow by one exactly on the wrap |
| DocumentGenerator.AfterIssuesClosedForm | invenio_app_ils/cli.py:352-367 | after n turns the counters are volume `n/3+1`, issue `n%3+1`, year `start + n/3` |
| DocumentGenerator.IssueKwargsClosedForm | invenio_app_ils/cli.py:355-361 | the keyword arguments of the n-th periodical call are those of the closed form |
| DocumentGenerator.IssueTitlesRange | invenio_app_ils/cli.py:355-361 | the issue titles run from `Volume 1 Issue 1` to `Volume 4 Issue 1`, the last three years after the first |
| DocumentGenerator.MintedDistinct | invenio_app_ils/cli.py:304 | documents minted one after another from a non-repeating PID supply have pairwise different PIDs |
| DocumentGenerator.AppendDocument | invenio_app_ils/cli.py:356-361 | one more document with the next PID extends a run of fitting documents |
| DocumentGenerator.RegularDocuments | invenio_app_ils/cli.py:346-349 | `total` fitting regular documents with consecutive PIDs, or the error of `generate_document`; no documents asked means no error |
| DocumentGenerator.PeriodicalIssues | invenio_app_ils/cli.py:352-368 | ten periodical issues whose titles, years and editions follow the closed-form counters, starting in a year 1700–2000 |
| DocumentGenerator.Generate | invenio_app_ils/cli.py:342-369 | the documents become `total` regular ones followed by exactly ten issues, all with consecutive PIDs; IndexError whenever there are no document types, otherwise only ValueError, certain with fewer than two tags or no languages; an exception leaves the holder as it was |
| LoanGenerator.ItemCanCirculate | invenio_app_ils/cli.py:386-391 | the item found can circulate and sits at a position from 1 on; ValueError with fewer than two items |
| LoanGenerator.NoCirculatingItemFails | invenio_app_ils/cli.py:386-391 | with no circulating item past the first the search never succeeds |
| LoanGenerator.ValidStatus | invenio_app_ils/cli.py:393-400 | an item already on loan forces `PENDING` without drawing; otherwise one of the four states after one draw |
| LoanGenerator.FillValidRequest | invenio_app_ils/cli.py:402-409 | transaction 1–10 days before now; request starts 15 and expires 180 days after its date; nothing else changes |
| LoanGenerator.FillValidLoan | invenio_app_ils/cli.py:411-419 | transaction 10–30 days ago; start 1–5 days before it; end 30 days after start; extension count 0–3 |
| LoanGenerator.FillLoanReturned | invenio_app_ils/cli.py:421-428 | transaction 50–70 days ago; start 40–50 days before it; end 30 days after start |
| LoanGenerator.FillLoanCancelled | invenio_app_ils/cli.py:430-440 | transaction 50–100 days ago; expiry 180 days after it; start 40–50 days before it; end 30 days later; a cancel reason |
| LoanGenerator.FillLoan | invenio_app_ils/cli.py:442-452 | the fill for the loan's state sets its dates and only its own fields |
| LoanGenerator.StartBeforeTransaction | invenio_app_ils/cli.py:411-439 | every non-pending loan starts strictly before its transaction day and ends 30 days after it starts |
| LoanGenerator.DraftLoan | invenio_app_ils/cli.py:469-483 | item, state, patron, PID and document drawn in order, dates filled; an item already on loan gives a pending loan |
| LoanGenerator.DistinctItemPids | invenio_app_ils/cli.py:485-490 | when the collected item PIDs are duplicate-free, no two loans carry the same item |
| LoanGenerator.AttachFits | invenio_app_ils/cli.py:485-489 | attaching the item exactly to non-pending loans keeps every loan fitting |
| LoanGenerator.AttachDistinct | invenio_app_ils/cli.py:485-490 | `items_on_loan` grows by the item exactly when the loan is not pending, and stays duplicate-free |
| LoanGenerator.NextLoan | invenio_app_ils/cli.py:468-492 | one loop turn keeps all loans fitting and `items_on_loan` equal to their item PIDs, duplicate-free |
| LoanGenerator.AppendLoan | invenio_app_ils/cli.py:468-490 | one turn appends exactly the loan drawn, keeping all loans fitting and `items_on_loan` equal to their item PIDs; a failed turn appends nothing |
| LoanGenerator.AppendLoans | invenio_app_ils/cli.py:467-490 | the loop appends `size` fitting loans or stops at the first failure; with fewer than two items and `size > 0` it fails with ValueError before appending |
| LoanGenerator.Generate | invenio_app_ils/cli.py:454-492 | appends up to `total` loans that all fit (exactly `total` on success) and no item is on two of them; KeyError without a location, IndexError without delivery methods, ValueError with fewer than two items, success when `total` is 0; no other error kinds |
| SeriesGenerator.IssnOf | invenio_app_ils/cli.py:513-514 | two four-digit numbers joined by `-` form an ISSN-shaped string |
| SeriesGenerator.RandomIssn | invenio_app_ils/cli.py:511-514 | `random_issn` yields `NNNN-NNNN` with both halves in 1000..9999 |
| SeriesGenerator.RandomMultipart | invenio_app_ils/cli.py:516-523 | edition becomes the index; 1–2 ISBN identifiers are appended; nothing else changes |
| SeriesGenerator.SerialIdentifiers | invenio_app_ils/cli.py:527-532 | 1–3 ISSN identifiers with an `ONLINE`/`PRINT` material are appended |
| SeriesGenerator.RandomSerial | invenio_app_ils/cli.py:525-569 | ISSNs appended; abbreviated title is the title's first word; two alternative titles equal to the title; one-word publisher; two access URLs and two URLs; a blank title gives IndexError, and every error is an IndexError (a blank publisher sentence raises one too) |
| SeriesGenerator.GenerateMinimal | invenio_app_ils/cli.py:571-577 | a serial titled `Minimal Series` with a fresh PID and no other fields |
| SeriesGenerator.NewSeries | invenio_app_ils/cli.py:585-605 | authors a permutation of the document authors; 1–3 languages; serial or multipart details per the drawn mode; ValueError only with fewer than three languages |
| SeriesGenerator.SeriesRunAt | invenio_app_ils/cli.py:583-605 | the first series is the minimal one and the i-th after it fits for index i, each with the next PID |
| SeriesGenerator.AppendSeries | invenio_app_ils/cli.py:584-605 | one loop turn extends the run of fitting series |
| SeriesGenerator.Generate | invenio_app_ils/cli.py:579-607 | `total + 1` series, minimal first, all fitting; ValueError when series are wanted and there are no languages; an exception leaves the holder as it was |
| RecordRelationsGenerator.FirstOfMode | invenio_app_ils/cli.py:625-627 | a series of the mode from the list, and none exactly when no series has that mode |
| RecordRelationsGenerator.RandomSeries | invenio_app_ils/cli.py:623-627 | `random_series` returns a series of the asked mode, and `None` only when there is none |
| RecordRelationsGenerator.Filter | invenio_app_ils/cli.py:632-636 | a document is kept exactly when it is in the list and its periodical-ness matches |
| RecordRelationsGenerator.FilterPartition | invenio_app_ils/cli.py:632-636 | periodical and non-periodical documents together are as many as the documents |
| RecordRelationsGenerator.FilterDistinct | invenio_app_ils/cli.py:632-636 | filtering a duplicate-free list keeps it duplicate-free |
| RecordRelationsGenerator.SerialChildren | invenio_app_ils/cli.py:644-647 | the loop collects exactly the periodical issues, in order |
| RecordRelationsGenerator.RandomDocs | invenio_app_ils/cli.py:631-637 | 1 to `min(5, n)` distinct non-periodical documents; ValueError exactly when there is none |
| RecordRelationsGenerator.Volume | invenio_app_ils/cli.py:656-660 | the volume is the matched digit group when the title has a `Volume N`, and else exactly `str(index + 1)`, whose value is the position from 1 |
| RecordRelationsGenerator.IssueVolume | invenio_app_ils/cli.py:655-660 | the volume parsed from `Volume v Issue i` is `str(v)` |
| RecordRelationsGenerator.IssueArgsVolume | invenio_app_ils/cli.py:656-660 | the k-th generated issue gets volume `str(k/3 + 1)` |
| RecordRelationsGenerator.LinkedRunAt | invenio_app_ils/cli.py:656-675 | the k-th relation links the parent to the k-th child with its volume |
| RecordRelationsGenerator.LinkChildren | invenio_app_ils/cli.py:656-675 | one relation per child in order, each child appended to the related records |
| RecordRelationsGenerator.MultipartFits | invenio_app_ils/cli.py:668-675 | multipart relations are numbered 1, 2, … over non-periodical documents, never one document twice |
| RecordRelationsGenerator.SerialEdgeAt | invenio_app_ils/cli.py:656-667 | the k-th serial relation links the k-th periodical issue with the volume parsed from its title |
| RecordRelationsGenerator.GenerateParentChildRelations | invenio_app_ils/cli.py:629-675 | appends the serial parent, then every issue, then the multipart children; ValueError before any append when no non-periodical document exists |
| RecordRelationsGenerator.LinkSiblings | invenio_app_ils/cli.py:688-690 | one relation from the first sampled document to each other one, each appended |
| RecordRelationsGenerator.SiblingsCover | invenio_app_ils/cli.py:687-690 | the first document and the siblings are the whole sample |
| RecordRelationsGenerator.SampleSiblings | invenio_app_ils/cli.py:683-690 | 2 to `min(5, n)` sampled documents become one to four sibling relations; ValueError exactly with fewer than two documents |
| RecordRelationsGenerator.AddRandomRelations | invenio_app_ils/cli.py:682-695 | sibling relations, plus for `edition` one to the multipart monograph `random_series` finds |
| RecordRelationsGenerator.GenerateSiblingRelations | invenio_app_ils/cli.py:677-698 | language siblings, then edition siblings, appended in that order |
| RecordRelationsGenerator.Generate | invenio_app_ils/cli.py:700-703 | all relations in order; ValueError exactly when no non-periodical document or fewer than two documents; with one non-periodical document but fewer than two documents, the parent-child relations stay appended |
| DocumentRequestGenerator.NewRequest | invenio_app_ils/cli.py:723-737 | a reject reason exactly when rejected; a document PID exactly when accepted or rejected as `IN_CATALOG`; year 1700–2019; IndexError on each empty choice |
| DocumentRequestGenerator.Generate | invenio_app_ils/cli.py:718-740 | `total` fitting requests with consecutive PIDs, or an IndexError that leaves the holder as it was |
| BorrowingRequestGenerator.NewBorrowingRequest | invenio_app_ils/cli.py:795-802 | status and library drawn from their lists, a cancel reason exactly when cancelled; IndexError exactly when a list is empty |
| BorrowingRequestGenerator.Generate | invenio_app_ils/cli.py:790-805 | `total` fitting requests, or IndexError exactly when some are wanted and statuses or libraries are empty |
| VendorGenerator.RandomName | invenio_app_ils/cli.py:822-825 | the name is the first one or two words of a lorem sentence, empty only for a blank sentence |
| VendorGenerator.Generate | invenio_app_ils/cli.py:827-842 | `total` vendors with consecutive PIDs, names of at most two words and the fixed address, e-mail and phone |
| OrderGenerator.RandomDate | invenio_app_ils/cli.py:861-865 | a whole number of seconds after `start`, at least a second before `end`; ValueError exactly when they are less than a second apart |
| OrderGenerator.OrderLineFor | invenio_app_ils/cli.py:880-895 | 1–5 copies ordered; received 1..ordered only for `RECEIVED`, else 0; a known patron; IndexError exactly without patrons |
| OrderGenerator.OrderLinesFor | invenio_app_ils/cli.py:879-895 | one fitting line per sampled document, in the sample's order |
| OrderGenerator.RandomOrderLines | invenio_app_ils/cli.py:874-895 | 1–6 fitting lines for documents of the holder, pairwise different when the document PIDs are; ValueError when there are too few documents |
| OrderGenerator.OrderLinesDistinct | invenio_app_ils/cli.py:876-878 | with documents minted from a non-repeating supply, an order's lines name different documents |
| OrderGenerator.NewOrder | invenio_app_ils/cli.py:902-930 | order date from 2010 to `now`, delivery within 400 days after `now`, cancel reason exactly when cancelled, received date exactly when received and between order date and `now` |
| OrderGenerator.Generate | invenio_app_ils/cli.py:897-933 | `total` fitting orders with consecutive PIDs, or an error that leaves the holder as it was |

## Left out

- Persistence: `minter`, `Generator._persist` and every `persist()` store records through the host framework's database and PID store.
- `create_pid` is a foreign identifier provider, modelled as the PID oracle of `Random.Source`. `Random.FreshSupply` states that it never repeats, for the lemmas that need it.
- The click commands (`demo`, `data`, `patrons`, `index`, `setup`) and `create_userprofile_for` are file reading, indexing and shell orchestration.
- `LocationGenerator`, `InternalLocationGenerator`, `ItemGenerator`, `EItemGenerator` and `LibraryGenerator` are not part of this model. Their outputs (location PID, items, libraries) are inputs held by the `Holder`.
- `Holder` keeps no `internal_locations` or `eitems` collection, because no modelled generator reads them.
- Prices: `random_price`, `grand_total` and `grand_total_main_currency` use floating point. Their draws are counted, but their values are not kept.
- `funds` is the same: its sentence is drawn but its value is not kept.
- Lorem content is opaque text. Series keep their abstract and the serial notes and URL descriptions; vendors, orders, order lines and borrowing requests keep their notes.
- Documents: the abstract, note, keywords, table of contents and URL description are drawn but not kept, and neither is the imprint's place and publisher (the `random.choice` of `IMPRINTS` is drawn).
- Constant fields dropped from the records:
  - documents: `conference_info`, `open_access` and the URL `value`;
  - series: `internal_notes`, the alternative titles' `type`, `language` and `source`, the access URLs' `open_access` and `value`, and the URLs' `value`;
  - orders: `payment`;
  - loans: the `type` of `item_pid`.
- Dates are integer microseconds and calendar days are whole days since the epoch. `isoformat()` strings are not produced.
- `publication_year`, `edition` and `number_of_pages` are kept as numbers, not as their decimal strings.
- The constant lists defined on record classes outside this file are parameters of the generators:
  - `Document.DOCUMENT_TYPES`;
  - `DocumentRequest.STATES` and `REJECT_TYPES`;
  - `BorrowingRequest.STATUSES`;
  - `Order.STATUSES`;
  - the `CIRCULATION_DELIVERY_METHODS` setting.
- `random.sample` is modelled as k successive draws from the remaining positions, not as CPython's own selection algorithm. Only its size, membership and distinctness properties are relied on.
- `RecordRelationsParentChild.add`, `RecordRelationsSiblings.add` and `Relation.get_relation_by_name` belong to the framework. Each `rr.add` is recorded as an `Edge`. What the framework does with a `None` parent, when `random_series` finds no series of the mode, is not modelled.
- LoanGenerator.ItemCanCirculate: the recursion is bounded by a `depth` parameter that stands for Python's recursion limit. Running out of it is the `RecursionError` branch.
- LoanGenerator.Generate: `arrow.utcnow()` is read once per loan, modelled as `clock(k)` for the k-th loan.
- OrderGenerator.Generate: `datetime.now()` is read once, modelled as the parameter `now`.
- `Text.MatchVolume` treats only ASCII digits as `\d` and only ASCII letters under `re.IGNORECASE`. Python's Unicode digits and case folding are not modelled.
- `OrderLinesDistinct` relies on the documents having been minted as one run from a non-repeating supply. Holder contents built any other way are not covered.
