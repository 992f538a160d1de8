/** `DocumentGenerator`: `total` regular documents followed by ten issues of
    one periodical, numbered volume by volume, three issues a volume. */
module DocumentGenerator {
  import opened Base
  import opened Text
  import opened Random
  import opened Records
  import opened Holders

  const PERIODICAL_ISSUE := "PERIODICAL_ISSUE"

  /** The `full_name`s of `DocumentGenerator.AUTHORS`. */
  const AUTHORS: seq<string> := ["Close, Frank", "CERN", "Doe, Jane", "Doe, John"]

  /** The keyword arguments the periodical loop passes to `generate_document`. */
  datatype Periodical = Periodical(title: string, publicationYear: nat)

  /** What `generate_document(index, **kwargs)` promises of its result. */
  ghost predicate DocumentFits(
    d: Document, index: nat, languages: seq<string>, tags: seq<string>,
    documentTypes: seq<string>, kwargs: Option<Periodical>)
  {
    && d.edition == index
    && (match kwargs
        case Some(p) =>
          d.title == p.title && d.documentType == PERIODICAL_ISSUE
          && d.publicationYear == p.publicationYear
        case None =>
          d.documentType in documentTypes
          && 1700 <= d.publicationYear <= 2020)
    && d.imprintDate == NatToString(d.publicationYear) + "-08-02"
    && 1 <= |d.authors| <= 3 && Distinct(d.authors) && (forall a :: a in d.authors ==> a in AUTHORS)
    && 1 <= |d.languages| <= 3 && (forall l :: l in d.languages ==> l in languages)
    && (Distinct(languages) ==> Distinct(d.languages))
    && 1 <= |d.tags| < |tags| && (forall t :: t in d.tags ==> t in tags)
    && (Distinct(tags) ==> Distinct(d.tags))
    && d.numberOfPages <= 300
  }

  /** `generate_document(index, **kwargs)`. The default publication year is
      drawn even when `kwargs` overrides it, and `random.choice` on the
      document types happens before the override, so an empty list of types
      fails for periodicals too. The imprint, abstract, table of contents,
      note, keywords and URL description are drawn but not kept. */
  method NewDocument(
    src: Source, c: Cursor, languages: seq<string>, tags: seq<string>,
    documentTypes: seq<string>, index: nat, kwargs: Option<Periodical>) returns (r: Result<Drawn<Document>>)
    ensures |documentTypes| == 0 ==> r == Err(IndexError)
    ensures |documentTypes| > 0 && |tags| >= 2 && |languages| >= 3 ==> r.Ok?
    ensures |documentTypes| > 0 && (|tags| < 2 || |languages| == 0) ==> r == Err(ValueError)
    ensures |documentTypes| > 0 && r.Err? ==> r.error == ValueError
    ensures r.Ok? ==> DocumentFits(r.value.value, index, languages, tags, documentTypes, kwargs)
    ensures r.Ok? ==> r.value.value.pid == src.pid(c.minted) && r.value.next.minted == c.minted + 1
  {
    var year := RandInt(src, c, 1700, 2020);
    var imprint := Skip(year.next, 1);
    var pid := CreatePid(src, imprint);
    var title := Sentence(src, pid.next);
    var nAuthors := RandInt(src, title.next, 1, 3);
    var authors := Sample(src, nAuthors.next, AUTHORS, nAuthors.value);
    var abstractText := Sentence(src, authors.next);
    if |documentTypes| == 0 {
      return Err(IndexError);
    }
    var documentType := Choice(src, abstractText.next, documentTypes);
    var nLanguages := RandInt(src, documentType.next, 1, 3);
    if nLanguages.value > |languages| {
      return Err(ValueError);
    }
    var langs := Sample(src, nLanguages.next, languages, nLanguages.value);
    var tableOfContent := Sentence(src, langs.next);
    var note := Sentence(src, tableOfContent.next);
    if |tags| < 2 {
      return Err(ValueError);
    }
    var nTags := RandInt(src, note.next, 1, |tags| - 1);
    var tagSample := Sample(src, nTags.next, tags, nTags.value);
    var keywords := Skip(tagSample.next, 2);
    var pages := RandInt(src, keywords, 0, 300);
    var urlDescription := Sentence(src, pages.next);
    var publicationYear :=
      if kwargs.Some? then kwargs.value.publicationYear else year.value;
    var d := Document(
      pid.value,
      if kwargs.Some? then kwargs.value.title else title.value,
      if kwargs.Some? then PERIODICAL_ISSUE else documentType.value,
      publicationYear,
      NatToString(publicationYear) + "-08-02",
      index,
      authors.value, langs.value, tagSample.value,
      pages.value);
    SampleDistinct(src, nAuthors.next, AUTHORS, nAuthors.value);
    SampleDistinct(src, nLanguages.next, languages, nLanguages.value);
    SampleDistinct(src, nTags.next, tags, nTags.value);
    assert Distinct(AUTHORS);
    assert 1 <= |d.authors| <= 3 && Distinct(d.authors);
    assert forall a :: a in d.authors ==> a in AUTHORS;
    assert 1 <= |d.languages| <= 3 && (forall l :: l in d.languages ==> l in languages);
    assert Distinct(languages) ==> Distinct(d.languages);
    assert 1 <= |d.tags| < |tags| && (forall t :: t in d.tags ==> t in tags);
    assert Distinct(tags) ==> Distinct(d.tags);
    r := Ok(Drawn(d, urlDescription.next));
  }

  /** The periodical loop's counters: volume, issue and publication year. */
  datatype IssueCounter = IssueCounter(volume: nat, issue: nat, year: nat)

  /** One turn of the periodical loop (after the document is appended). */
  function Advance(k: IssueCounter): IssueCounter {
    if k.issue == 3 then IssueCounter(k.volume + 1, 1, k.year + 1)
    else IssueCounter(k.volume, k.issue + 1, k.year)
  }

  /** The issue runs 1, 2, 3 and wraps to 1; volume and year each move up
      by one exactly on the wrap and stay put otherwise. */
  lemma AdvanceWraps(k: IssueCounter)
    requires 1 <= k.issue <= 3
    ensures 1 <= Advance(k).issue <= 3
    ensures Advance(k).issue == 1 <==> k.issue == 3
    ensures Advance(k).volume == k.volume + 1 <==> k.issue == 3
    ensures Advance(k).year == k.year + 1 <==> k.issue == 3
    ensures k.issue != 3 ==> Advance(k) == IssueCounter(k.volume, k.issue + 1, k.year)
  {
  }

  /** The counters after `n` turns, starting from volume 1, issue 1. */
  function AfterIssues(year: nat, n: nat): IssueCounter {
    if n == 0 then IssueCounter(1, 1, year) else Advance(AfterIssues(year, n - 1))
  }

  /** The n-th periodical issue (from 0) is issue n mod 3 + 1 of volume
      n div 3 + 1, published n div 3 years after the first. */
  lemma {:induction false} AfterIssuesClosedForm(year: nat, n: nat)
    ensures AfterIssues(year, n) == IssueCounter(n / 3 + 1, n % 3 + 1, year + n / 3)
  {
    if n > 0 {
      AfterIssuesClosedForm(year, n - 1);
    }
  }

  /** `"Volume {} Issue {}".format(volume, issue)`. */
  function PeriodicalTitle(volume: nat, issue: nat): string {
    "Volume " + NatToString(volume) + " Issue " + NatToString(issue)
  }

  /** The keyword arguments the periodical loop builds from its counters. */
  function IssueKwargs(k: IssueCounter): Periodical {
    Periodical(PeriodicalTitle(k.volume, k.issue), k.year)
  }

  /** The keyword arguments of the k-th periodical issue (from 0) of a run
      that starts in `startYear`, in closed form. */
  function IssueArgs(startYear: nat, k: nat): Periodical {
    Periodical(PeriodicalTitle(k / 3 + 1, k % 3 + 1), startYear + k / 3)
  }

  /** After `n` turns the loop passes the closed-form keyword arguments. */
  lemma IssueKwargsClosedForm(startYear: nat, n: nat)
    ensures IssueKwargs(AfterIssues(startYear, n)) == IssueArgs(startYear, n)
  {
    AfterIssuesClosedForm(startYear, n);
  }

  /** The ten issues run from "Volume 1 Issue 1" to "Volume 4 Issue 1". */
  lemma IssueTitlesRange(startYear: nat)
    ensures IssueArgs(startYear, 0).title == "Volume 1 Issue 1"
    ensures IssueArgs(startYear, 9).title == "Volume 4 Issue 1"
    ensures IssueArgs(startYear, 9).publicationYear == startYear + 3
  {
    assert NatToString(1) == "1";
    assert NatToString(4) == "4";
  }

  /** The keyword arguments of the k-th document (from 0) of a run: none
      for regular documents, the counters' after k turns for a periodical
      run that starts in the given year (`IssueArgs` by
      `IssueKwargsClosedForm`). */
  function KwargsAt(periodicalStart: Option<nat>, k: nat): Option<Periodical> {
    match periodicalStart
    case None => None
    case Some(y) => Some(IssueKwargs(AfterIssues(y, k)))
  }

  /** Every document of `docs` fits its position: the k-th (from 0) is
      edition k + 1 with the keyword arguments `KwargsAt` gives. */
  ghost predicate RunFits(
    docs: seq<Document>, languages: seq<string>, tags: seq<string>,
    documentTypes: seq<string>, periodicalStart: Option<nat>)
    decreases |docs|
  {
    docs == []
    || (&& RunFits(docs[..|docs| - 1], languages, tags, documentTypes, periodicalStart)
        && DocumentFits(docs[|docs| - 1], |docs|, languages, tags, documentTypes,
                        KwargsAt(periodicalStart, |docs| - 1)))
  }

  /** Appending a document that fits the next position extends a run. */
  lemma RunFitsAppend(
    docs: seq<Document>, d: Document, languages: seq<string>, tags: seq<string>,
    documentTypes: seq<string>, periodicalStart: Option<nat>)
    requires RunFits(docs, languages, tags, documentTypes, periodicalStart)
    requires DocumentFits(d, |docs| + 1, languages, tags, documentTypes, KwargsAt(periodicalStart, |docs|))
    ensures RunFits(docs + [d], languages, tags, documentTypes, periodicalStart)
  {
    assert (docs + [d])[..|docs|] == docs;
  }

  /** A run read position by position. */
  lemma {:induction false} RunFitsAt(
    docs: seq<Document>, languages: seq<string>, tags: seq<string>,
    documentTypes: seq<string>, periodicalStart: Option<nat>, k: nat)
    requires RunFits(docs, languages, tags, documentTypes, periodicalStart)
    requires k < |docs|
    ensures DocumentFits(docs[k], k + 1, languages, tags, documentTypes, KwargsAt(periodicalStart, k))
    decreases |docs|
  {
    if k < |docs| - 1 {
      RunFitsAt(docs[..|docs| - 1], languages, tags, documentTypes, periodicalStart, k);
    }
  }

  /** The documents carry consecutive PIDs of the supply from `first` on. */
  ghost predicate MintedFrom(docs: seq<Document>, src: Source, first: nat)
    decreases |docs|
  {
    docs == []
    || (MintedFrom(docs[..|docs| - 1], src, first)
        && docs[|docs| - 1].pid == src.pid(first + |docs| - 1))
  }

  /** Appending a document with the next PID extends the run. */
  lemma MintedAppend(docs: seq<Document>, d: Document, src: Source, first: nat)
    requires MintedFrom(docs, src, first) && d.pid == src.pid(first + |docs|)
    ensures MintedFrom(docs + [d], src, first)
  {
    assert (docs + [d])[..|docs|] == docs;
  }

  /** The i-th document carries the i-th PID from `first`. */
  lemma {:induction false} MintedAt(docs: seq<Document>, src: Source, first: nat, i: nat)
    requires MintedFrom(docs, src, first) && i < |docs|
    ensures docs[i].pid == src.pid(first + i)
    decreases |docs|
  {
    if i < |docs| - 1 {
      MintedAt(docs[..|docs| - 1], src, first, i);
    }
  }

  /** Two runs of consecutive PIDs, the second starting where the first
      stops, make one run. */
  lemma {:induction false} MintedConcat(a: seq<Document>, b: seq<Document>, src: Source, first: nat)
    requires MintedFrom(a, src, first) && MintedFrom(b, src, first + |a|)
    ensures MintedFrom(a + b, src, first)
    decreases |b|
  {
    if b != [] {
      var n := |b| - 1;
      MintedConcat(a, b[..n], src, first);
      assert (a + b)[..|a| + n] == a + b[..n];
      assert (a + b)[|a| + n] == b[n];
    } else {
      assert a + b == a;
    }
  }

  /** With a PID supply that never repeats itself, documents minted as one
      run carry pairwise different PIDs. */
  lemma MintedDistinct(docs: seq<Document>, src: Source, first: nat)
    requires FreshSupply(src) && MintedFrom(docs, src, first)
    ensures Distinct(Pids(docs, (d: Document) => d.pid))
  {
    var ps := Pids(docs, (d: Document) => d.pid);
    forall i, j | 0 <= i < j < |ps| ensures ps[i] != ps[j] {
      MintedAt(docs, src, first, i);
      MintedAt(docs, src, first, j);
    }
  }

  /** `objs.append(self.generate_document(index, **kwargs))` for the next
      index of a run: the run grows by one fitting document with the next
      PID, or the exception of `generate_document` surfaces. */
  method AppendDocument(
    src: Source, c: Cursor, languages: seq<string>, tags: seq<string>, documentTypes: seq<string>,
    objs: seq<Document>, ghost first: nat, ghost periodicalStart: Option<nat>, kwargs: Option<Periodical>)
    returns (r: Result<Drawn<seq<Document>>>)
    requires kwargs == KwargsAt(periodicalStart, |objs|)
    requires MintedFrom(objs, src, first) && c.minted == first + |objs|
    requires RunFits(objs, languages, tags, documentTypes, periodicalStart)
    ensures r.Ok? ==> |r.value.value| == |objs| + 1 && r.value.next.minted == c.minted + 1
    ensures r.Ok? ==> MintedFrom(r.value.value, src, first)
    ensures r.Ok? ==> RunFits(r.value.value, languages, tags, documentTypes, periodicalStart)
    ensures |documentTypes| == 0 ==> r == Err(IndexError)
    ensures |documentTypes| > 0 && |tags| >= 2 && |languages| >= 3 ==> r.Ok?
    ensures |documentTypes| > 0 && (|tags| < 2 || |languages| == 0) ==> r == Err(ValueError)
    ensures |documentTypes| > 0 && r.Err? ==> r.error == ValueError
  {
    var d := NewDocument(src, c, languages, tags, documentTypes, |objs| + 1, kwargs);
    if d.Err? {
      return Err(d.error);
    }
    RunFitsAppend(objs, d.value.value, languages, tags, documentTypes, periodicalStart);
    MintedAppend(objs, d.value.value, src, first);
    r := Ok(Drawn(objs + [d.value.value], d.value.next));
  }

  /** The list comprehension of `DocumentGenerator.generate`: documents
      1..size, each by `generate_document(index)`, each with the next PID. */
  method RegularDocuments(
    src: Source, c0: Cursor, languages: seq<string>, tags: seq<string>,
    documentTypes: seq<string>, size: nat) returns (r: Result<Drawn<seq<Document>>>)
    ensures r.Ok? ==> |r.value.value| == size && r.value.next.minted == c0.minted + size
    ensures r.Ok? ==> MintedFrom(r.value.value, src, c0.minted)
    ensures r.Ok? ==> RunFits(r.value.value, languages, tags, documentTypes, None)
    ensures size > 0 && |documentTypes| == 0 ==> r == Err(IndexError)
    ensures |documentTypes| > 0 && |tags| >= 2 && |languages| >= 3 ==> r.Ok?
    ensures size > 0 && |documentTypes| > 0 && (|tags| < 2 || |languages| == 0) ==> r == Err(ValueError)
    ensures |documentTypes| > 0 && r.Err? ==> r.error == ValueError
    ensures size == 0 ==> r.Ok?
  {
    var objs: seq<Document> := [];
    var c := c0;
    var index := 1;
    while index <= size
      invariant 1 <= index <= size + 1
      invariant |objs| == index - 1
      invariant c.minted == c0.minted + |objs|
      invariant MintedFrom(objs, src, c0.minted)
      invariant RunFits(objs, languages, tags, documentTypes, None)
      invariant |documentTypes| == 0 || |tags| < 2 || |languages| == 0 ==> index == 1
    {
      var next := AppendDocument(src, c, languages, tags, documentTypes, objs, c0.minted, None, None);
      if next.Err? {
        return Err(next.error);
      }
      objs, c := next.value.value, next.value.next;
      index := index + 1;
    }
    r := Ok(Drawn(objs, c));
  }

  /** The periodical loop of `DocumentGenerator.generate`: ten issues whose
      title and year follow the volume/issue counters, each with the next
      PID; `startYear` is the year drawn for the first volume. */
  method PeriodicalIssues(
    src: Source, c0: Cursor, languages: seq<string>, tags: seq<string>,
    documentTypes: seq<string>) returns (r: Result<Drawn<seq<Document>>>, ghost startYear: nat)
    ensures r.Ok? ==> |r.value.value| == 10 && r.value.next.minted == c0.minted + 10
    ensures r.Ok? ==> MintedFrom(r.value.value, src, c0.minted)
    ensures r.Ok? ==> 1700 <= startYear <= 2000
    ensures r.Ok? ==> RunFits(r.value.value, languages, tags, documentTypes, Some(startYear))
    ensures |documentTypes| == 0 ==> r == Err(IndexError)
    ensures |documentTypes| > 0 && |tags| >= 2 && |languages| >= 3 ==> r.Ok?
    ensures |documentTypes| > 0 && (|tags| < 2 || |languages| == 0) ==> r == Err(ValueError)
    ensures |documentTypes| > 0 && r.Err? ==> r.error == ValueError
  {
    var year := RandInt(src, c0, 1700, 2000);
    var c := year.next;
    var firstYear: nat := year.value;
    startYear := firstYear;
    var objs: seq<Document> := [];
    var counter := IssueCounter(1, 1, firstYear);
    var index := 1;
    while index <= 10
      invariant 1 <= index <= 11
      invariant |objs| == index - 1
      invariant counter == AfterIssues(firstYear, index - 1)
      invariant c.minted == c0.minted + |objs|
      invariant MintedFrom(objs, src, c0.minted)
      invariant RunFits(objs, languages, tags, documentTypes, Some(firstYear))
      invariant |documentTypes| == 0 || |tags| < 2 || |languages| == 0 ==> index == 1
    {
      var next := AppendDocument(
        src, c, languages, tags, documentTypes, objs, c0.minted, Some(firstYear), Some(IssueKwargs(counter)));
      if next.Err? {
        return Err(next.error), startYear;
      }
      objs, c := next.value.value, next.value.next;
      counter := Advance(counter);
      index := index + 1;
    }
    r := Ok(Drawn(objs, c));
  }

  /** `DocumentGenerator.generate`: on success the holder's documents are
      the `total` regular ones (editions 1..total) followed by exactly ten
      periodical issues (editions 1..10) numbered as `IssueArgs` says; every
      document gets the next PID of the supply. On an exception the holder
      is left as it was. */
  method Generate(holder: Holder, src: Source, c0: Cursor, documentTypes: seq<string>)
    returns (r: Result<Cursor>, ghost startYear: nat)
    modifies holder`documents
    ensures r.Err? ==> holder.documents == old(holder.documents)
    ensures r.Ok? ==> |holder.documents| == holder.totalDocuments + 10
    ensures r.Ok? ==> r.value.minted == c0.minted + |holder.documents|
    ensures r.Ok? ==> MintedFrom(holder.documents, src, c0.minted)
    ensures r.Ok? ==> RunFits(holder.documents[..holder.totalDocuments],
                              holder.languages, holder.tags, documentTypes, None)
    ensures r.Ok? ==> 1700 <= startYear <= 2000
    ensures r.Ok? ==> RunFits(holder.documents[holder.totalDocuments..],
                              holder.languages, holder.tags, documentTypes, Some(startYear))
    ensures |documentTypes| > 0 && |holder.tags| >= 2 && |holder.languages| >= 3 ==> r.Ok?
    ensures |documentTypes| == 0 ==> r == Err(IndexError)
    ensures |documentTypes| > 0 && (|holder.tags| < 2 || |holder.languages| == 0) ==> r == Err(ValueError)
    ensures |documentTypes| > 0 && r.Err? ==> r.error == ValueError
  {
    startYear := 0;
    var size := holder.totalDocuments;
    var regular := RegularDocuments(src, c0, holder.languages, holder.tags, documentTypes, size);
    if regular.Err? {
      return Err(regular.error), startYear;
    }
    var issues;
    issues, startYear := PeriodicalIssues(src, regular.value.next, holder.languages, holder.tags, documentTypes);
    if issues.Err? {
      return Err(issues.error), startYear;
    }
    var objs := regular.value.value + issues.value.value;
    assert objs[..size] == regular.value.value;
    assert objs[size..] == issues.value.value;
    MintedConcat(regular.value.value, issues.value.value, src, c0.minted);
    holder.documents := objs;
    r := Ok(issues.value.next);
  }
}
