/** `SeriesGenerator`: one minimal serial followed by `total` series whose
    mode of issuance decides which fields they get. */
module SeriesGenerator {
  import opened Base
  import opened Text
  import opened Random
  import opened Records
  import opened Holders
  import DocumentGenerator

  const SERIAL := "SERIAL"
  const MULTIPART_MONOGRAPH := "MULTIPART_MONOGRAPH"
  const MODE_OF_ISSUANCE: seq<string> := [MULTIPART_MONOGRAPH, SERIAL]
  const MATERIALS: seq<string> := ["ONLINE", "PRINT"]
  const MINIMAL_TITLE := "Minimal Series"

  /** The shape `random_issn` produces: two numbers from 1000 to 9999,
      printed in decimal and joined by a hyphen. Each half reads back as
      the number it prints. */
  predicate IsIssn(s: string) {
    |s| == 9 && s[4] == '-' && NumeralIn(s[..4], 1000, 9999) && NumeralIn(s[5..], 1000, 9999)
  }

  /** Joining two four-character strings with a hyphen keeps both halves. */
  lemma HyphenJoin(x: string, y: string)
    requires |x| == 4 && |y| == 4
    ensures var s := x + "-" + y; |s| == 9 && s[4] == '-' && s[..4] == x && s[5..] == y
  {
    var s := x + "-" + y;
    assert s[..4] == x;
    assert s[5..] == y;
  }

  /** Two four-digit numbers joined by a hyphen have the ISSN shape. */
  lemma IssnOf(a: nat, b: nat)
    requires 1000 <= a <= 9999 && 1000 <= b <= 9999
    ensures IsIssn(NatToString(a) + "-" + NatToString(b))
  {
    var x, y := NatToString(a), NatToString(b);
    NatToStringFourDigits(a);
    NatToStringFourDigits(b);
    HyphenJoin(x, y);
    NumeralInOf(a, 1000, 9999);
    NumeralInOf(b, 1000, 9999);
  }

  /** `random_issn`: `"-".join(str(r) for r in [randint(1000, 9999), randint(1000, 9999)])`. */
  function RandomIssn(src: Source, c: Cursor): (r: Drawn<string>)
    ensures IsIssn(r.value)
    ensures r.next == Skip(c, 2)
  {
    var a := RandInt(src, c, 1000, 9999);
    var b := RandInt(src, a.next, 1000, 9999);
    IssnOf(a.value, b.value);
    Drawn(NatToString(a.value) + "-" + NatToString(b.value), b.next)
  }

  /** An identifier `random_multipart` appends. */
  predicate IsbnFits(id: Identifier) {
    id.scheme == "ISBN" && id.material.None? && IsIssn(id.value)
  }

  /** An identifier `random_serial` appends. */
  predicate IssnFits(id: Identifier) {
    id.scheme == "ISSN" && id.material.Some? && id.material.value in MATERIALS && IsIssn(id.value)
  }

  /** `ids` is `old` followed by between `lo` and `hi` identifiers that all
      satisfy `fits`. */
  ghost predicate GrownBy(old_: seq<Identifier>, ids: seq<Identifier>, lo: nat, hi: nat, fits: Identifier -> bool) {
    |old_| + lo <= |ids| <= |old_| + hi && ids[..|old_|] == old_
    && forall i :: |old_| <= i < |ids| ==> fits(ids[i])
  }

  /** `random_multipart(obj, index)`: the edition becomes `str(index)` and
      one or two ISBNs are appended to the identifiers; nothing else
      changes and no PID is minted. */
  method RandomMultipart(src: Source, c: Cursor, details: SeriesDetails, index: nat)
    returns (r: Drawn<SeriesDetails>)
    ensures r.value == details.(edition := Some(index), identifiers := r.value.identifiers)
    ensures GrownBy(details.identifiers, r.value.identifiers, 1, 2, IsbnFits)
    ensures r.next.minted == c.minted
  {
    var count := RandInt(src, c, 1, 2);
    var ids := details.identifiers;
    var cur := count.next;
    var n := 0;
    while n < count.value
      invariant 0 <= n <= count.value
      invariant |ids| == |details.identifiers| + n && ids[..|details.identifiers|] == details.identifiers
      invariant forall i :: |details.identifiers| <= i < |ids| ==> IsbnFits(ids[i])
      invariant cur.minted == c.minted
    {
      var issn := RandomIssn(src, cur);
      ids := ids + [Identifier("ISBN", issn.value, None)];
      cur := issn.next;
      n := n + 1;
    }
    r := Drawn(details.(edition := Some(index), identifiers := ids), cur);
  }

  /** The serial fields of a series titled `title`: the abbreviated title
      is the first word of the title, both alternative titles repeat the
      title, the publisher is a single word, and there are two access URLs
      and two URLs. */
  predicate SerialFits(serial: Option<SerialDetails>, title: string) {
    && serial.Some?
    && |Words(title)| > 0 && serial.value.abbreviatedTitle == Words(title)[0]
    && IsWord(serial.value.abbreviatedTitle)
    && serial.value.alternativeTitles == [title, title]
    && IsWord(serial.value.publisher)
    && |serial.value.accessUrls| == 2 && |serial.value.urls| == 2
  }

  /** The identifier loop of `random_serial`: one to three ISSNs, each with
      a random material. */
  method SerialIdentifiers(src: Source, c: Cursor, ids0: seq<Identifier>)
    returns (r: Drawn<seq<Identifier>>)
    ensures GrownBy(ids0, r.value, 1, 3, IssnFits)
    ensures r.next.minted == c.minted
  {
    var count := RandInt(src, c, 1, 3);
    var ids := ids0;
    var cur := count.next;
    var n := 0;
    while n < count.value
      invariant 0 <= n <= count.value
      invariant |ids| == |ids0| + n && ids[..|ids0|] == ids0
      invariant forall i :: |ids0| <= i < |ids| ==> IssnFits(ids[i])
      invariant cur.minted == c.minted
    {
      var material := Choice(src, cur, MATERIALS);
      var issn := RandomIssn(src, material.next);
      ids := ids + [Identifier("ISSN", issn.value, Some(material.value))];
      cur := issn.next;
      n := n + 1;
    }
    r := Drawn(ids, cur);
  }

  /** `random_serial(obj)`. `obj["title"].split()[0]` and
      `lorem.sentence().split()[0]` raise IndexError on a blank string;
      otherwise one to three ISSNs are appended and the serial fields set,
      and nothing else changes. */
  method RandomSerial(src: Source, c: Cursor, title: string, details: SeriesDetails)
    returns (r: Result<Drawn<SeriesDetails>>)
    ensures Words(title) == [] ==> r == Err(IndexError)
    ensures r.Err? ==> r.error == IndexError
    ensures r.Ok? ==> r.value.value == details.(identifiers := r.value.value.identifiers, serial := r.value.value.serial)
    ensures r.Ok? ==> GrownBy(details.identifiers, r.value.value.identifiers, 1, 3, IssnFits)
    ensures r.Ok? ==> SerialFits(r.value.value.serial, title)
    ensures r.Ok? ==> r.value.next.minted == c.minted
  {
    var ids := SerialIdentifiers(src, c, details.identifiers);
    var titleWords := Words(title);
    if titleWords == [] {
      return Err(IndexError);
    }
    var notes := Sentence(src, ids.next);
    var publisherSentence := Sentence(src, notes.next);
    var publisherWords := Words(publisherSentence.value);
    if publisherWords == [] {
      return Err(IndexError);
    }
    var access1 := Sentence(src, publisherSentence.next);
    var access2 := Sentence(src, access1.next);
    var url1 := Sentence(src, access2.next);
    var url2 := Sentence(src, url1.next);
    var serial := SerialDetails(
      titleWords[0], [title, title], notes.value, publisherWords[0],
      [access1.value, access2.value], [url1.value, url2.value]);
    r := Ok(Drawn(details.(identifiers := ids.value, serial := Some(serial)), url2.next));
  }

  /** `generate_minimal`: a serial with only a PID, the mode of issuance and
      the title "Minimal Series". */
  function GenerateMinimal(src: Source, c: Cursor): (r: Drawn<Series>)
    ensures r.value.pid == src.pid(c.minted) && r.next.minted == c.minted + 1
    ensures r.value.modeOfIssuance == SERIAL && r.value.title == MINIMAL_TITLE
    ensures r.value.details.None?
  {
    var pid := CreatePid(src, c);
    Drawn(Series(pid.value, SERIAL, MINIMAL_TITLE, None), pid.next)
  }

  /** What the loop of `generate` promises of the series with number
      `index`: the authors are a shuffle of all of `DocumentGenerator.AUTHORS`,
      one to three languages are sampled, and the mode of issuance decides
      the rest. */
  ghost predicate SeriesFits(s: Series, index: nat, languages: seq<string>) {
    && s.modeOfIssuance in MODE_OF_ISSUANCE
    && s.details.Some?
    && var d := s.details.value;
    && |d.authors| == |DocumentGenerator.AUTHORS| && Distinct(d.authors)
    && (forall a :: a in d.authors <==> a in DocumentGenerator.AUTHORS)
    && 1 <= |d.languages| <= 3 && (forall l :: l in d.languages ==> l in languages)
    && (Distinct(languages) ==> Distinct(d.languages))
    && (s.modeOfIssuance == SERIAL ==>
          d.edition.None? && GrownBy([], d.identifiers, 1, 3, IssnFits) && SerialFits(d.serial, s.title))
    && (s.modeOfIssuance == MULTIPART_MONOGRAPH ==>
          d.edition == Some(index) && GrownBy([], d.identifiers, 1, 2, IsbnFits) && d.serial.None?)
  }

  /** One turn of the loop of `generate`: mode of issuance, shuffled
      authors, PID, title, abstract and languages, then the serial or
      multipart fields. `random.sample(languages, randint(1, 3))` raises
      ValueError when fewer languages than drawn are available. */
  method NewSeries(src: Source, c: Cursor, languages: seq<string>, index: nat)
    returns (r: Result<Drawn<Series>>)
    ensures |languages| == 0 ==> r == Err(ValueError)
    ensures r.Err? ==> r.error == IndexError || (r.error == ValueError && |languages| < 3)
    ensures r.Ok? ==> SeriesFits(r.value.value, index, languages)
    ensures r.Ok? ==> r.value.value.pid == src.pid(c.minted) && r.value.next.minted == c.minted + 1
  {
    var moi := Choice(src, c, MODE_OF_ISSUANCE);
    var authors := Sample(src, moi.next, DocumentGenerator.AUTHORS, |DocumentGenerator.AUTHORS|);
    var pid := CreatePid(src, authors.next);
    var title := Sentence(src, pid.next);
    var abstractText := Sentence(src, title.next);
    var nLanguages := RandInt(src, abstractText.next, 1, 3);
    if nLanguages.value > |languages| {
      return Err(ValueError);
    }
    var langs := Sample(src, nLanguages.next, languages, nLanguages.value);
    var details := SeriesDetails(authors.value, abstractText.value, langs.value, [], None, None);
    SampleDistinct(src, moi.next, DocumentGenerator.AUTHORS, |DocumentGenerator.AUTHORS|);
    SampleDistinct(src, nLanguages.next, languages, nLanguages.value);
    assert Distinct(DocumentGenerator.AUTHORS);
    ShuffleCoversAll(src, moi.next, DocumentGenerator.AUTHORS);
    var shaped: Drawn<SeriesDetails>;
    if moi.value == SERIAL {
      var serial := RandomSerial(src, langs.next, title.value, details);
      if serial.Err? {
        return Err(serial.error);
      }
      shaped := serial.value;
    } else {
      shaped := RandomMultipart(src, langs.next, details, index);
    }
    r := Ok(Drawn(Series(pid.value, moi.value, title.value, Some(shaped.value)), shaped.next));
  }

  /** `objs` is the list `generate` builds: the minimal serial, then series
      1, 2, … as `SeriesFits` says, the k-th taking the k-th PID of the
      supply from `first`. */
  ghost predicate SeriesRun(objs: seq<Series>, languages: seq<string>, src: Source, first: nat)
    decreases |objs|
  {
    if objs == [] then true
    else
      var k := |objs| - 1;
      && SeriesRun(objs[..k], languages, src, first)
      && objs[k].pid == src.pid(first + k)
      && (if k == 0 then objs[k].modeOfIssuance == SERIAL && objs[k].title == MINIMAL_TITLE && objs[k].details.None?
          else SeriesFits(objs[k], k, languages))
  }

  /** Every position of a run holds what `SeriesRun` says of it. */
  lemma {:induction false} SeriesRunAt(objs: seq<Series>, languages: seq<string>, src: Source, first: nat, i: nat)
    requires SeriesRun(objs, languages, src, first) && i < |objs|
    ensures objs[i].pid == src.pid(first + i)
    ensures i == 0 ==> objs[i].modeOfIssuance == SERIAL && objs[i].title == MINIMAL_TITLE && objs[i].details.None?
    ensures i > 0 ==> SeriesFits(objs[i], i, languages)
    decreases |objs|
  {
    if i < |objs| - 1 {
      var prefix := objs[..|objs| - 1];
      SeriesRunAt(prefix, languages, src, first, i);
      assert objs[i] == prefix[i];
    }
  }

  /** `objs.append(obj)` for the next series of the loop: the run grows by
      one fitting series with the next PID, or the exception surfaces. */
  method AppendSeries(src: Source, c: Cursor, languages: seq<string>, objs: seq<Series>, ghost first: nat)
    returns (r: Result<Drawn<seq<Series>>>)
    requires SeriesRun(objs, languages, src, first) && c.minted == first + |objs| && |objs| >= 1
    ensures r.Ok? ==> |r.value.value| == |objs| + 1 && r.value.next.minted == c.minted + 1
    ensures r.Ok? ==> SeriesRun(r.value.value, languages, src, first)
    ensures |languages| == 0 ==> r == Err(ValueError)
    ensures r.Err? ==> r.error == IndexError || (r.error == ValueError && |languages| < 3)
  {
    var next := NewSeries(src, c, languages, |objs|);
    if next.Err? {
      return Err(next.error);
    }
    var grown := objs + [next.value.value];
    assert grown[..|objs|] == objs;
    r := Ok(Drawn(grown, next.value.next));
  }

  /** `SeriesGenerator.generate`: on success the holder's series are the
      minimal serial followed by `total` series that fit their index, each
      with the next PID; the list is stored only at the end, so on an
      exception the holder is left as it was. */
  method Generate(holder: Holder, src: Source, c0: Cursor) returns (r: Result<Cursor>)
    modifies holder`series
    ensures r.Err? ==> holder.series == old(holder.series)
    ensures r.Err? ==> r.error == IndexError || (r.error == ValueError && |holder.languages| < 3)
    ensures holder.totalSeries > 0 && |holder.languages| == 0 ==> r == Err(ValueError)
    ensures r.Ok? ==> |holder.series| == holder.totalSeries + 1
    ensures r.Ok? ==> r.value.minted == c0.minted + |holder.series|
    ensures r.Ok? ==> SeriesRun(holder.series, holder.languages, src, c0.minted)
  {
    var size := holder.totalSeries;
    var minimal := GenerateMinimal(src, c0);
    var objs := [minimal.value];
    var c := minimal.next;
    assert objs[..0] == [];
    var index := 1;
    while index <= size
      invariant 1 <= index <= size + 1 && |objs| == index
      invariant c.minted == c0.minted + |objs|
      invariant SeriesRun(objs, holder.languages, src, c0.minted)
      invariant holder.series == old(holder.series)
      invariant |holder.languages| == 0 ==> index == 1
    {
      var next := AppendSeries(src, c, holder.languages, objs, c0.minted);
      if next.Err? {
        return Err(next.error);
      }
      objs, c := next.value.value, next.value.next;
      index := index + 1;
    }
    holder.series := objs;
    r := Ok(c);
  }
}
