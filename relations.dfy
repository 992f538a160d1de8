/** `RecordRelationsGenerator`: parent-child relations from a serial to the
    periodical issues and from a multipart monograph to a few other
    documents, then two groups of sibling documents. Every record that
    takes part is appended to `holder.related_records`. */
module RecordRelationsGenerator {
  import opened Base
  import opened Text
  import opened Random
  import opened Records
  import opened Holders
  import DocumentGenerator
  import SeriesGenerator

  /** The names passed to `Relation.get_relation_by_name`. */
  const SERIAL_RELATION := "serial"
  const MULTIPART_RELATION := "multipart_monograph"
  const LANGUAGE_RELATION := "language"
  const EDITION_RELATION := "edition"

  /** One `rr.add(parent, child, relation_type=..., volume=...)`. */
  datatype Edge = Edge(parent: Related, child: Related, relation: string, volume: Option<string>)

  /** The children of a list of relations, in order. */
  function Children(edges: seq<Edge>): (r: seq<Related>)
    ensures |r| == |edges|
    ensures forall i :: 0 <= i < |edges| ==> r[i] == edges[i].child
  {
    if edges == [] then [] else Children(edges[..|edges| - 1]) + [edges[|edges| - 1].child]
  }

  /** `p` is what `random_series(series, moi)` can return: a series of that
      mode, and `None` only when there is none. */
  predicate SeriesFound(p: Option<Series>, series: seq<Series>, moi: string) {
    && (p.Some? ==> p.value in series && p.value.modeOfIssuance == moi)
    && (p.None? <==> forall s :: s in series ==> s.modeOfIssuance != moi)
  }

  /** The loop of `random_series`: the first series of mode `moi`. */
  function FirstOfMode(series: seq<Series>, moi: string): (r: Option<Series>)
    ensures SeriesFound(r, series, moi)
  {
    if series == [] then None
    else if series[0].modeOfIssuance == moi then Some(series[0])
    else
      var rest := FirstOfMode(series[1..], moi);
      assert forall s :: s in series ==> s == series[0] || s in series[1..];
      rest
  }

  /** `random_series(series, moi)`: the first series of mode `moi` in a
      shuffle of all the series, so one exists exactly when some series has
      that mode. */
  function RandomSeries(src: Source, c: Cursor, series: seq<Series>, moi: string): (r: Drawn<Option<Series>>)
    ensures SeriesFound(r.value, series, moi)
    ensures r.next == Skip(c, |series|)
  {
    var shuffled := Sample(src, c, series, |series|);
    ShuffleCoversAll(src, c, series);
    Drawn(FirstOfMode(shuffled.value, moi), shuffled.next)
  }

  /** The documents whose type is (`periodical`) or is not (`!periodical`)
      `PERIODICAL_ISSUE`, in their order. */
  function Filter(documents: seq<Document>, periodical: bool): (r: seq<Document>)
    ensures |r| <= |documents|
    ensures forall d :: d in r <==> d in documents && (d.documentType == DocumentGenerator.PERIODICAL_ISSUE) == periodical
  {
    if documents == [] then []
    else
      var last := documents[|documents| - 1];
      var prefix := documents[..|documents| - 1];
      assert forall d :: d in documents <==> d in prefix || d == last;
      Filter(prefix, periodical)
        + if (last.documentType == DocumentGenerator.PERIODICAL_ISSUE) == periodical then [last] else []
  }

  /** The two filters split the documents between them. */
  lemma {:induction false} FilterPartition(documents: seq<Document>)
    ensures |Filter(documents, true)| + |Filter(documents, false)| == |documents|
  {
    if documents != [] {
      FilterPartition(documents[..|documents| - 1]);
    }
  }

  /** Filtering keeps a duplicate-free list duplicate-free. */
  lemma {:induction false} FilterDistinct(documents: seq<Document>, periodical: bool)
    requires Distinct(documents)
    ensures Distinct(Filter(documents, periodical))
  {
    if documents != [] {
      var last := documents[|documents| - 1];
      var prefix := documents[..|documents| - 1];
      assert Distinct(prefix);
      FilterDistinct(prefix, periodical);
      if (last.documentType == DocumentGenerator.PERIODICAL_ISSUE) == periodical {
        assert last !in prefix;
        DistinctAppend(Filter(prefix, periodical), last);
      }
    }
  }

  /** The `serial_children` loop: the periodical issues, in order. */
  method SerialChildren(documents: seq<Document>) returns (children: seq<Document>)
    ensures children == Filter(documents, true)
  {
    children := [];
    var i := 0;
    while i < |documents|
      invariant 0 <= i <= |documents|
      invariant children == Filter(documents[..i], true)
    {
      assert documents[..i + 1][..i] == documents[..i];
      if documents[i].documentType == DocumentGenerator.PERIODICAL_ISSUE {
        children := children + [documents[i]];
      }
      i := i + 1;
    }
    assert documents[..i] == documents;
  }

  /** The `volume` of the serial child at position `index`: the digits of a
      leading `Volume N` in its title, else `str(index + 1)`. */
  function Volume(title: string, index: nat): (v: string)
    ensures |v| >= 1 && AllDigits(v)
    ensures MatchVolume(title).Some? ==> v == MatchVolume(title).value
    ensures MatchVolume(title).None? ==> v == NatToString(index + 1) && DigitsValue(v) == index + 1
  {
    match MatchVolume(title)
    case Some(n) => n
    case None => NatToStringRoundTrip(index + 1); NatToString(index + 1)
  }

  /** A title built by the periodical loop of the document generator gives
      back its volume number, whatever the position of the issue. */
  lemma IssueVolume(volume: nat, issue: nat, index: nat)
    ensures Volume(DocumentGenerator.PeriodicalTitle(volume, issue), index) == NatToString(volume)
  {
    var v := NatToString(volume);
    var rest := " Issue " + NatToString(issue);
    assert DocumentGenerator.PeriodicalTitle(volume, issue) == "Volume " + v + rest;
    MatchVolumeOf(v, rest);
  }

  /** The periodical issues the document generator builds (`IssueArgs`)
      take volumes 1, 1, 1, 2, 2, 2, … in the serial relation. */
  lemma IssueArgsVolume(startYear: nat, k: nat, index: nat)
    ensures Volume(DocumentGenerator.IssueArgs(startYear, k).title, index) == NatToString(k / 3 + 1)
  {
    IssueVolume(k / 3 + 1, k % 3 + 1, index);
  }

  /** The volume the relation `index` of a loop gets. */
  function LinkVolume(child: Document, index: nat, parseVolume: bool): string {
    if parseVolume then Volume(child.title, index) else NatToString(index + 1)
  }

  /** `documents` as entries of the related records. */
  function AsRelated(documents: seq<Document>): (r: seq<Related>)
    ensures |r| == |documents|
    ensures forall i :: 0 <= i < |documents| ==> r[i] == RelatedDocument(documents[i])
  {
    if documents == [] then [] else AsRelated(documents[..|documents| - 1]) + [RelatedDocument(documents[|documents| - 1])]
  }

  /** Every relation links `parent` to a document with the volume its
      position calls for. */
  ghost predicate LinkedRun(edges: seq<Edge>, parent: Related, relation: string, parseVolume: bool)
    decreases |edges|
  {
    if edges == [] then true
    else
      var k := |edges| - 1;
      && LinkedRun(edges[..k], parent, relation, parseVolume)
      && edges[k].child.RelatedDocument?
      && edges[k] == Edge(parent, edges[k].child, relation, Some(LinkVolume(edges[k].child.doc, k, parseVolume)))
  }

  /** What `LinkedRun` says of one position. */
  lemma {:induction false} LinkedRunAt(edges: seq<Edge>, parent: Related, relation: string, parseVolume: bool, k: nat)
    requires LinkedRun(edges, parent, relation, parseVolume) && k < |edges|
    ensures edges[k].child.RelatedDocument?
    ensures edges[k] == Edge(parent, edges[k].child, relation, Some(LinkVolume(edges[k].child.doc, k, parseVolume)))
    decreases |edges|
  {
    if k < |edges| - 1 {
      LinkedRunAt(edges[..|edges| - 1], parent, relation, parseVolume, k);
    }
  }

  /** One turn of a linking loop keeps the run and its children in step
      with the children handled so far. */
  lemma LinkStep(edges: seq<Edge>, parent: Related, relation: string, parseVolume: bool, children: seq<Document>, edge: Edge)
    requires |edges| < |children|
    requires LinkedRun(edges, parent, relation, parseVolume)
    requires Children(edges) == AsRelated(children[..|edges|])
    requires edge == Edge(parent, RelatedDocument(children[|edges|]), relation,
                          Some(LinkVolume(children[|edges|], |edges|, parseVolume)))
    ensures LinkedRun(edges + [edge], parent, relation, parseVolume)
    ensures AsRelated(children[..|edges| + 1]) == AsRelated(children[..|edges|]) + [RelatedDocument(children[|edges|])]
    ensures Children(edges + [edge]) == AsRelated(children[..|edges| + 1])
  {
    assert (edges + [edge])[..|edges|] == edges;
    assert children[..|edges| + 1][..|edges|] == children[..|edges|];
  }

  /** The two loops of `generate_parent_child_relations`: every child is
      related to `parent` with its volume (parsed from the title, or its
      position from 1) and appended to the related records. */
  method LinkChildren(holder: Holder, parent: Related, children: seq<Document>, relation: string, parseVolume: bool)
    returns (edges: seq<Edge>)
    modifies holder`relatedRecords
    ensures LinkedRun(edges, parent, relation, parseVolume)
    ensures Children(edges) == AsRelated(children)
    ensures holder.relatedRecords == old(holder.relatedRecords) + AsRelated(children)
  {
    edges := [];
    var index := 0;
    while index < |children|
      invariant 0 <= index <= |children| && |edges| == index
      invariant LinkedRun(edges, parent, relation, parseVolume)
      invariant Children(edges) == AsRelated(children[..index])
      invariant holder.relatedRecords == old(holder.relatedRecords) + AsRelated(children[..index])
    {
      var child := children[index];
      var edge := Edge(parent, RelatedDocument(child), relation, Some(LinkVolume(child, index, parseVolume)));
      LinkStep(edges, parent, relation, parseVolume, children, edge);
      holder.relatedRecords := holder.relatedRecords + [RelatedDocument(child)];
      edges := edges + [edge];
      index := index + 1;
    }
    assert children[..index] == children;
  }

  /** `random_docs()`: between 1 and `min(5, len(docs))` distinct positions
      of the documents that are not periodical issues; `randint(1, 0)`
      raises ValueError when there is none. */
  function RandomDocs(src: Source, c: Cursor, documents: seq<Document>): (r: Result<Drawn<seq<Document>>>)
    ensures r.Err? <==> Filter(documents, false) == []
    ensures r.Err? ==> r.error == ValueError
    ensures r.Ok? ==> 1 <= |r.value.value| <= 5 && |r.value.value| <= |Filter(documents, false)|
    ensures r.Ok? ==> forall d :: d in r.value.value ==> d in documents && d.documentType != DocumentGenerator.PERIODICAL_ISSUE
    ensures r.Ok? && Distinct(documents) ==> Distinct(r.value.value)
    ensures r.Ok? ==> r.value.next.minted == c.minted
  {
    var docs := Filter(documents, false);
    if |docs| == 0 then Err(ValueError)
    else
      var count := RandInt(src, c, 1, if |docs| < 5 then |docs| else 5);
      var sample := Sample(src, count.next, docs, count.value);
      SampleDistinct(src, count.next, docs, count.value);
      if Distinct(documents) then FilterDistinct(documents, false); Ok(sample)
      else Ok(sample)
  }

  /** `generate_parent_child_relations(documents, series)`. The serial
      parent is appended first, then every periodical issue with its parsed
      volume (`serialEdges`), then one to five other documents numbered 1,
      2, … under the multipart parent (`multipartEdges`). When no document
      is left for the multipart monograph the ValueError comes before
      anything is appended. */
  method GenerateParentChildRelations(holder: Holder, src: Source, c: Cursor, documents: seq<Document>, series: seq<Series>)
    returns (r: Result<Cursor>, serialParent: Option<Series>, multipartParent: Option<Series>,
             serialEdges: seq<Edge>, multipartEdges: seq<Edge>)
    modifies holder`relatedRecords
    ensures r.Err? <==> Filter(documents, false) == []
    ensures r.Err? ==> r.error == ValueError && holder.relatedRecords == old(holder.relatedRecords)
    ensures r.Ok? ==> SeriesFound(serialParent, series, SeriesGenerator.SERIAL)
    ensures r.Ok? ==> SeriesFound(multipartParent, series, SeriesGenerator.MULTIPART_MONOGRAPH)
    ensures r.Ok? ==> SerialEdges(serialEdges, serialParent, documents)
    ensures r.Ok? ==> MultipartEdges(multipartEdges, multipartParent, documents)
    ensures r.Ok? ==> (holder.relatedRecords ==
      old(holder.relatedRecords) + [RelatedSeries(serialParent)] + Children(serialEdges) + Children(multipartEdges))
  {
    var sp := RandomSeries(src, c, series, SeriesGenerator.SERIAL);
    var mp := RandomSeries(src, sp.next, series, SeriesGenerator.MULTIPART_MONOGRAPH);
    serialParent, multipartParent := sp.value, mp.value;
    var multipartChildren := RandomDocs(src, mp.next, documents);
    if multipartChildren.Err? {
      return Err(multipartChildren.error), serialParent, multipartParent, [], [];
    }
    var serialChildren := SerialChildren(documents);
    holder.relatedRecords := holder.relatedRecords + [RelatedSeries(serialParent)];
    serialEdges := LinkChildren(holder, RelatedSeries(serialParent), serialChildren, SERIAL_RELATION, true);
    var docs := multipartChildren.value.value;
    multipartEdges := LinkChildren(holder, RelatedSeries(multipartParent), docs, MULTIPART_RELATION, false);
    MultipartFits(multipartEdges, multipartParent, docs, documents);
    r := Ok(multipartChildren.value.next);
  }

  /** The relations `LinkChildren` builds for the documents `random_docs`
      returned are the multipart relations `MultipartEdges` describes. */
  lemma MultipartFits(edges: seq<Edge>, parent: Option<Series>, docs: seq<Document>, documents: seq<Document>)
    requires LinkedRun(edges, RelatedSeries(parent), MULTIPART_RELATION, false)
    requires Children(edges) == AsRelated(docs)
    requires 1 <= |docs| <= 5 && |docs| <= |Filter(documents, false)|
    requires forall d :: d in docs ==> d in documents && d.documentType != DocumentGenerator.PERIODICAL_ISSUE
    requires Distinct(documents) ==> Distinct(docs)
    ensures MultipartEdges(edges, parent, documents)
  {
    assert |edges| == |docs|;
    forall k | 0 <= k < |edges|
      ensures edges[k].parent == RelatedSeries(parent) && edges[k].relation == MULTIPART_RELATION
      ensures edges[k].volume == Some(NatToString(k + 1))
      ensures edges[k].child.RelatedDocument? && edges[k].child.doc in documents
      ensures edges[k].child.doc.documentType != DocumentGenerator.PERIODICAL_ISSUE
    {
      assert Children(edges)[k] == edges[k].child == RelatedDocument(docs[k]);
      assert docs[k] in docs;
      LinkedRunAt(edges, RelatedSeries(parent), MULTIPART_RELATION, false, k);
    }
    if Distinct(documents) {
      AsRelatedDistinct(docs);
    }
  }

  /** Distinct documents make distinct related-record entries. */
  lemma AsRelatedDistinct(documents: seq<Document>)
    requires Distinct(documents)
    ensures Distinct(AsRelated(documents))
  {
    var r := AsRelated(documents);
    forall i, j | 0 <= i < j < |r| ensures r[i] != r[j] {
      assert r[i] == RelatedDocument(documents[i]) && r[j] == RelatedDocument(documents[j]);
    }
  }

  /** The serial relations link the serial parent to every periodical
      issue, in order, each with the volume parsed from its title or else
      its position from 1. */
  ghost predicate SerialEdges(edges: seq<Edge>, parent: Option<Series>, documents: seq<Document>) {
    && LinkedRun(edges, RelatedSeries(parent), SERIAL_RELATION, true)
    && Children(edges) == AsRelated(Filter(documents, true))
  }

  /** One to five relations from the multipart parent to documents that are
      not periodical issues, numbered 1, 2, …, never the same document
      twice when the documents are distinct. */
  ghost predicate MultipartEdges(edges: seq<Edge>, parent: Option<Series>, documents: seq<Document>) {
    && 1 <= |edges| <= 5 && |edges| <= |Filter(documents, false)|
    && (forall k :: 0 <= k < |edges| ==>
         && edges[k].parent == RelatedSeries(parent)
         && edges[k].relation == MULTIPART_RELATION
         && edges[k].volume == Some(NatToString(k + 1))
         && edges[k].child.RelatedDocument?
         && edges[k].child.doc in documents
         && edges[k].child.doc.documentType != DocumentGenerator.PERIODICAL_ISSUE)
    && (Distinct(documents) ==> Distinct(Children(edges)))
  }

  /** The k-th serial relation links the k-th periodical issue with its
      parsed volume (or `str(k + 1)` when its title has none). */
  lemma SerialEdgeAt(edges: seq<Edge>, parent: Option<Series>, documents: seq<Document>, k: nat)
    requires SerialEdges(edges, parent, documents) && k < |Filter(documents, true)|
    ensures var d := Filter(documents, true)[k];
      edges[k] == Edge(RelatedSeries(parent), RelatedDocument(d), SERIAL_RELATION, Some(Volume(d.title, k)))
  {
    assert Children(edges)[k] == edges[k].child;
    LinkedRunAt(edges, RelatedSeries(parent), SERIAL_RELATION, true, k);
  }

  /** The loop of `add_random_relations`: every other sampled document
      becomes a sibling of the first one and is appended. */
  method LinkSiblings(holder: Holder, parent: Related, records: seq<Document>, relation: string)
    returns (edges: seq<Edge>)
    modifies holder`relatedRecords
    ensures |edges| == |records|
    ensures forall k :: 0 <= k < |records| ==> edges[k] == Edge(parent, RelatedDocument(records[k]), relation, None)
    ensures holder.relatedRecords == old(holder.relatedRecords) + Children(edges)
  {
    edges := [];
    var index := 0;
    while index < |records|
      invariant 0 <= index <= |records| && |edges| == index
      invariant forall k :: 0 <= k < index ==> edges[k] == Edge(parent, RelatedDocument(records[k]), relation, None)
      invariant holder.relatedRecords == old(holder.relatedRecords) + Children(edges)
    {
      var edge := Edge(parent, RelatedDocument(records[index]), relation, None);
      assert (edges + [edge])[..|edges|] == edges;
      holder.relatedRecords := holder.relatedRecords + [edge.child];
      edges := edges + [edge];
      index := index + 1;
    }
  }

  /** One to four relations from a first document to further documents,
      all of them among `documents` and, when the documents are distinct,
      none of them twice and none the first document itself. */
  ghost predicate SiblingRun(edges: seq<Edge>, documents: seq<Document>, relation: string) {
    && 1 <= |edges| <= 4 && |edges| < |documents|
    && edges[0].parent.RelatedDocument? && edges[0].parent.doc in documents
    && (forall k :: 0 <= k < |edges| ==>
         && edges[k].parent == edges[0].parent
         && edges[k].relation == relation && edges[k].volume.None?
         && edges[k].child.RelatedDocument? && edges[k].child.doc in documents)
    && (Distinct(documents) ==> Distinct([edges[0].parent] + Children(edges)))
  }

  /** What `add_random_relations(relation)` builds: a sibling run, and for
      `edition` one more relation from the same first document to the
      multipart monograph `random_series` finds. */
  ghost predicate SiblingEdges(edges: seq<Edge>, documents: seq<Document>, series: seq<Series>, relation: string) {
    if relation == EDITION_RELATION then
      && |edges| >= 2
      && var last := edges[|edges| - 1];
      && SiblingRun(edges[..|edges| - 1], documents, relation)
      && last.parent == edges[0].parent
      && last.relation == EDITION_RELATION && last.volume.None?
      && last.child.RelatedSeries?
      && SeriesFound(last.child.series, series, SeriesGenerator.MULTIPART_MONOGRAPH)
    else SiblingRun(edges, documents, relation)
  }

  /** The first document and the sibling relations to the rest of a sample
      make the entries of the sample. */
  lemma SiblingsCover(sample: seq<Document>, edges: seq<Edge>, relation: string)
    requires |sample| >= 1 && |edges| == |sample| - 1
    requires forall k :: 0 <= k < |edges| ==>
      edges[k] == Edge(RelatedDocument(sample[0]), RelatedDocument(sample[1..][k]), relation, None)
    ensures [RelatedDocument(sample[0])] + Children(edges) == AsRelated(sample)
  {
    var lhs := [RelatedDocument(sample[0])] + Children(edges);
    forall i | 0 <= i < |sample| ensures lhs[i] == AsRelated(sample)[i] {
      if i > 0 {
        assert lhs[i] == Children(edges)[i - 1] == edges[i - 1].child;
        assert sample[1..][i - 1] == sample[i];
      }
    }
  }

  /** The sample of `add_random_relations` and its loop: `randint(2,
      min(5, len(documents)))` raises ValueError before anything is
      appended when there are fewer than two documents; otherwise the first
      sampled document is appended, then each other one with its relation. */
  method SampleSiblings(holder: Holder, src: Source, c: Cursor, documents: seq<Document>, relation: string)
    returns (r: Result<Cursor>, edges: seq<Edge>)
    modifies holder`relatedRecords
    ensures r.Err? <==> |documents| < 2
    ensures r.Err? ==> r.error == ValueError && holder.relatedRecords == old(holder.relatedRecords)
    ensures r.Ok? ==> SiblingRun(edges, documents, relation)
    ensures r.Ok? ==> holder.relatedRecords == old(holder.relatedRecords) + [edges[0].parent] + Children(edges)
  {
    if |documents| < 2 {
      return Err(ValueError), [];
    }
    var count := RandInt(src, c, 2, if |documents| < 5 then |documents| else 5);
    var sample := Sample(src, count.next, documents, count.value);
    SampleDistinct(src, count.next, documents, count.value);
    var docs := sample.value;
    var head := RelatedDocument(docs[0]);
    assert docs[0] in docs;
    holder.relatedRecords := holder.relatedRecords + [head];
    edges := LinkSiblings(holder, head, docs[1..], relation);
    forall k | 0 <= k < |edges| ensures edges[k].child.doc in documents {
      assert docs[1..][k] in docs;
    }
    if Distinct(documents) {
      SiblingsCover(docs, edges, relation);
      AsRelatedDistinct(docs);
    }
    r := Ok(sample.next);
  }

  /** `add_random_relations(relation_type)`. */
  method AddRandomRelations(
    holder: Holder, src: Source, c: Cursor, documents: seq<Document>, series: seq<Series>, relation: string)
    returns (r: Result<Cursor>, edges: seq<Edge>)
    modifies holder`relatedRecords
    ensures r.Err? <==> |documents| < 2
    ensures r.Err? ==> r.error == ValueError && holder.relatedRecords == old(holder.relatedRecords)
    ensures r.Ok? ==> |edges| >= 1 && SiblingEdges(edges, documents, series, relation)
    ensures r.Ok? ==> holder.relatedRecords == old(holder.relatedRecords) + [edges[0].parent] + Children(edges)
  {
    var siblings;
    r, siblings := SampleSiblings(holder, src, c, documents, relation);
    edges := siblings;
    if r.Ok? && relation == EDITION_RELATION {
      var found := RandomSeries(src, r.value, series, SeriesGenerator.MULTIPART_MONOGRAPH);
      var edge := Edge(siblings[0].parent, RelatedSeries(found.value), EDITION_RELATION, None);
      assert (siblings + [edge])[..|siblings|] == siblings;
      holder.relatedRecords := holder.relatedRecords + [edge.child];
      edges := siblings + [edge];
      r := Ok(found.next);
    }
  }

  /** `generate_sibling_relations(documents, series)`: language siblings,
      then edition siblings with a multipart monograph. The two calls fail
      together, on the first one, so a failure appends nothing. */
  method GenerateSiblingRelations(holder: Holder, src: Source, c: Cursor, documents: seq<Document>, series: seq<Series>)
    returns (r: Result<Cursor>, languageEdges: seq<Edge>, editionEdges: seq<Edge>)
    modifies holder`relatedRecords
    ensures r.Err? <==> |documents| < 2
    ensures r.Err? ==> r.error == ValueError && holder.relatedRecords == old(holder.relatedRecords)
    ensures r.Ok? ==> |languageEdges| >= 1 && SiblingEdges(languageEdges, documents, series, LANGUAGE_RELATION)
    ensures r.Ok? ==> |editionEdges| >= 1 && SiblingEdges(editionEdges, documents, series, EDITION_RELATION)
    ensures r.Ok? ==> (holder.relatedRecords ==
      old(holder.relatedRecords) + [languageEdges[0].parent] + Children(languageEdges)
                                 + [editionEdges[0].parent] + Children(editionEdges))
  {
    editionEdges := [];
    r, languageEdges := AddRandomRelations(holder, src, c, documents, series, LANGUAGE_RELATION);
    if r.Err? {
      return;
    }
    r, editionEdges := AddRandomRelations(holder, src, r.value, documents, series, EDITION_RELATION);
  }

  /** The relations `generate` adds, in the order it adds them. */
  datatype Relations = Relations(
    serialParent: Option<Series>, multipartParent: Option<Series>,
    serial: seq<Edge>, multipart: seq<Edge>, language: seq<Edge>, edition: seq<Edge>)

  /** `RecordRelationsGenerator.generate(rec_docs, rec_series)`: parent-child
      relations, then sibling relations. It needs a document that is not a
      periodical issue and at least two documents; a single such document
      leaves the parent-child relations appended before the ValueError. */
  method Generate(holder: Holder, src: Source, c: Cursor, documents: seq<Document>, series: seq<Series>)
    returns (r: Result<Cursor>, rels: Relations)
    modifies holder`relatedRecords
    ensures r.Err? <==> Filter(documents, false) == [] || |documents| < 2
    ensures r.Err? ==> r.error == ValueError
    ensures Filter(documents, false) == [] ==> holder.relatedRecords == old(holder.relatedRecords)
    ensures (Filter(documents, false) != [] && |documents| < 2
             ==> SeriesFound(rels.serialParent, series, SeriesGenerator.SERIAL)
                 && SeriesFound(rels.multipartParent, series, SeriesGenerator.MULTIPART_MONOGRAPH)
                 && SerialEdges(rels.serial, rels.serialParent, documents)
                 && MultipartEdges(rels.multipart, rels.multipartParent, documents)
                 && holder.relatedRecords == old(holder.relatedRecords) + [RelatedSeries(rels.serialParent)]
                                             + Children(rels.serial) + Children(rels.multipart))
    ensures r.Ok? ==> SeriesFound(rels.serialParent, series, SeriesGenerator.SERIAL)
    ensures r.Ok? ==> SeriesFound(rels.multipartParent, series, SeriesGenerator.MULTIPART_MONOGRAPH)
    ensures r.Ok? ==> SerialEdges(rels.serial, rels.serialParent, documents)
    ensures r.Ok? ==> MultipartEdges(rels.multipart, rels.multipartParent, documents)
    ensures r.Ok? ==> |rels.language| >= 1 && SiblingEdges(rels.language, documents, series, LANGUAGE_RELATION)
    ensures r.Ok? ==> |rels.edition| >= 1 && SiblingEdges(rels.edition, documents, series, EDITION_RELATION)
    ensures r.Ok? ==> (holder.relatedRecords ==
      old(holder.relatedRecords) + [RelatedSeries(rels.serialParent)] + Children(rels.serial) + Children(rels.multipart)
                                 + [rels.language[0].parent] + Children(rels.language)
                                 + [rels.edition[0].parent] + Children(rels.edition))
  {
    var serialParent, multipartParent, serial, multipart;
    r, serialParent, multipartParent, serial, multipart := GenerateParentChildRelations(holder, src, c, documents, series);
    rels := Relations(serialParent, multipartParent, serial, multipart, [], []);
    if r.Err? {
      return;
    }
    var language, edition;
    r, language, edition := GenerateSiblingRelations(holder, src, r.value, documents, series);
    rels := rels.(language := language, edition := edition);
  }
}
