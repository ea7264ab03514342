/**
  The ingestion pipeline of backend/core/pipeline.py: as the knowledge-base
  service, but a page also carries the text of its PDF, Word and HTML
  attachments, and a document without chunks is skipped while records are
  built.

  The network is a parameter: `respond(id)` answers the page request and
  `attachmentsOf(id)` the attachment listing of page `id`. Each attachment
  carries the outcome of its own download; the text the matching extractor
  returns for it (PDF, DOCX or HTML extraction is library code) is part of
  that outcome.
 */
module Pipeline {
  import opened Wrappers
  import opened Chunking
  import Config
  import KnowledgeBaseService

  /** The outcome of downloading one attachment: a response, or an exception raised by the request. */
  datatype Download = Response(status: int, extracted: string) | Raised

  datatype Attachment = Attachment(mediaType: string, filename: string, download: Download)

  /** The answer to `GET .../child/attachment`: its status and its `results` list (`[]` when the key is missing). */
  datatype AttachmentListing = AttachmentListing(status: int, results: seq<Attachment>)

  /** The extractors the pipeline knows. */
  datatype Extractor = Pdf | Docx | Html

  /** The media types each extractor handles, in the order `fetch_confluence_page` tries them. */
  const ExtractorTable: seq<(Extractor, seq<string>)> := [
    (Pdf, ["application/pdf"]),
    (Docx, ["application/vnd.openxmlformats-officedocument.wordprocessingml.document", "application/msword"]),
    (Html, ["text/html", "application/xhtml+xml"])
  ]

  /** The first extractor of `table` whose media types include `mediaType`. */
  function Lookup(table: seq<(Extractor, seq<string>)>, mediaType: string): Option<Extractor> {
    if table == [] then None
    else if mediaType in table[0].1 then Some(table[0].0)
    else Lookup(table[1..], mediaType)
  }

  /** The extractor chosen for a media type; every other type is skipped as unsupported. */
  function ExtractorFor(mediaType: string): Option<Extractor> {
    Lookup(ExtractorTable, mediaType)
  }

  /** PDF, Word and HTML media types, and nothing else, have an extractor. */
  lemma ExtractorForMediaTypes(mediaType: string)
    ensures ExtractorFor(mediaType) == Some(Pdf) <==> mediaType == "application/pdf"
    ensures ExtractorFor(mediaType) == Some(Docx) <==>
      mediaType == "application/vnd.openxmlformats-officedocument.wordprocessingml.document" || mediaType == "application/msword"
    ensures ExtractorFor(mediaType) == Some(Html) <==> mediaType == "text/html" || mediaType == "application/xhtml+xml"
  {
    var t := ExtractorTable;
    var t1 := t[1..];
    var t2 := t1[1..];
    assert t[0] == (Pdf, ["application/pdf"]);
    assert t1[0] == (Docx, ["application/vnd.openxmlformats-officedocument.wordprocessingml.document", "application/msword"]);
    assert t2[0] == (Html, ["text/html", "application/xhtml+xml"]) && t2[1..] == [];
    assert Lookup(t2[1..], mediaType) == None;
    assert Lookup(t2, mediaType) == if mediaType in t2[0].1 then Some(Html) else None;
    assert Lookup(t1, mediaType) == if mediaType in t1[0].1 then Some(Docx) else Lookup(t2, mediaType);
    assert Lookup(t, mediaType) == if mediaType in t[0].1 then Some(Pdf) else Lookup(t1, mediaType);
  }

  /** `get_attachments`: the listed attachments on status 200, none otherwise. */
  function Listed(listing: AttachmentListing): seq<Attachment> {
    if listing.status == 200 then listing.results else []
  }

  /** An attachment adds text: it downloaded with 200, its type is supported, and its extracted text is nonempty. */
  predicate Contributes(att: Attachment) {
    att.download.Response? && att.download.status == 200
    && ExtractorFor(att.mediaType).Some? && att.download.extracted != ""
  }

  function Header(filename: string): string {
    "\n\n--- Attachment: " + filename + " ---\n"
  }

  /** What one attachment adds to `attachment_text`. */
  function Section(att: Attachment): (section: string)
    ensures section != "" <==> Contributes(att)
    ensures Contributes(att) ==> section == Header(att.filename) + att.download.extracted
  {
    if Contributes(att) then Header(att.filename) + att.download.extracted else ""
  }

  /** The attachment text of a list of attachments, section after section. */
  function AttachmentText(atts: seq<Attachment>): string {
    if atts == [] then "" else AttachmentText(atts[..|atts| - 1]) + Section(atts[|atts| - 1])
  }

  /** The attachment loop of `fetch_confluence_page`, with its `continue`s and its `except`. */
  method CollectAttachmentText(atts: seq<Attachment>) returns (attachmentText: string)
    ensures attachmentText == AttachmentText(atts)
  {
    attachmentText := "";
    for k := 0 to |atts|
      invariant attachmentText == AttachmentText(atts[..k])
    {
      var att := atts[k];
      AttachmentTextStep(atts, k);
      if att.download.Raised? {
        assert !Contributes(att);
        continue;
      }
      if att.download.status != 200 {
        assert !Contributes(att);
        continue;
      }
      var content := "";
      var extractor := ExtractorFor(att.mediaType);
      if extractor.None? {
        assert !Contributes(att);
        continue;
      }
      content := att.download.extracted;
      if content != "" {
        attachmentText := attachmentText + Header(att.filename) + content;
      }
    }
    assert atts[..|atts|] == atts;
  }

  /** One more attachment appends its section. */
  lemma AttachmentTextStep(atts: seq<Attachment>, k: nat)
    requires k < |atts|
    ensures AttachmentText(atts[..k + 1]) == AttachmentText(atts[..k]) + Section(atts[k])
  {
    var prefix := atts[..k + 1];
    assert prefix[..|prefix| - 1] == atts[..k] && prefix[|prefix| - 1] == atts[k];
  }

  /** No attachment text at all exactly when no attachment contributes. */
  lemma {:induction false} AttachmentTextEmptyIff(atts: seq<Attachment>)
    ensures AttachmentText(atts) == "" <==> forall k :: 0 <= k < |atts| ==> !Contributes(atts[k])
  {
    if atts != [] {
      var init, last := atts[..|atts| - 1], atts[|atts| - 1];
      AttachmentTextEmptyIff(init);
      assert |AttachmentText(atts)| == |AttachmentText(init)| + |Section(last)|;
      assert forall k :: 0 <= k < |init| ==> init[k] == atts[k];
    }
  }

  /** The document of a page: the page text followed by the text of its attachments. */
  function PageDocument(page: PageResponse, listing: AttachmentListing): (doc: Option<Document>)
    ensures doc.Some? <==> page.status == 200
  {
    if page.status != 200 then None
    else Some(Document(PageSource(page.title), page.pageText + AttachmentText(Listed(listing))))
  }

  /**
    The full content of a fetched page starts with the page text, and is the
    page text alone when no listed attachment contributes.
   */
  lemma PageContent(page: PageResponse, listing: AttachmentListing)
    requires page.status == 200
    ensures var content := PageDocument(page, listing).value.content;
      && content[..|page.pageText|] == page.pageText
      && (content == page.pageText <==> forall k :: 0 <= k < |Listed(listing)| ==> !Contributes(Listed(listing)[k]))
  {
    AttachmentTextEmptyIff(Listed(listing));
    var content := PageDocument(page, listing).value.content;
    assert content == page.pageText + AttachmentText(Listed(listing));
    if content == page.pageText {
      assert |AttachmentText(Listed(listing))| == 0;
    }
  }

  /** The documents the fetch loop keeps, in the order of `ids`. */
  function Fetched(ids: seq<string>, respond: string -> PageResponse, attachmentsOf: string -> AttachmentListing): seq<Document> {
    if ids == [] then []
    else
      var id := ids[|ids| - 1];
      var doc := PageDocument(respond(id), attachmentsOf(id));
      Fetched(ids[..|ids| - 1], respond, attachmentsOf) + (if doc.Some? then [doc.value] else [])
  }

  /** The fetch loop keeps one document per page that answered with 200, and no other. */
  lemma {:induction false} FetchedLength(ids: seq<string>, respond: string -> PageResponse, attachmentsOf: string -> AttachmentListing)
    ensures |Fetched(ids, respond, attachmentsOf)| == KnowledgeBaseService.CountOk(ids, respond) <= |ids|
  {
    if ids != [] {
      FetchedLength(ids[..|ids| - 1], respond, attachmentsOf);
    }
  }

  /** When every page answers, the k-th document is the k-th page's. */
  lemma {:induction false} FetchedAllAnswered(ids: seq<string>, respond: string -> PageResponse, attachmentsOf: string -> AttachmentListing)
    requires forall k :: 0 <= k < |ids| ==> respond(ids[k]).status == 200
    ensures |Fetched(ids, respond, attachmentsOf)| == |ids|
    ensures forall k :: 0 <= k < |ids| ==> Fetched(ids, respond, attachmentsOf)[k] == PageDocument(respond(ids[k]), attachmentsOf(ids[k])).value
  {
    if ids != [] {
      var init, id := ids[..|ids| - 1], ids[|ids| - 1];
      assert forall k :: 0 <= k < |init| ==> init[k] == ids[k];
      FetchedAllAnswered(init, respond, attachmentsOf);
      var doc := PageDocument(respond(id), attachmentsOf(id));
      assert Fetched(ids, respond, attachmentsOf) == Fetched(init, respond, attachmentsOf) + [doc.value];
    }
  }

  /** When no page answers, nothing is kept. */
  lemma {:induction false} FetchedNoneAnswered(ids: seq<string>, respond: string -> PageResponse, attachmentsOf: string -> AttachmentListing)
    requires forall k :: 0 <= k < |ids| ==> respond(ids[k]).status != 200
    ensures Fetched(ids, respond, attachmentsOf) == []
  {
    if ids != [] {
      var init := ids[..|ids| - 1];
      assert forall k :: 0 <= k < |init| ==> init[k] == ids[k];
      FetchedNoneAnswered(init, respond, attachmentsOf);
    }
  }

  /** Exactly one document per page that answered with 200, each with its page's source, in page-id order. */
  lemma FetchedDocuments(ids: seq<string>, respond: string -> PageResponse, attachmentsOf: string -> AttachmentListing)
    ensures |Fetched(ids, respond, attachmentsOf)| == KnowledgeBaseService.CountOk(ids, respond) <= |ids|
    ensures (forall k :: 0 <= k < |ids| ==> respond(ids[k]).status == 200) ==>
      |Fetched(ids, respond, attachmentsOf)| == |ids| &&
      forall k :: 0 <= k < |ids| ==> Fetched(ids, respond, attachmentsOf)[k] == PageDocument(respond(ids[k]), attachmentsOf(ids[k])).value
    ensures (forall k :: 0 <= k < |ids| ==> respond(ids[k]).status != 200) ==> Fetched(ids, respond, attachmentsOf) == []
  {
    FetchedLength(ids, respond, attachmentsOf);
    if forall k :: 0 <= k < |ids| ==> respond(ids[k]).status == 200 {
      FetchedAllAnswered(ids, respond, attachmentsOf);
    }
    if forall k :: 0 <= k < |ids| ==> respond(ids[k]).status != 200 {
      FetchedNoneAnswered(ids, respond, attachmentsOf);
    }
  }

  /** One more page id adds that page's document, if it has one, at the end. */
  lemma FetchedStep(ids: seq<string>, k: nat, respond: string -> PageResponse, attachmentsOf: string -> AttachmentListing)
    requires k < |ids|
    ensures Fetched(ids[..k + 1], respond, attachmentsOf)
              == Fetched(ids[..k], respond, attachmentsOf)
                 + (var doc := PageDocument(respond(ids[k]), attachmentsOf(ids[k])); if doc.Some? then [doc.value] else [])
  {
    var prefix := ids[..k + 1];
    assert prefix[..|prefix| - 1] == ids[..k] && prefix[|prefix| - 1] == ids[k];
  }

  class KnowledgeBase {
    /** `self.documents`. */
    var documents: seq<Document>
    /** Every batch handed to `index.upsert`, in call order. */
    var upserted: seq<seq<Record>>

    constructor ()
      ensures documents == [] && upserted == []
    {
      documents := [];
      upserted := [];
    }

    /** `fetch_confluence_page`: `None` on a status other than 200; otherwise the page and its attachment text. */
    method FetchConfluencePage(page: PageResponse, listing: AttachmentListing) returns (doc: Option<Document>)
      ensures doc == PageDocument(page, listing)
      ensures doc.Some? ==> doc.value.source == PageSource(page.title)
    {
      if page.status != 200 {
        return None;
      }
      var attachmentText := CollectAttachmentText(Listed(listing));
      var fullContent := page.pageText + attachmentText;
      doc := Some(Document(PageSource(page.title), fullContent));
    }

    /**
      The record loop of this pipeline's `upload_to_pinecone`: a document
      without chunks is skipped, which leaves the records as they would be
      without the skip.
     */
    method BuildRecordsSkippingEmpty(docs: seq<Document>) returns (records: seq<Record>)
      ensures records == RecordsOf(docs)
    {
      records := [];
      for d := 0 to |docs|
        invariant records == RecordsOf(docs[..d])
      {
        assert docs[..d + 1][..d] == docs[..d];
        var doc := docs[d];
        var chunks := ChunkText(doc.content, DefaultChunkSize, DefaultOverlap);
        if |chunks| == 0 {
          assert DocRecords(doc) == [];
          continue;
        }
        ghost var before := records;
        for i := 0 to |chunks|
          invariant records == before + DocRecords(doc)[..i]
        {
          records := records + [Record(chunks[i], doc.source, i)];
          assert DocRecords(doc)[..i + 1] == DocRecords(doc)[..i] + [Record(chunks[i], doc.source, i)];
        }
        assert DocRecords(doc)[..|chunks|] == DocRecords(doc);
      }
      assert docs[..|docs|] == docs;
    }

    /** `upload_to_pinecone`: the records of every stored document, sent in consecutive batches of 50. */
    method UploadToPinecone()
      modifies this`upserted
      ensures upserted == old(upserted) + BatchesFrom(RecordsOf(documents), 0, BatchSize)
    {
      var records := BuildRecordsSkippingEmpty(documents);
      var batches := Batch(records, BatchSize);
      var b := 0;
      while b < |batches|
        invariant 0 <= b <= |batches|
        invariant upserted == old(upserted) + batches[..b]
      {
        upserted := upserted + [batches[b]];
        assert batches[..b + 1] == batches[..b] + [batches[b]];
        b := b + 1;
      }
      assert batches[..b] == batches;
    }

    /** The fetch loop of `run_pipeline`: every page in order, appending the ones that answered. */
    method FetchPages(ids: seq<string>, respond: string -> PageResponse, attachmentsOf: string -> AttachmentListing)
      modifies this`documents
      ensures documents == old(documents) + Fetched(ids, respond, attachmentsOf)
    {
      for k := 0 to |ids|
        invariant documents == old(documents) + Fetched(ids[..k], respond, attachmentsOf)
      {
        FetchedStep(ids, k, respond, attachmentsOf);
        var doc := FetchConfluencePage(respond(ids[k]), attachmentsOf(ids[k]));
        if doc.Some? {
          documents := documents + [doc.value];
        }
      }
      assert ids[..|ids|] == ids;
    }

    /** `run_pipeline`: fetch every configured page, then upload everything stored. */
    method RunPipeline(pageIdsEnv: string, respond: string -> PageResponse, attachmentsOf: string -> AttachmentListing)
      modifies this
      ensures documents == old(documents) + Fetched(Config.PageIds(pageIdsEnv), respond, attachmentsOf)
      ensures upserted == old(upserted) + BatchesFrom(RecordsOf(documents), 0, BatchSize)
    {
      FetchPages(Config.PageIds(pageIdsEnv), respond, attachmentsOf);
      UploadToPinecone();
    }
  }
}
