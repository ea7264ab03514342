/**
  The ingestion service of backend/services/knowledge_base.py: fetch the
  configured Confluence pages, keep the ones that answered, and upload the
  records of their chunks in batches.

  The network is a parameter: `respond(id)` is the answer to the page
  request for `id`. The vector index is represented by the batches handed to
  its `upsert`; embeddings and record ids are not modelled.
 */
module KnowledgeBaseService {
  import opened Wrappers
  import opened Chunking
  import Config

  /** `fetch_confluence_page`: the page as a document on status 200, and `None` on any other status. */
  function PageDocument(page: PageResponse): (doc: Option<Document>)
    ensures doc.Some? <==> page.status == 200
    ensures doc.Some? ==> doc.value.source == PageSource(page.title) && doc.value.content == page.pageText
  {
    if page.status == 200 then Some(Document(PageSource(page.title), page.pageText)) else None
  }

  /** The documents the fetch loop keeps, in the order of `ids`. */
  function Fetched(ids: seq<string>, respond: string -> PageResponse): seq<Document> {
    if ids == [] then []
    else
      var doc := PageDocument(respond(ids[|ids| - 1]));
      Fetched(ids[..|ids| - 1], respond) + (if doc.Some? then [doc.value] else [])
  }

  /** How many of `ids` answered with status 200. */
  function CountOk(ids: seq<string>, respond: string -> PageResponse): nat {
    if ids == [] then 0
    else CountOk(ids[..|ids| - 1], respond) + (if respond(ids[|ids| - 1]).status == 200 then 1 else 0)
  }

  /**
    One document per page that answered with 200, none for the others; when
    every page answers, document `k` is page `k`'s, in page-id order.
   */
  lemma {:induction false} FetchedDocuments(ids: seq<string>, respond: string -> PageResponse)
    ensures |Fetched(ids, respond)| == CountOk(ids, respond) <= |ids|
    ensures (forall k :: 0 <= k < |ids| ==> respond(ids[k]).status == 200) ==>
      |Fetched(ids, respond)| == |ids| &&
      forall k :: 0 <= k < |ids| ==> Fetched(ids, respond)[k] == Document(PageSource(respond(ids[k]).title), respond(ids[k]).pageText)
  {
    if ids != [] {
      var init := ids[..|ids| - 1];
      FetchedDocuments(init, respond);
      if forall k :: 0 <= k < |ids| ==> respond(ids[k]).status == 200 {
        assert forall k :: 0 <= k < |init| ==> init[k] == ids[k];
      }
    }
  }

  /** One more page id adds that page's document, if it has one, at the end. */
  lemma FetchedStep(ids: seq<string>, k: nat, respond: string -> PageResponse)
    requires k < |ids|
    ensures Fetched(ids[..k + 1], respond)
              == Fetched(ids[..k], respond) + (var doc := PageDocument(respond(ids[k])); if doc.Some? then [doc.value] else [])
  {
    var prefix := ids[..k + 1];
    assert prefix[..|prefix| - 1] == ids[..k] && prefix[|prefix| - 1] == ids[k];
  }

  class KnowledgeBase {
    /** `self.documents`. */
    var documents: seq<Document>
    /** Every batch handed to `index.upsert`, in call order. */
    var upserted: seq<seq<Record>>

    constructor ()
      ensures documents == [] && upserted == []
    {
      documents := [];
      upserted := [];
    }

    /**
      `upload_to_pinecone`: the records of every stored document, sent in
      consecutive batches of 50. A batch whose upsert fails is reported and
      skipped; the model records every batch that is sent.
     */
    method UploadToPinecone()
      modifies this`upserted
      ensures upserted == old(upserted) + BatchesFrom(RecordsOf(documents), 0, BatchSize)
    {
      var records := BuildRecords(documents);
      var batches := Batch(records, BatchSize);
      var b := 0;
      while b < |batches|
        invariant 0 <= b <= |batches|
        invariant upserted == old(upserted) + batches[..b]
      {
        upserted := upserted + [batches[b]];
        assert batches[..b + 1] == batches[..b] + [batches[b]];
        b := b + 1;
      }
      assert batches[..b] == batches;
    }

    /** The fetch loop of `run_pipeline`: every page in order, appending the ones that answered. */
    method FetchPages(ids: seq<string>, respond: string -> PageResponse)
      modifies this`documents
      ensures documents == old(documents) + Fetched(ids, respond)
    {
      for k := 0 to |ids|
        invariant documents == old(documents) + Fetched(ids[..k], respond)
      {
        FetchedStep(ids, k, respond);
        var doc := PageDocument(respond(ids[k]));
        if doc.Some? {
          documents := documents + [doc.value];
        }
      }
      assert ids[..|ids|] == ids;
    }

    /** `run_pipeline`: fetch every configured page, then upload everything stored. */
    method RunPipeline(pageIdsEnv: string, respond: string -> PageResponse)
      modifies this
      ensures documents == old(documents) + Fetched(Config.PageIds(pageIdsEnv), respond)
      ensures upserted == old(upserted) + BatchesFrom(RecordsOf(documents), 0, BatchSize)
    {
      FetchPages(Config.PageIds(pageIdsEnv), respond);
      UploadToPinecone();
    }
  }
}
