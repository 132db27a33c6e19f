/** The documents page of a knowledge base: its filter, paging and dialog
    state, the document-list request it derives from that state, when the
    pager is shown, and the create/update/delete handlers with their toasts. */
module DocumentsPage {
  import opened Types
  import opened Text
  import AdminService
  import opened Arith

  /** A value of the document-type select: the "all" item (whose value is
      the empty string) or one of the three document types. */
  datatype DocTypeValue = AllTypes | PlainText | Webpage | Pdf

  /** The `searchParams` state. */
  datatype SearchParams = SearchParams(title: string, docType: Option<DocTypeValue>)

  function InitialSearch(): (p: SearchParams)
    ensures p.title == "" && p.docType == None
  {
    SearchParams("", None)
  }

  const InitialPage: int := 1
  const InitialPageSize: int := 10

  /** The argument the list query hands to `getDocuments`. */
  datatype DocumentsRequest = DocumentsRequest(
    knowledgeBaseId: int,
    skip: int,
    limit: int,
    title: Option<string>,
    docType: Option<DocTypeValue>)

  /** The list query for the current state: a window of `pageSize`
      documents starting after `page - 1` full pages; an empty title is not
      sent. */
  function RequestFor(knowledgeBaseId: int, page: int, pageSize: int, p: SearchParams): (r: DocumentsRequest)
    ensures r.knowledgeBaseId == knowledgeBaseId && r.limit == pageSize && r.docType == p.docType
    ensures r.title.None? <==> p.title == ""
    ensures r.title.Some? ==> r.title.value == p.title
  {
    DocumentsRequest(knowledgeBaseId, (page - 1) * pageSize, pageSize,
      if p.title == "" then None else Some(p.title), p.docType)
  }

  /** The windows of consecutive pages tile the list: page 1 starts at 0,
      each page starts where the previous one ends, and the page can be read
      back from the window. */
  lemma PagesTile(knowledgeBaseId: int, page: int, pageSize: int, p: SearchParams)
    requires page >= 1 && pageSize >= 1
    ensures RequestFor(knowledgeBaseId, 1, pageSize, p).skip == 0
    ensures var r := RequestFor(knowledgeBaseId, page, pageSize, p);
      && r.skip >= 0
      && RequestFor(knowledgeBaseId, page + 1, pageSize, p).skip == r.skip + r.limit
      && r.skip % pageSize == 0
      && r.skip / pageSize + 1 == page
  {
    var r := RequestFor(knowledgeBaseId, page, pageSize, p);
    assert page * pageSize == (page - 1) * pageSize + pageSize;
    assert r.skip >= 0 by {
      MulMonotone(pageSize, 0, page - 1);
    }
    MulDiv(page - 1, pageSize);
  }

  /** What `getDocuments` makes of the request: it reads only the knowledge
      base id, `skip` and `limit`. */
  function ForwardedQuery(r: DocumentsRequest): (q: AdminService.DocumentsQuery)
    ensures q.knowledgeBaseId == r.knowledgeBaseId && q.skip == Some(r.skip) && q.limit == Some(r.limit)
  {
    AdminService.DocumentsQuery(r.knowledgeBaseId, Some(r.skip), Some(r.limit))
  }

  /** The title and type filters never reach the server: two states that
      differ only in their filters request the same URL, and that URL carries
      the page's window. */
  lemma FiltersNotForwarded(baseUrl: string, knowledgeBaseId: int, page: int, pageSize: int, p1: SearchParams, p2: SearchParams)
    requires '?' !in baseUrl
    ensures AdminService.DocumentsUrl(baseUrl, ForwardedQuery(RequestFor(knowledgeBaseId, page, pageSize, p1)))
         == AdminService.DocumentsUrl(baseUrl, ForwardedQuery(RequestFor(knowledgeBaseId, page, pageSize, p2)))
    ensures var ps := ParseQuery(QueryOf(AdminService.DocumentsUrl(baseUrl, ForwardedQuery(RequestFor(knowledgeBaseId, page, pageSize, p1)))));
      && |ps| == 3
      && ParseInt(ps[0].1) == Some(knowledgeBaseId)
      && ParseInt(ps[1].1) == Some((page - 1) * pageSize)
      && ParseInt(ps[2].1) == Some(pageSize)
  {
    AdminService.DocumentsUrlCarries(baseUrl, ForwardedQuery(RequestFor(knowledgeBaseId, page, pageSize, p1)));
  }

  /** The pager is rendered. */
  predicate ShowPager(pagination: Option<PaginationInfo>, pageSize: int) {
    pagination.Some? && pagination.value.total > pageSize
  }

  /** When the list has paging data and the pager is hidden, the first
      page's window already covers every document; when it is shown, at
      least one document lies beyond the first page. */
  lemma PagerMeansMoreThanOnePage(info: PaginationInfo, knowledgeBaseId: int, pageSize: int, p: SearchParams)
    requires pageSize >= 1
    ensures var first := RequestFor(knowledgeBaseId, 1, pageSize, p);
      && first.skip == 0
      && (!ShowPager(Some(info), pageSize) ==> info.total <= first.skip + first.limit)
      && (ShowPager(Some(info), pageSize) ==> info.total > first.skip + first.limit)
    ensures !ShowPager(None, pageSize)
  {
  }

  // ----- saving and deleting -------------------------------------------------

  /** The title and content the document dialog submits. */
  datatype DocumentValues = DocumentValues(title: string, content: string)

  /** A call made on the service. */
  datatype DocumentCall =
    | UpdateDocument(documentId: int, values: DocumentValues)
    | CreateDocument(values: DocumentValues, knowledgeBaseId: int)
    | DeleteDocument(documentId: int)

  /** Which call a submission of the document dialog makes: an update of the
      selected document, else a creation in this knowledge base. */
  function SaveCall(selected: Option<Document>, knowledgeBaseId: int, v: DocumentValues): (c: DocumentCall)
    ensures c.UpdateDocument? <==> selected.Some?
    ensures c.UpdateDocument? ==> c.documentId == selected.value.id && c.values == v
    ensures c.CreateDocument? ==> c.knowledgeBaseId == knowledgeBaseId && c.values == v
  {
    match selected
    case Some(d) => UpdateDocument(d.id, v)
    case None => CreateDocument(v, knowledgeBaseId)
  }

  const RetryLater: string := "请稍后重试"

  /** The toast after a submission: success or failure, of an update when a
      document is selected and of a creation otherwise. */
  function SaveToast(selected: Option<Document>, succeeded: bool): Toast {
    if succeeded then Toast(if selected.Some? then "更新文档成功" else "创建文档成功", None, false)
    else Toast(if selected.Some? then "更新文档失败" else "创建文档失败", Some(RetryLater), true)
  }

  /** The toast after a deletion. */
  function DeleteToast(succeeded: bool): Toast {
    if succeeded then Toast("删除文档成功", None, false)
    else Toast("删除文档失败", Some(RetryLater), true)
  }

  /** The four submission toasts are pairwise different, only failures are
      destructive, and only failures carry a description. */
  lemma SaveToastsTellApart(s1: Option<Document>, ok1: bool, s2: Option<Document>, ok2: bool)
    ensures SaveToast(s1, ok1).destructive <==> !ok1
    ensures SaveToast(s1, ok1).description.Some? <==> !ok1
    ensures SaveToast(s1, ok1) == SaveToast(s2, ok2) <==> ok1 == ok2 && s1.Some? == s2.Some?
  {
    var t1, t2 := SaveToast(s1, ok1), SaveToast(s2, ok2);
    if ok1 != ok2 || s1.Some? != s2.Some? {
      assert t1.title[4] != t2.title[4] || t1.title[0] != t2.title[0];
    }
  }

  /** The destructive variant marks exactly the failed deletions. */
  lemma DeleteToastMarksFailure(ok: bool)
    ensures DeleteToast(ok).destructive <==> !ok
    ensures DeleteToast(ok).description.Some? <==> !ok
  {
  }

  // ----- the page ------------------------------------------------------------

  /** The page component's state, the service calls its handlers made, the
      toasts it showed and how often it asked the list query to refetch. */
  class Page {
    const knowledgeBaseId: int
    var searchParams: SearchParams
    var page: int
    var pageSize: int
    var editDialogOpen: bool
    var deleteDialogOpen: bool
    var selectedDocument: Option<Document>
    var calls: seq<DocumentCall>
    var toasts: seq<Toast>
    var refetches: nat

    /** The list query the current state asks for. */
    function Request(): DocumentsRequest
      reads this
    {
      RequestFor(knowledgeBaseId, page, pageSize, searchParams)
    }

    constructor (knowledgeBaseId: int)
      ensures this.knowledgeBaseId == knowledgeBaseId
      ensures searchParams == InitialSearch() && page == InitialPage && pageSize == InitialPageSize
      ensures !editDialogOpen && !deleteDialogOpen && selectedDocument == None
      ensures calls == [] && toasts == [] && refetches == 0
      ensures Request().skip == 0 && Request().limit == 10 && Request().title == None && Request().docType == None
    {
      this.knowledgeBaseId := knowledgeBaseId;
      searchParams := SearchParams("", None);
      page := 1;
      pageSize := 10;
      editDialogOpen := false;
      deleteDialogOpen := false;
      selectedDocument := None;
      calls := [];
      toasts := [];
      refetches := 0;
    }

    /** Typing in the title filter. */
    method SetTitle(title: string)
      modifies this
      ensures searchParams == old(searchParams).(title := title)
      ensures page == old(page) && pageSize == old(pageSize) && selectedDocument == old(selectedDocument)
      ensures editDialogOpen == old(editDialogOpen) && deleteDialogOpen == old(deleteDialogOpen)
      ensures calls == old(calls) && toasts == old(toasts) && refetches == old(refetches)
    {
      searchParams := searchParams.(title := title);
    }

    /** Choosing in the type filter. */
    method SetDocType(t: DocTypeValue)
      modifies this
      ensures searchParams == old(searchParams).(docType := Some(t))
      ensures page == old(page) && pageSize == old(pageSize) && selectedDocument == old(selectedDocument)
      ensures editDialogOpen == old(editDialogOpen) && deleteDialogOpen == old(deleteDialogOpen)
      ensures calls == old(calls) && toasts == old(toasts) && refetches == old(refetches)
    {
      searchParams := searchParams.(docType := Some(t));
    }

    /** `handleSearch`: back to page 1 with the filters as they are. */
    method HandleSearch()
      modifies this
      ensures page == 1 && searchParams == old(searchParams) && pageSize == old(pageSize)
      ensures Request().skip == 0 && Request().limit == old(Request()).limit && Request().title == old(Request()).title
      ensures selectedDocument == old(selectedDocument)
      ensures editDialogOpen == old(editDialogOpen) && deleteDialogOpen == old(deleteDialogOpen)
      ensures calls == old(calls) && toasts == old(toasts) && refetches == old(refetches) + 1
    {
      page := 1;
      refetches := refetches + 1;
    }

    /** `handleReset`: clear both filters and go back to page 1. */
    method HandleReset()
      modifies this
      ensures page == 1 && searchParams == InitialSearch() && pageSize == old(pageSize)
      ensures Request() == RequestFor(knowledgeBaseId, 1, old(pageSize), InitialSearch())
      ensures selectedDocument == old(selectedDocument)
      ensures editDialogOpen == old(editDialogOpen) && deleteDialogOpen == old(deleteDialogOpen)
      ensures calls == old(calls) && toasts == old(toasts) && refetches == old(refetches) + 1
    {
      searchParams := SearchParams("", None);
      page := 1;
      refetches := refetches + 1;
    }

    /** `handlePageChange`: only the page changes. */
    method HandlePageChange(newPage: int)
      modifies this
      ensures page == newPage && pageSize == old(pageSize) && searchParams == old(searchParams)
      ensures selectedDocument == old(selectedDocument)
      ensures editDialogOpen == old(editDialogOpen) && deleteDialogOpen == old(deleteDialogOpen)
      ensures calls == old(calls) && toasts == old(toasts) && refetches == old(refetches)
    {
      page := newPage;
    }

    /** `handlePageSizeChange`: the new size, from page 1. */
    method HandlePageSizeChange(newPageSize: int)
      modifies this
      ensures page == 1 && pageSize == newPageSize && searchParams == old(searchParams)
      ensures Request().skip == 0 && Request().limit == newPageSize
      ensures selectedDocument == old(selectedDocument)
      ensures editDialogOpen == old(editDialogOpen) && deleteDialogOpen == old(deleteDialogOpen)
      ensures calls == old(calls) && toasts == old(toasts) && refetches == old(refetches)
    {
      pageSize := newPageSize;
      page := 1;
    }

    /** The "create document" button. */
    method OpenCreate()
      modifies this
      ensures selectedDocument == None && editDialogOpen
      ensures deleteDialogOpen == old(deleteDialogOpen) && page == old(page) && pageSize == old(pageSize)
      ensures searchParams == old(searchParams)
      ensures calls == old(calls) && toasts == old(toasts) && refetches == old(refetches)
    {
      selectedDocument := None;
      editDialogOpen := true;
    }

    /** A row's "edit" button. */
    method OpenEdit(doc: Document)
      modifies this
      ensures selectedDocument == Some(doc) && editDialogOpen
      ensures deleteDialogOpen == old(deleteDialogOpen) && page == old(page) && pageSize == old(pageSize)
      ensures searchParams == old(searchParams)
      ensures calls == old(calls) && toasts == old(toasts) && refetches == old(refetches)
    {
      selectedDocument := Some(doc);
      editDialogOpen := true;
    }

    /** A row's "delete" button. */
    method OpenDelete(doc: Document)
      modifies this
      ensures selectedDocument == Some(doc) && deleteDialogOpen
      ensures editDialogOpen == old(editDialogOpen) && page == old(page) && pageSize == old(pageSize)
      ensures searchParams == old(searchParams)
      ensures calls == old(calls) && toasts == old(toasts) && refetches == old(refetches)
    {
      selectedDocument := Some(doc);
      deleteDialogOpen := true;
    }

    /** `handleCreateOrUpdate`; `succeeds` is how the service call settles.
        The edit dialog closes and the list refetches only on success. */
    method HandleCreateOrUpdate(v: DocumentValues, succeeds: bool)
      modifies this
      ensures calls == old(calls) + [SaveCall(old(selectedDocument), knowledgeBaseId, v)]
      ensures toasts == old(toasts) + [SaveToast(old(selectedDocument), succeeds)]
      ensures editDialogOpen == (if succeeds then false else old(editDialogOpen))
      ensures refetches == old(refetches) + (if succeeds then 1 else 0)
      ensures selectedDocument == old(selectedDocument) && deleteDialogOpen == old(deleteDialogOpen)
      ensures page == old(page) && pageSize == old(pageSize) && searchParams == old(searchParams)
    {
      var call;
      if selectedDocument.Some? {
        call := UpdateDocument(selectedDocument.value.id, v);
      } else {
        call := CreateDocument(v, knowledgeBaseId);
      }
      calls := calls + [call];
      if succeeds {
        toasts := toasts + [Toast(if selectedDocument.Some? then "更新文档成功" else "创建文档成功", None, false)];
        editDialogOpen := false;
        refetches := refetches + 1;
      } else {
        toasts := toasts + [Toast(if selectedDocument.Some? then "更新文档失败" else "创建文档失败", Some(RetryLater), true)];
      }
    }

    /** `handleDelete`: nothing without a selected document; otherwise one
        delete call, and the dialog closes and the list refetches only on
        success. */
    method HandleDelete(succeeds: bool)
      modifies this
      ensures old(selectedDocument).None? ==>
        calls == old(calls) && toasts == old(toasts) && refetches == old(refetches) &&
        deleteDialogOpen == old(deleteDialogOpen)
      ensures old(selectedDocument).Some? ==>
        && calls == old(calls) + [DeleteDocument(old(selectedDocument).value.id)]
        && toasts == old(toasts) + [DeleteToast(succeeds)]
        && deleteDialogOpen == (if succeeds then false else old(deleteDialogOpen))
        && refetches == old(refetches) + (if succeeds then 1 else 0)
      ensures selectedDocument == old(selectedDocument) && editDialogOpen == old(editDialogOpen)
      ensures page == old(page) && pageSize == old(pageSize) && searchParams == old(searchParams)
    {
      if selectedDocument.None? {
        return;
      }
      calls := calls + [DeleteDocument(selectedDocument.value.id)];
      if succeeds {
        toasts := toasts + [Toast("删除文档成功", None, false)];
        deleteDialogOpen := false;
        refetches := refetches + 1;
      } else {
        toasts := toasts + [Toast("删除文档失败", Some(RetryLater), true)];
      }
    }
  }
}
