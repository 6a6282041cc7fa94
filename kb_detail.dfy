/**
 * The decisions of the knowledge-base detail page,
 * `src/pages/Knowledgebase/Detail.jsx`: which action buttons a document row
 * shows for its status, the status tag, the file-size text, and whether the
 * document pagination bar appears.
 */
module KbDetail {
  import opened Wrappers
  import opened Strings
  import opened JsValue
  import opened JsNumber
  import KbStore

  const Pending: string := "pending"
  const Processing: string := "processing"
  const Completed: string := "completed"
  const Failed: string := "failed"

  /** The buttons of a document row, in the order they are pushed. */
  datatype Action = Process | ProcessingIndicator | ViewChunks | Reprocess | Delete

  /** `renderActions(record)`: one branch per known status, then delete unless processing. */
  function RenderActions(status: Value): (actions: seq<Action>)
    ensures Delete in actions <==> status != Str(Processing)
    ensures Delete in actions ==> actions[|actions| - 1] == Delete
    ensures status == Str(Pending) ==> actions == [Process, Delete]
    ensures status == Str(Processing) ==> actions == [ProcessingIndicator]
    ensures status == Str(Completed) ==> actions == [ViewChunks, Reprocess, Delete]
    ensures status == Str(Failed) ==> actions == [Reprocess, Delete]
    ensures status !in {Str(Pending), Str(Processing), Str(Completed), Str(Failed)} ==> actions == [Delete]
  {
    var byStatus :=
      if StrictEquals(status, Str(Pending)) then [Process]
      else if StrictEquals(status, Str(Processing)) then [ProcessingIndicator]
      else if StrictEquals(status, Str(Completed)) then [ViewChunks, Reprocess]
      else if StrictEquals(status, Str(Failed)) then [Reprocess]
      else [];
    if !StrictEquals(status, Str(Processing)) then byStatus + [Delete] else byStatus
  }

  /** A document being processed can neither be deleted nor be sent to processing again. */
  lemma ProcessingIsLocked(status: Value)
    ensures Delete in RenderActions(status) && ProcessingIndicator !in RenderActions(status)
      <==> status != Str(Processing)
    ensures Process in RenderActions(status) <==> status == Str(Pending)
    ensures Reprocess in RenderActions(status) <==> status == Str(Completed) || status == Str(Failed)
  {
    var actions := RenderActions(status);
    if status == Str(Pending) {
      assert actions == [Process, Delete];
    } else if status == Str(Processing) {
      assert actions == [ProcessingIndicator];
    } else if status == Str(Completed) {
      assert actions == [ViewChunks, Reprocess, Delete];
    } else if status == Str(Failed) {
      assert actions == [Reprocess, Delete];
    } else {
      assert actions == [Delete];
    }
  }

  /** The tag of a status: its caption (the label) and its colour. */
  datatype TagConfig = TagConfig(caption: Value, color: string)

  /**
   * `STATUS_CONFIG[status] || { label: status, color: 'default' }`: the
   * table is looked up by the status written as a string.
   */
  function StatusTag(status: Value): (tag: TagConfig)
    ensures ToJsString(status) == Pending ==> tag == TagConfig(Str("待处理"), "default")
    ensures ToJsString(status) == Processing ==> tag == TagConfig(Str("处理中"), "processing")
    ensures ToJsString(status) == Completed ==> tag == TagConfig(Str("已完成"), "success")
    ensures ToJsString(status) == Failed ==> tag == TagConfig(Str("失败"), "error")
    ensures ToJsString(status) !in {Pending, Processing, Completed, Failed} ==> tag == TagConfig(status, "default")
  {
    var key := ToJsString(status);
    if key == Pending then TagConfig(Str("待处理"), "default")
    else if key == Processing then TagConfig(Str("处理中"), "processing")
    else if key == Completed then TagConfig(Str("已完成"), "success")
    else if key == Failed then TagConfig(Str("失败"), "error")
    else TagConfig(status, "default")
  }

  /** Every tag uses one of the four colours of the table. */
  lemma TagColours(status: Value)
    ensures StatusTag(status).color in {"default", "processing", "success", "error"}
  {
  }

  /** The shape of `formatFileSize`'s text: the KB and MB texts are one-decimal fractions. */
  datatype SizeText = Dash | Bytes(text: string) | Kilobytes | Megabytes

  /** `formatFileSize(size)`, with a missing size as `None`. */
  function FormatFileSize(size: Option<int>): (r: SizeText)
    ensures r == Dash <==> size == None || size == Some(0)
    ensures r.Bytes? <==> size.Some? && size.value != 0 && size.value < 1024
    ensures r.Bytes? ==> r.text == IntToString(size.value) + " B"
    ensures r == Kilobytes <==> size.Some? && 1024 <= size.value < 1024 * 1024
    ensures r == Megabytes <==> size.Some? && size.value >= 1024 * 1024
  {
    match size
    case None => Dash
    case Some(n) =>
      if n == 0 then Dash
      else if n < 1024 then Bytes(IntToString(n) + " B")
      else if n < 1024 * 1024 then Kilobytes
      else Megabytes
  }

  // ---------------------------------------------------------------------------
  // The document pagination bar

  /** The members the knowledge-base store defines: its state and its actions. */
  const StoreMembers: set<string> := {
    "knowledgebases", "currentKb", "documents", "loading", "error", "pagination",
    "fetchKnowledgebases", "fetchKnowledgebase", "createKnowledgebase", "deleteKnowledgebase",
    "updateKnowledgebase", "fetchDocuments", "uploadDocument", "deleteDocument",
    "setCurrentKb", "clearError"}

  /**
   * The page destructures `docPagination` from the store and renders the bar
   * when `docPagination.total > 0`; reading `total` of `undefined` or `null`
   * throws, which is `None` here.
   */
  function PaginationBarAsWritten(store: map<string, Value>): (shown: Option<bool>)
    ensures shown.Some? ==> "docPagination" in store
  {
    var docPagination := Get(Obj(store), "docPagination");
    if docPagination.Undefined? || docPagination.Null? then None
    else Some(IsPositive(Get(docPagination, "total")))
  }

  /**
   * The store has no `docPagination`, so the bar's condition throws whatever
   * the store holds: once the page gets past its spinner and its empty state,
   * that is, whenever `currentKb` is truthy, rendering the page throws.
   */
  lemma DetailRenderThrows(store: map<string, Value>)
    requires store.Keys <= StoreMembers
    ensures PaginationBarAsWritten(store) == None
  {
    assert "docPagination" !in StoreMembers;
  }

  /**
   * The evidently intended condition, on a document pagination the store
   * would keep: `total > 0`, so a numeric total shows the bar exactly when it
   * is positive, a numeric string counts as its number, and a falsy total
   * never shows it.
   */
  function PaginationBar(docPagination: KbStore.Pagination): (shown: bool)
    ensures docPagination.total.Num? ==> (shown <==> docPagination.total.n > 0)
    ensures (exists m: nat :: docPagination.total == Str(NatToString(m)) && m > 0) ==> shown
    ensures !Truthy(docPagination.total) ==> !shown
  {
    if !Truthy(docPagination.total) then
      FalsyIsNotPositive(docPagination.total);
      false
    else
      forall m: nat | docPagination.total == Str(NatToString(m)) && m > 0 ensures IsPositive(docPagination.total) {
        NumericStringIsItsNumber(m);
      }
      IsPositive(docPagination.total)
  }
}
