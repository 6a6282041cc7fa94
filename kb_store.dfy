/**
 * The knowledge-base store, `src/store/useKbStore.js`: the lists of
 * knowledge bases and documents, the selected knowledge base, the list
 * pagination and the shared `loading` / `error` flags. Every asynchronous
 * action first raises `loading` and clears `error`, awaits one request, and
 * then either applies the reply or records the failure message.
 *
 * Each action is one method on `KbStore` whose new state is given by a pure
 * transition on `KbState`; the lemmas below are about those transitions.
 * A request's outcome is the `Settled` value its promise settles with.
 */
module KbStore {
  import opened Wrappers
  import opened JsValue
  import opened ApiClient

  const DefaultPageSize: int := 10
  const FirstPage: int := 1

  datatype Pagination = Pagination(page: Value, pageSize: Value, total: Value)

  datatype KbState = KbState(
    knowledgebases: seq<Value>,
    currentKb: Value,
    documents: seq<Value>,
    loading: bool,
    error: Option<string>,
    pagination: Pagination)

  /** What a create, update, delete or upload action returns: `{success: true, data}` or `{success: false, error}`. */
  datatype Outcome = Succeeded(data: Value) | FailedWith(error: string)

  const Initial: KbState :=
    KbState([], Null, [], false, None, Pagination(Num(FirstPage), Num(DefaultPageSize), Num(0)))

  /** A default parameter: the argument unless it is `undefined`. */
  function Default(arg: Value, fallback: Value): (r: Value)
    ensures arg != Undefined ==> r == arg
    ensures arg == Undefined ==> r == fallback
  {
    if arg == Undefined then fallback else arg
  }

  /** `response.data || response`: the payload of an unwrapped reply. */
  function Payload(response: Value): (r: Value)
    ensures Truthy(Get(response, "data")) ==> r == Get(response, "data")
    ensures !Truthy(Get(response, "data")) ==> r == response
  {
    Or(Get(response, "data"), response)
  }

  /** `data.items || []`, as the list it becomes. */
  function ItemsOf(data: Value): (r: seq<Value>)
    ensures Get(data, "items").Arr? ==> r == Get(data, "items").items
    ensures !Get(data, "items").Arr? ==> r == []
  {
    match Or(Get(data, "items"), Arr([]))
    case Arr(xs) => xs
    case _ => []
  }

  /** `x.id === id`: the entries the delete filters drop and the update merges into. */
  predicate HasId(x: Value, id: Value) {
    StrictEquals(Get(x, "id"), id)
  }

  /** `xs.filter((x) => x.id !== id)`. */
  function RemoveById(xs: seq<Value>, id: Value): (r: seq<Value>)
    ensures |r| <= |xs|
    ensures forall x :: x in r <==> x in xs && !HasId(x, id)
  {
    if xs == [] then []
    else if HasId(xs[0], id) then RemoveById(xs[1..], id)
    else [xs[0]] + RemoveById(xs[1..], id)
  }

  /** `xs.map((x) => x.id === id ? { ...x, ...patch } : x)`. */
  function MergeById(xs: seq<Value>, id: Value, patch: Value): (r: seq<Value>)
    ensures |r| == |xs|
    ensures forall i :: 0 <= i < |xs| && !HasId(xs[i], id) ==> r[i] == xs[i]
    ensures forall i :: 0 <= i < |xs| && HasId(xs[i], id) ==> r[i] == Spread(xs[i], patch)
  {
    seq(|xs|, i requires 0 <= i < |xs| => if HasId(xs[i], id) then Spread(xs[i], patch) else xs[i])
  }

  /** The lists, the selection and the pagination: everything but the two flags. */
  predicate SameData(s: KbState, t: KbState) {
    s.knowledgebases == t.knowledgebases && s.currentKb == t.currentKb
    && s.documents == t.documents && s.pagination == t.pagination
  }

  /** The `catch` of every action: `loading` drops and the message is recorded; the data stays. */
  function Failure(s: KbState, message: string): (t: KbState)
    ensures SameData(s, t) && !t.loading && t.error == Some(message)
  {
    s.(loading := false, error := Some(message))
  }

  /** The state after a successful action: `error` was cleared at the start, `loading` is down again. */
  predicate Finished(t: KbState) {
    !t.loading && t.error == None
  }

  /** `fetchKnowledgebases(page, pageSize)`. */
  function AfterFetchKnowledgebases(s: KbState, page: Value, pageSize: Value, reply: Settled): (t: KbState)
    ensures reply.Rejected? ==> t == Failure(s, reply.message)
    ensures reply.Resolved? ==>
      var data := Payload(reply.data);
      && Finished(t)
      && t.knowledgebases == ItemsOf(data)
      && t.pagination.page == (if Truthy(Get(data, "page")) then Get(data, "page") else Default(page, Num(FirstPage)))
      && t.pagination.pageSize == (if Truthy(Get(data, "page_size")) then Get(data, "page_size") else Default(pageSize, Num(DefaultPageSize)))
      && t.pagination.total == (if Truthy(Get(data, "total")) then Get(data, "total") else Num(0))
      && t.currentKb == s.currentKb && t.documents == s.documents
  {
    match reply
    case Rejected(message) => Failure(s, message)
    case Resolved(response) =>
      var data := Payload(response);
      var pagination := Pagination(
        Or(Get(data, "page"), Default(page, Num(FirstPage))),
        Or(Get(data, "page_size"), Default(pageSize, Num(DefaultPageSize))),
        Or(Get(data, "total"), Num(0)));
      s.(knowledgebases := ItemsOf(data), pagination := pagination, loading := false, error := None)
  }

  /** `fetchKnowledgebase(id)`. */
  function AfterFetchKnowledgebase(s: KbState, reply: Settled): (t: KbState)
    ensures reply.Rejected? ==> t == Failure(s, reply.message)
    ensures reply.Resolved? ==>
      && Finished(t) && t.currentKb == Payload(reply.data)
      && t.knowledgebases == s.knowledgebases && t.documents == s.documents && t.pagination == s.pagination
  {
    match reply
    case Rejected(message) => Failure(s, message)
    case Resolved(response) => s.(currentKb := Payload(response), loading := false, error := None)
  }

  /** `createKnowledgebase(data)`: the new knowledge base goes first, the rest keep their order. */
  function AfterCreate(s: KbState, reply: Settled): (t: KbState)
    ensures reply.Rejected? ==> t == Failure(s, reply.message)
    ensures reply.Resolved? ==>
      && Finished(t)
      && |t.knowledgebases| == |s.knowledgebases| + 1
      && t.knowledgebases[0] == Payload(reply.data)
      && t.knowledgebases[1..] == s.knowledgebases
      && t.currentKb == s.currentKb && t.documents == s.documents && t.pagination == s.pagination
  {
    match reply
    case Rejected(message) => Failure(s, message)
    case Resolved(response) =>
      s.(knowledgebases := [Payload(response)] + s.knowledgebases, loading := false, error := None)
  }

  /** `deleteKnowledgebase(id)`. */
  function AfterDelete(s: KbState, id: Value, reply: Settled): (t: KbState)
    ensures reply.Rejected? ==> t == Failure(s, reply.message)
    ensures reply.Resolved? ==>
      && Finished(t)
      && (forall x :: x in t.knowledgebases <==> x in s.knowledgebases && !HasId(x, id))
      && t.currentKb == s.currentKb && t.documents == s.documents && t.pagination == s.pagination
  {
    match reply
    case Rejected(message) => Failure(s, message)
    case Resolved(_) => s.(knowledgebases := RemoveById(s.knowledgebases, id), loading := false, error := None)
  }

  /** `updateKnowledgebase(id, data)`: the reply is merged into matching entries and into a matching `currentKb`. */
  function AfterUpdate(s: KbState, id: Value, reply: Settled): (t: KbState)
    ensures reply.Rejected? ==> t == Failure(s, reply.message)
    ensures reply.Resolved? ==>
      && Finished(t)
      && t.knowledgebases == MergeById(s.knowledgebases, id, Payload(reply.data))
      && (HasId(s.currentKb, id) ==> t.currentKb == Spread(s.currentKb, Payload(reply.data)))
      && (!HasId(s.currentKb, id) ==> t.currentKb == s.currentKb)
      && t.documents == s.documents && t.pagination == s.pagination
  {
    match reply
    case Rejected(message) => Failure(s, message)
    case Resolved(response) =>
      var updated := Payload(response);
      var current := if HasId(s.currentKb, id) then Spread(s.currentKb, updated) else s.currentKb;
      s.(knowledgebases := MergeById(s.knowledgebases, id, updated), currentKb := current,
         loading := false, error := None)
  }

  /** `fetchDocuments(kbId)`: the page arguments only shape the request. */
  function AfterFetchDocuments(s: KbState, reply: Settled): (t: KbState)
    ensures reply.Rejected? ==> t == Failure(s, reply.message)
    ensures reply.Resolved? ==>
      && Finished(t) && t.documents == ItemsOf(Payload(reply.data))
      && t.knowledgebases == s.knowledgebases && t.currentKb == s.currentKb && t.pagination == s.pagination
  {
    match reply
    case Rejected(message) => Failure(s, message)
    case Resolved(response) => s.(documents := ItemsOf(Payload(response)), loading := false, error := None)
  }

  /**
   * `uploadDocument(kbId, formData)`: after a successful upload the document
   * list is fetched again; `fetchDocuments` catches its own failure, so the
   * upload still reports success, with that failure's message left in `error`.
   */
  function AfterUpload(s: KbState, upload: Settled, refetch: Settled): (t: KbState)
    ensures upload.Rejected? ==> t == Failure(s, upload.message)
    ensures upload.Resolved? ==> t == AfterFetchDocuments(s, refetch).(loading := false)
  {
    match upload
    case Rejected(message) => Failure(s, message)
    case Resolved(_) => AfterFetchDocuments(s.(loading := true, error := None), refetch).(loading := false)
  }

  /** `deleteDocument(kbId, docId)`: only the document list changes. */
  function AfterDeleteDocument(s: KbState, docId: Value, reply: Settled): (t: KbState)
    ensures reply.Rejected? ==> t == Failure(s, reply.message)
    ensures reply.Resolved? ==>
      && Finished(t)
      && (forall x :: x in t.documents <==> x in s.documents && !HasId(x, docId))
      && t.knowledgebases == s.knowledgebases && t.currentKb == s.currentKb && t.pagination == s.pagination
  {
    match reply
    case Rejected(message) => Failure(s, message)
    case Resolved(_) => s.(documents := RemoveById(s.documents, docId), loading := false, error := None)
  }

  /** The filter keeps the order of what it keeps: filtering a concatenation filters each part. */
  lemma {:induction false} RemoveDistributes(xs: seq<Value>, ys: seq<Value>, id: Value)
    ensures RemoveById(xs + ys, id) == RemoveById(xs, id) + RemoveById(ys, id)
  {
    if xs == [] {
      assert xs + ys == ys;
    } else {
      assert (xs + ys)[1..] == xs[1..] + ys;
      RemoveDistributes(xs[1..], ys, id);
    }
  }

  /** Filtering out an id nobody has changes nothing. */
  lemma {:induction false} RemoveAbsent(xs: seq<Value>, id: Value)
    requires forall x :: x in xs ==> !HasId(x, id)
    ensures RemoveById(xs, id) == xs
  {
    if xs != [] {
      assert xs[0] in xs;
      assert forall x :: x in xs[1..] ==> x in xs;
      RemoveAbsent(xs[1..], id);
      assert [xs[0]] + xs[1..] == xs;
    }
  }

  /** Deleting twice is deleting once. */
  lemma RemoveIdempotent(xs: seq<Value>, id: Value)
    ensures RemoveById(RemoveById(xs, id), id) == RemoveById(xs, id)
  {
    RemoveAbsent(RemoveById(xs, id), id);
  }

  /**
   * Deleting the knowledge base just created, under its own id, restores the
   * previous list when no other entry carried that id.
   */
  lemma DeleteUndoesCreate(s: KbState, created: Value, id: Value, deleted: Value)
    requires HasId(Payload(created), id)
    requires forall x :: x in s.knowledgebases ==> !HasId(x, id)
    ensures AfterDelete(AfterCreate(s, Resolved(created)), id, Resolved(deleted)).knowledgebases == s.knowledgebases
  {
    var listed := AfterCreate(s, Resolved(created)).knowledgebases;
    assert listed == [Payload(created)] + s.knowledgebases;
    RemoveDistributes([Payload(created)], s.knowledgebases, id);
    RemoveAbsent(s.knowledgebases, id);
    assert RemoveById([Payload(created)], id) == [];
  }

  /** A patch that does not move the entry to another id. */
  predicate KeepsId(patch: Value, id: Value) {
    "id" !in Props(patch) || StrictEquals(Props(patch)["id"], id)
  }

  /** Applying the same update reply twice is applying it once. */
  lemma MergeIdempotent(xs: seq<Value>, id: Value, patch: Value)
    requires KeepsId(patch, id)
    ensures MergeById(MergeById(xs, id, patch), id, patch) == MergeById(xs, id, patch)
  {
    var once := MergeById(xs, id, patch);
    forall i | 0 <= i < |xs|
      ensures MergeById(once, id, patch)[i] == once[i]
    {
      if HasId(xs[i], id) {
        assert HasId(once[i], id);
        assert Props(once[i]) + Props(patch) == Props(once[i]);
      }
    }
  }

  /** An update whose reply carries no `id` leaves every entry's id, and so the set of matches, as it was. */
  lemma MergeKeepsIds(xs: seq<Value>, id: Value, patch: Value)
    requires "id" !in Props(patch)
    ensures forall i :: 0 <= i < |xs| ==> Get(MergeById(xs, id, patch)[i], "id") == Get(xs[i], "id")
  {
  }

  /** An upload whose refetch fails still succeeds, but the refetch's message is in `error`. */
  lemma UploadSurvivesRefetchFailure(s: KbState, uploaded: Value, message: string)
    ensures var t := AfterUpload(s, Resolved(uploaded), Rejected(message));
      !t.loading && t.error == Some(message) && t.documents == s.documents
  {
  }

  /** The store object; each method is one action. */
  class KbStore {
    var knowledgebases: seq<Value>
    var currentKb: Value
    var documents: seq<Value>
    var loading: bool
    var error: Option<string>
    var pagination: Pagination

    function State(): KbState
      reads this
    {
      KbState(knowledgebases, currentKb, documents, loading, error, pagination)
    }

    constructor ()
      ensures State() == Initial
    {
      knowledgebases := [];
      currentKb := Null;
      documents := [];
      loading := false;
      error := None;
      pagination := Pagination(Num(FirstPage), Num(DefaultPageSize), Num(0));
    }

    /** The `catch` shared by every action. */
    method Fail(message: string)
      modifies this
      ensures State() == Failure(old(State()), message)
    {
      loading := false;
      error := Some(message);
    }

    /** `fetchKnowledgebases(page, pageSize)`: returns the payload, or `null` on failure. */
    method FetchKnowledgebases(page: Value, pageSize: Value, reply: Settled) returns (data: Value)
      modifies this
      ensures State() == AfterFetchKnowledgebases(old(State()), page, pageSize, reply)
      ensures data == (if reply.Resolved? then Payload(reply.data) else Null)
    {
      var requestedPage := Default(page, Num(FirstPage));
      var requestedSize := Default(pageSize, Num(DefaultPageSize));
      loading, error := true, None;
      match reply {
        case Rejected(message) =>
          Fail(message);
          data := Null;
        case Resolved(response) =>
          data := Payload(response);
          knowledgebases := ItemsOf(data);
          pagination := Pagination(
            Or(Get(data, "page"), requestedPage),
            Or(Get(data, "page_size"), requestedSize),
            Or(Get(data, "total"), Num(0)));
          loading := false;
      }
    }

    /** `fetchKnowledgebase(id)`: returns the knowledge base, or `null` on failure. */
    method FetchKnowledgebase(reply: Settled) returns (kb: Value)
      modifies this
      ensures State() == AfterFetchKnowledgebase(old(State()), reply)
      ensures kb == (if reply.Resolved? then Payload(reply.data) else Null)
    {
      loading, error := true, None;
      match reply {
        case Rejected(message) =>
          Fail(message);
          kb := Null;
        case Resolved(response) =>
          kb := Payload(response);
          currentKb, loading := kb, false;
      }
    }

    /** `createKnowledgebase(data)`. */
    method CreateKnowledgebase(reply: Settled) returns (outcome: Outcome)
      modifies this
      ensures State() == AfterCreate(old(State()), reply)
      ensures outcome == (if reply.Resolved? then Succeeded(Payload(reply.data)) else FailedWith(reply.message))
    {
      loading, error := true, None;
      match reply {
        case Rejected(message) =>
          Fail(message);
          outcome := FailedWith(message);
        case Resolved(response) =>
          var created := Payload(response);
          knowledgebases, loading := [created] + knowledgebases, false;
          outcome := Succeeded(created);
      }
    }

    /** `deleteKnowledgebase(id)`; success carries no data. */
    method DeleteKnowledgebase(id: Value, reply: Settled) returns (outcome: Outcome)
      modifies this
      ensures State() == AfterDelete(old(State()), id, reply)
      ensures outcome == (if reply.Resolved? then Succeeded(Undefined) else FailedWith(reply.message))
    {
      loading, error := true, None;
      match reply {
        case Rejected(message) =>
          Fail(message);
          outcome := FailedWith(message);
        case Resolved(_) =>
          knowledgebases, loading := RemoveById(knowledgebases, id), false;
          outcome := Succeeded(Undefined);
      }
    }

    /** `updateKnowledgebase(id, data)`. */
    method UpdateKnowledgebase(id: Value, reply: Settled) returns (outcome: Outcome)
      modifies this
      ensures State() == AfterUpdate(old(State()), id, reply)
      ensures outcome == (if reply.Resolved? then Succeeded(Payload(reply.data)) else FailedWith(reply.message))
    {
      loading, error := true, None;
      match reply {
        case Rejected(message) =>
          Fail(message);
          outcome := FailedWith(message);
        case Resolved(response) =>
          var updated := Payload(response);
          knowledgebases := MergeById(knowledgebases, id, updated);
          if HasId(currentKb, id) {
            currentKb := Spread(currentKb, updated);
          }
          loading := false;
          outcome := Succeeded(updated);
      }
    }

    /** `fetchDocuments(kbId, page, pageSize)`: returns the payload, or `null` on failure. */
    method FetchDocuments(reply: Settled) returns (data: Value)
      modifies this
      ensures State() == AfterFetchDocuments(old(State()), reply)
      ensures data == (if reply.Resolved? then Payload(reply.data) else Null)
    {
      loading, error := true, None;
      match reply {
        case Rejected(message) =>
          Fail(message);
          data := Null;
        case Resolved(response) =>
          data := Payload(response);
          documents, loading := ItemsOf(data), false;
      }
    }

    /** `uploadDocument(kbId, formData)`: the upload, then the refetch, then `loading` drops. */
    method UploadDocument(upload: Settled, refetch: Settled) returns (outcome: Outcome)
      modifies this
      ensures State() == AfterUpload(old(State()), upload, refetch)
      ensures outcome == (if upload.Resolved? then Succeeded(Payload(upload.data)) else FailedWith(upload.message))
    {
      loading, error := true, None;
      match upload {
        case Rejected(message) =>
          Fail(message);
          outcome := FailedWith(message);
        case Resolved(response) =>
          var _ := FetchDocuments(refetch);
          loading := false;
          outcome := Succeeded(Payload(response));
      }
    }

    /** `deleteDocument(kbId, docId)`; success carries no data. */
    method DeleteDocument(docId: Value, reply: Settled) returns (outcome: Outcome)
      modifies this
      ensures State() == AfterDeleteDocument(old(State()), docId, reply)
      ensures outcome == (if reply.Resolved? then Succeeded(Undefined) else FailedWith(reply.message))
    {
      loading, error := true, None;
      match reply {
        case Rejected(message) =>
          Fail(message);
          outcome := FailedWith(message);
        case Resolved(_) =>
          documents, loading := RemoveById(documents, docId), false;
          outcome := Succeeded(Undefined);
      }
    }

    /** `setCurrentKb(kb)`. */
    method SetCurrentKb(kb: Value)
      modifies this
      ensures State() == old(State()).(currentKb := kb)
    {
      currentKb := kb;
    }

    /** `clearError()`. */
    method ClearError()
      modifies this
      ensures State() == old(State()).(error := None)
    {
      error := None;
    }
  }
}
