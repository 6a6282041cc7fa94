/**
 * The create / edit dialog for a knowledge base,
 * `src/components/KnowledgebaseFormModal.jsx`. Its values are derived from
 * the `mode`, `initialData` and `open` props; its only state is the cover
 * image, replaced as a whole, beside the form's field values.
 */
module KbFormModal {
  import opened Strings
  import opened JsValue

  const DefaultChunkSize: int := 512
  const DefaultChunkOverlap: int := 50
  const Create: string := "create"
  const Edit: string := "edit"
  const ClosedKey: string := "closed"
  const EditKeyPrefix: string := "edit-"

  /** The cover image: the storage key that is submitted, and the preview URL. */
  datatype CoverImage = CoverImage(objectKey: Value, url: Value)

  /** The title and submit-button text of a mode. */
  datatype Config = Config(title: string, submitText: string)

  const NoCover: CoverImage := CoverImage(Null, Null)

  /** The `mode` prop, which defaults to `'create'`. */
  function ModeOf(mode: Value): (m: Value)
    ensures mode != Undefined ==> m == mode
    ensures mode == Undefined ==> m == Str(Create)
  {
    if mode == Undefined then Str(Create) else mode
  }

  /** `mode === 'edit'`. */
  predicate IsEdit(mode: Value) {
    StrictEquals(ModeOf(mode), Str(Edit))
  }

  /** `initialCoverImage`: read from the data only when editing with data. */
  function InitialCoverImage(mode: Value, initialData: Value): (c: CoverImage)
    ensures IsEdit(mode) && Truthy(initialData) ==>
      c == CoverImage(Or(Get(initialData, "cover_image"), Null), Or(Get(initialData, "cover_image_url"), Null))
    ensures !(IsEdit(mode) && Truthy(initialData)) ==> c == NoCover
    ensures !Truthy(c.objectKey) ==> c.objectKey == Null
  {
    if IsEdit(mode) && Truthy(initialData) then
      CoverImage(Or(Get(initialData, "cover_image"), Null), Or(Get(initialData, "cover_image_url"), Null))
    else NoCover
  }

  /** `modalConfig[mode] || modalConfig.create`: the table is looked up by the mode written as a string. */
  function ModalConfig(mode: Value): (c: Config)
    ensures ToJsString(ModeOf(mode)) == Edit ==> c == Config("编辑知识库", "保存")
    ensures ToJsString(ModeOf(mode)) != Edit ==> c == Config("创建知识库", "创建")
  {
    var key := ToJsString(ModeOf(mode));
    if key == Edit then Config("编辑知识库", "保存") else Config("创建知识库", "创建")
  }

  /** An unknown mode gets the create dialog's texts but, not being `'edit'`, also its initial values. */
  lemma UnknownModeIsCreate(mode: string, initialData: Value)
    requires mode != Edit
    ensures ModalConfig(Str(mode)) == ModalConfig(Str(Create))
    ensures !IsEdit(Str(mode)) && InitialCoverImage(Str(mode), initialData) == NoCover
  {
  }

  /** `{ ...values, cover_image: coverImage.objectKey }`. */
  function SubmitData(values: Value, cover: CoverImage): (r: Value)
    ensures r.Obj?
    ensures Get(r, "cover_image") == cover.objectKey
    ensures forall key :: key != "cover_image" ==> Get(r, key) == Get(values, key)
  {
    Spread(values, Single("cover_image", cover.objectKey))
  }

  /** The submitted cover is always the dialog's own, whatever the form held under that name. */
  lemma SubmittedCoverIsCurrent(values: Value, cover: CoverImage, stale: Value)
    ensures SubmitData(Spread(values, Single("cover_image", stale)), cover) == SubmitData(values, cover)
  {
    var withStale := Spread(values, Single("cover_image", stale));
    assert Props(withStale) + Props(Single("cover_image", cover.objectKey))
        == Props(values) + Props(Single("cover_image", cover.objectKey));
  }

  /** `formInitialValues`. */
  function FormInitialValues(mode: Value, initialData: Value): (r: Value)
    ensures r.Obj?
    ensures IsEdit(mode) && Truthy(initialData) ==>
      && r.props.Keys == {"name", "description", "chunk_size", "chunk_overlap"}
      && Get(r, "name") == Get(initialData, "name")
      && Get(r, "description") == (if Truthy(Get(initialData, "description")) then Get(initialData, "description") else Str(""))
      && Get(r, "chunk_size") == Get(initialData, "chunk_size")
      && Get(r, "chunk_overlap") == Get(initialData, "chunk_overlap")
    ensures !(IsEdit(mode) && Truthy(initialData)) ==>
      r == Obj(map["chunk_size" := Num(DefaultChunkSize), "chunk_overlap" := Num(DefaultChunkOverlap)])
  {
    if IsEdit(mode) && Truthy(initialData) then
      Obj(map[
        "name" := Get(initialData, "name"),
        "description" := Or(Get(initialData, "description"), Str("")),
        "chunk_size" := Get(initialData, "chunk_size"),
        "chunk_overlap" := Get(initialData, "chunk_overlap")])
    else Obj(map["chunk_size" := Num(DefaultChunkSize), "chunk_overlap" := Num(DefaultChunkOverlap)])
  }

  /** `modalKey`: `'closed'`, `'edit-<id>'` or `'create'`. */
  function ModalKey(open: Value, mode: Value, initialData: Value): (key: string)
    ensures !Truthy(open) ==> key == ClosedKey
    ensures Truthy(open) && IsEdit(mode) ==> key == EditKeyPrefix + ToJsString(Get(initialData, "id"))
    ensures Truthy(open) && !IsEdit(mode) ==> key == Create
  {
    if !Truthy(open) then ClosedKey
    else if IsEdit(mode) then EditKeyPrefix + ToJsString(Get(initialData, "id"))
    else Create
  }

  /**
   * The key tells the dialogs apart: a closed, a create and an edit dialog
   * never share one, and two edit dialogs share one exactly when their ids
   * print alike, so editing another knowledge base remounts the dialog.
   */
  lemma ModalKeysSeparate(open: Value, mode: Value, data: Value, otherData: Value)
    requires Truthy(open) && IsEdit(mode)
    ensures var key := ModalKey(open, mode, data);
      key != ClosedKey && key != Create
      && (key == ModalKey(open, mode, otherData) <==> ToJsString(Get(data, "id")) == ToJsString(Get(otherData, "id")))
  {
    var key := ModalKey(open, mode, data);
    assert key[0] == EditKeyPrefix[0] == 'e';
    assert ClosedKey[0] == Create[0] == 'c';
    var other := ModalKey(open, mode, otherData);
    if key == other {
      assert key[|EditKeyPrefix|..] == ToJsString(Get(data, "id"));
      assert other[|EditKeyPrefix|..] == ToJsString(Get(otherData, "id"));
    }
  }

  /** The dialog's state: the cover image and the form's current values. */
  class Dialog {
    var coverImage: CoverImage
    var fieldValues: Value

    /** The dialog as mounted with its props. */
    constructor (mode: Value, initialData: Value)
      ensures coverImage == InitialCoverImage(mode, initialData)
      ensures fieldValues == FormInitialValues(mode, initialData)
    {
      coverImage := InitialCoverImage(mode, initialData);
      fieldValues := FormInitialValues(mode, initialData);
    }

    /** `resetForm()`: the fields go back to their initial values and the cover to nulls. */
    method ResetForm(mode: Value, initialData: Value)
      modifies this
      ensures coverImage == NoCover && fieldValues == FormInitialValues(mode, initialData)
    {
      fieldValues := FormInitialValues(mode, initialData);
      coverImage := NoCover;
    }

    /** `handleCancel()`: the reset happens first; `onCancel` is then called. */
    method HandleCancel(mode: Value, initialData: Value) returns (callsOnCancel: bool)
      modifies this
      ensures callsOnCancel
      ensures coverImage == NoCover && fieldValues == FormInitialValues(mode, initialData)
    {
      ResetForm(mode, initialData);
      callsOnCancel := true;
    }

    /** `handleCoverImageChange(imageData)`. */
    method HandleCoverImageChange(imageData: CoverImage)
      modifies this
      ensures coverImage == imageData && fieldValues == old(fieldValues)
    {
      coverImage := imageData;
    }

    /** `handleFinish(values)`: what `onSubmit` receives; the dialog's state is untouched. */
    method HandleFinish() returns (submitted: Value)
      ensures Get(submitted, "cover_image") == coverImage.objectKey
      ensures forall key :: key != "cover_image" ==> Get(submitted, key) == Get(fieldValues, key)
    {
      submitted := SubmitData(fieldValues, coverImage);
    }
  }
}
