/**
 * The document upload dialog, `src/components/DocumentUploadModal.jsx`.
 * `beforeUpload` screens a picked file by name and size; the dialog keeps
 * at most one file, an optional custom name and the `uploading` flag;
 * submitting posts the file and reports the server's verdict.
 */
module UploadModal {
  import opened Wrappers
  import opened Strings
  import opened JsValue
  import opened ApiClient

  const AllowedTypes: seq<string> := ["pdf", "docx", "txt", "md"]
  /** 100 MiB: the largest accepted size, in bytes. */
  const MaxSize: int := 100 * 1024 * 1024
  /** The server's success code in the reply body. */
  const SuccessCode: int := 200

  const NoExtensionMessage: string := "文件名必须包含扩展名"
  const TooLargeMessage: string := "文件大小不能超过 100MB"
  const NoFileMessage: string := "请选择要上传的文件"
  const UploadedMessage: string := "文档上传成功"
  const UploadFailedMessage: string := "上传失败"
  const BadReplyMessage: string := "服务器响应格式错误"

  /** The picked file as `beforeUpload` sees it: its name (empty when missing) and size in bytes. */
  datatype PickedFile = PickedFile(name: string, size: int)

  /** `Upload.LIST_IGNORE` with the error shown, or `false`: keep the file and do not upload yet. */
  datatype Screening = Ignore(message: string) | Hold

  /** The multipart request `handleSubmit` builds: the file, and the custom name when one was given. */
  datatype UploadRequest = UploadRequest(file: Value, name: Option<string>)

  /** How the POST went: it threw (with the error's message), or a reply arrived whose body is JSON or not. */
  datatype UploadReply = Threw(message: string) | Responded(ok: bool, body: Option<Value>)

  /** The toast shown when the upload settles. */
  datatype Notice = Success(text: string) | Failure(text: string)

  /** The text after the last `'.'` (all of `name` when there is none), before lower-casing. */
  function RawExtension(name: string): (ext: string)
    ensures '.' !in ext
    ensures '.' !in name ==> ext == name
    ensures '.' in name ==> |ext| < |name| && name[|name| - |ext| - 1] == '.' && name[|name| - |ext|..] == ext
  {
    LastPieceShape(name);
    var parts := Split(name, '.');
    parts[|parts| - 1]
  }

  lemma LastPieceShape(name: string)
    ensures var parts := Split(name, '.'); var ext := parts[|parts| - 1];
      && '.' !in ext
      && ('.' !in name ==> ext == name)
      && ('.' in name ==> |ext| < |name| && name[|name| - |ext| - 1] == '.' && name[|name| - |ext|..] == ext)
  {
    var parts := Split(name, '.');
    LastPiece(name, '.');
    var ext := parts[|parts| - 1];
    if '.' in name {
      var init := Join(parts[..|parts| - 1], '.');
      assert name == init + ['.'] + ext;
      assert name[|init|] == '.';
      assert name[|name| - |ext|..] == ext;
    }
  }

  /** `name.split('.').pop().toLowerCase()`. */
  function Extension(name: string): (ext: string)
    ensures '.' !in ext && |ext| == |RawExtension(name)|
  {
    ToLowerAscii(RawExtension(name))
  }

  /** The extension is exactly what follows the last dot, whatever comes before it. */
  lemma ExtensionAfterLastDot(stem: string, suffix: string)
    requires '.' !in suffix
    ensures RawExtension(stem + "." + suffix) == suffix
  {
    var name := stem + "." + suffix;
    var ext := RawExtension(name);
    assert name[|name| - |suffix| - 1] == '.';
    assert name[|name| - |suffix|..] == suffix;
  }

  /** `allowedTypes.join(', ')`. */
  const AllowedTypesText: string := "pdf, docx, txt, md"

  function UnsupportedMessage(ext: string): string {
    "不支持的文件格式: ." + ext + "，允许的格式: " + AllowedTypesText
  }

  /** `beforeUpload(file)`: the checks run in order and the first failure decides the message. */
  function BeforeUpload(file: PickedFile): (r: Screening)
    ensures r == Hold <==> '.' in file.name && Extension(file.name) in AllowedTypes && file.size <= MaxSize
    ensures '.' !in file.name ==> r == Ignore(NoExtensionMessage)
    ensures '.' in file.name && Extension(file.name) !in AllowedTypes ==> r == Ignore(UnsupportedMessage(Extension(file.name)))
    ensures '.' in file.name && Extension(file.name) in AllowedTypes && file.size > MaxSize ==> r == Ignore(TooLargeMessage)
  {
    if file.name == "" || '.' !in file.name then Ignore(NoExtensionMessage)
    else if Extension(file.name) !in AllowedTypes then Ignore(UnsupportedMessage(Extension(file.name)))
    else if file.size > MaxSize then Ignore(TooLargeMessage)
    else Hold
  }

  /** A picked file named `<stem>.<ext>` passes on its type exactly when its extension, lower-cased, is allowed. */
  lemma UpperCaseExtensionPasses(stem: string, size: int)
    requires 0 <= size <= MaxSize
    ensures BeforeUpload(PickedFile(stem + "." + "PDF", size)) == Hold
  {
    ExtensionAfterLastDot(stem, "PDF");
    assert ToLowerAscii("PDF") == "pdf";
  }

  /** `newFileList.slice(-1)`: the last file, or nothing. */
  function KeepLast(files: seq<Value>): (r: seq<Value>)
    ensures |r| <= 1
    ensures files == [] <==> r == []
    ensures files != [] ==> r == [files[|files| - 1]]
  {
    if files == [] then [] else files[|files| - 1..]
  }

  /** The custom name sent with the file: the trimmed field value, unless that is empty. */
  function CustomName(field: Value): (name: Option<string>)
    ensures name.Some? <==> field.Str? && Trim(field.s) != ""
    ensures name.Some? ==> name.value == Trim(field.s) && name.value != ""
  {
    if Truthy(field) && field.Str? && Trim(field.s) != "" then Some(Trim(field.s)) else None
  }

  /** `fileList[0].originFileObj || fileList[0]`. */
  function FileToSend(item: Value): Value {
    Or(Get(item, "originFileObj"), item)
  }

  /** The verdict on a settled upload: success needs an ok reply whose `code` is strictly 200. */
  function Verdict(reply: UploadReply): (n: Notice)
    ensures n.Success? <==>
      && reply.Responded? && reply.ok && reply.body.Some?
      && StrictEquals(Get(reply.body.value, "code"), Num(SuccessCode))
    ensures n.Success? ==> n.text == UploadedMessage
    ensures reply.Threw? ==> n == Failure(UploadFailedMessage + ": " + reply.message)
    ensures reply.Responded? && reply.body.None? ==> n == Failure(UploadFailedMessage + ": " + BadReplyMessage)
  {
    match reply
    case Threw(message) => Failure(UploadFailedMessage + ": " + message)
    case Responded(ok, body) =>
      match body
      case None => Failure(UploadFailedMessage + ": " + BadReplyMessage)
      case Some(result) =>
        if ok && StrictEquals(Get(result, "code"), Num(SuccessCode)) then Success(UploadedMessage)
        else Failure(MessageOr(Get(result, "message"), UploadFailedMessage))
  }

  /** A code of `"200"` is not `200`: the strict comparison refuses it even on an ok reply. */
  lemma StringCodeFails(result: Value)
    requires Get(result, "code") == Str("200")
    ensures Verdict(Responded(true, Some(result))).Failure?
  {
  }

  /** The dialog's state: the kept file, the name field, the flag and the progress shown. */
  class Dialog {
    var fileList: seq<Value>
    var nameField: Value
    var uploading: bool
    var progress: int

    constructor ()
      ensures fileList == [] && nameField == Undefined && !uploading && progress == 0
    {
      fileList := [];
      nameField := Undefined;
      uploading := false;
      progress := 0;
    }

    /** `resetForm()`: the name field, the file list and the progress go back to their start. */
    method ResetForm()
      modifies this
      ensures fileList == [] && nameField == Undefined && progress == 0 && uploading == old(uploading)
    {
      nameField := Undefined;
      fileList := [];
      progress := 0;
    }

    /** `handleCancel()`: refused while uploading; otherwise the form is reset and the dialog closes. */
    method HandleCancel() returns (closed: bool)
      modifies this
      ensures closed <==> !old(uploading)
      ensures old(uploading) ==> fileList == old(fileList) && nameField == old(nameField) && progress == old(progress)
      ensures !old(uploading) ==> fileList == [] && nameField == Undefined && progress == 0
      ensures uploading == old(uploading)
    {
      if uploading {
        return false;
      }
      ResetForm();
      return true;
    }

    /** `handleChange({fileList})`. */
    method HandleChange(newFileList: seq<Value>)
      modifies this
      ensures fileList == KeepLast(newFileList)
      ensures nameField == old(nameField) && uploading == old(uploading) && progress == old(progress)
    {
      fileList := KeepLast(newFileList);
    }

    /** `handleRemove()`. */
    method HandleRemove()
      modifies this
      ensures fileList == [] && nameField == old(nameField) && uploading == old(uploading) && progress == old(progress)
    {
      fileList := [];
    }

    /**
     * `handleSubmit()` up to the request: with no file it shows an error and
     * sends nothing; otherwise the upload starts with the first file and the
     * trimmed custom name.
     */
    method BeginSubmit() returns (request: Option<UploadRequest>, error: Option<string>)
      modifies this
      ensures old(fileList) == [] ==> request == None && error == Some(NoFileMessage) && uploading == old(uploading)
      ensures old(fileList) != [] ==>
        && request == Some(UploadRequest(FileToSend(old(fileList)[0]), CustomName(old(nameField))))
        && error == None && uploading && progress == 0
      ensures fileList == old(fileList) && nameField == old(nameField)
      ensures old(fileList) == [] ==> progress == old(progress)
    {
      if |fileList| == 0 {
        return None, Some(NoFileMessage);
      }
      var file := FileToSend(fileList[0]);
      var name := CustomName(nameField);
      uploading, progress := true, 0;
      return Some(UploadRequest(file, name)), None;
    }

    /**
     * `handleSubmit()` after the request: on success the form is reset and
     * the reply's `data` goes to `onSuccess`; `uploading` drops either way.
     */
    method FinishSubmit(reply: UploadReply) returns (notice: Notice, delivered: Option<Value>)
      modifies this
      ensures notice == Verdict(reply)
      ensures !uploading
      ensures notice.Success? ==>
        && fileList == [] && nameField == Undefined && progress == 0
        && delivered == Some(Get(reply.body.value, "data"))
      ensures notice.Failure? ==>
        && fileList == old(fileList) && nameField == old(nameField)
        && progress == old(progress) && delivered == None
    {
      notice := Verdict(reply);
      delivered := None;
      if notice.Success? {
        ResetForm();
        delivered := Some(Get(reply.body.value, "data"));
      }
      uploading := false;
    }
  }
}
