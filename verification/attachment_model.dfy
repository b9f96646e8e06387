/**
 * The attachment record of the Node.js back end (src/models/Attachment.js):
 * construction with `||` defaults, validation of the file name, the file
 * path and the two references into an ordered error list, and the two
 * serialised shapes.
 */
module AttachmentModel {
  import opened Base
  import opened JsValues
  import opened Validation

  /** The messages `validate()` can push; `Text()` is the string pushed. */
  datatype AttachmentError = FileNameRequired | FilePathRequired | DefectIdRequired | UserIdRequired
  {
    function Text(): string
    {
      match this
      case FileNameRequired => "File name is required"
      case FilePathRequired => "File path is required"
      case DefectIdRequired => "Defect ID is required"
      case UserIdRequired => "User ID is required"
    }

    /** The position of the message's check among the checks `validate()` runs. */
    function Position(): nat
    {
      match this
      case FileNameRequired => 0
      case FilePathRequired => 1
      case DefectIdRequired => 2
      case UserIdRequired => 3
    }
  }

  /**
   * The property names the model reads or writes: `Name()` is the name in
   * the object; the `...Column` keys are the snake_case spellings of rows.
   */
  datatype AttachmentKey =
    | Id | DefectId | UserId | FileName | FilePath | FileSize | MimeType | UploadedAt
    | DefectIdColumn | UserIdColumn | FileNameColumn | FilePathColumn | FileSizeColumn | MimeTypeColumn
    | UploadedAtColumn
  {
    function Name(): string
    {
      match this
      case Id => "id"
      case DefectId => "defectId"
      case UserId => "userId"
      case FileName => "fileName"
      case FilePath => "filePath"
      case FileSize => "fileSize"
      case MimeType => "mimeType"
      case UploadedAt => "uploadedAt"
      case DefectIdColumn => "defect_id"
      case UserIdColumn => "user_id"
      case FileNameColumn => "file_name"
      case FilePathColumn => "file_path"
      case FileSizeColumn => "file_size"
      case MimeTypeColumn => "mime_type"
      case UploadedAtColumn => "uploaded_at"
    }
  }

  /** An attachment's fields, as the constructor leaves them on the object. */
  datatype Attachment = Attachment(
    id: JsValue, defectId: JsValue, userId: JsValue, fileName: JsValue, filePath: JsValue,
    fileSize: JsValue, mimeType: JsValue, uploadedAt: JsValue)
  {
    /** `validate()` throws before returning: the file name or path is truthy but not a string. */
    predicate Throws()
    {
      TrimThrows(fileName) || TrimThrows(filePath)
    }

    /** `validate()`'s checks in the order it runs them. */
    function Checks(): seq<Check<AttachmentError>>
    {
      [ Check(IsBlank(fileName), FileNameRequired),
        Check(IsBlank(filePath), FilePathRequired),
        Check(!Truthy(defectId), DefectIdRequired),
        Check(!Truthy(userId), UserIdRequired) ]
    }

    /** The error list `validate()` returns when it does not throw. */
    function Errors(): seq<AttachmentError>
      requires !Throws()
    {
      Collect(Checks())
    }

    /**
     * `validate()`: the TypeError of `trim` on a non-string file name or
     * path, or `{ valid, errors }` with `valid` true exactly when no check
     * failed.
     */
    method Validate() returns (r: Result<Outcome<AttachmentError>, JsError>)
      ensures TrimThrows(fileName) ==> r == Err(TrimNotAFunction("fileName"))
      ensures !TrimThrows(fileName) && TrimThrows(filePath) ==> r == Err(TrimNotAFunction("filePath"))
      ensures !Throws() ==> r == Ok(Outcome(Errors() == [], Errors()))
    {
      var errors: seq<AttachmentError> := [];
      if TrimThrows(fileName) {
        return Err(TrimNotAFunction("fileName"));
      }
      errors := Push(errors, IsBlank(fileName), FileNameRequired);
      if TrimThrows(filePath) {
        return Err(TrimNotAFunction("filePath"));
      }
      errors := Push(errors, IsBlank(filePath), FilePathRequired);
      errors := Push(errors, !Truthy(defectId), DefectIdRequired);
      errors := Push(errors, !Truthy(userId), UserIdRequired);
      PushesCollectChecks(this);
      return Ok(Outcome(|errors| == 0, errors));
    }

    /** `toDatabase()`: every field but the id and the upload time, under column names. */
    function ToDatabase(): (o: JsObject<AttachmentKey>)
      ensures o.Keys == {DefectIdColumn, UserIdColumn, FileNameColumn, FilePathColumn, FileSizeColumn, MimeTypeColumn}
    {
      map[DefectIdColumn := defectId, UserIdColumn := userId, FileNameColumn := fileName,
          FilePathColumn := filePath, FileSizeColumn := fileSize, MimeTypeColumn := mimeType]
    }

    /** `toJSON()`: all eight fields under their camelCase names. */
    function ToJSON(): (o: JsObject<AttachmentKey>)
      ensures o.Keys == {Id, DefectId, UserId, FileName, FilePath, FileSize, MimeType, UploadedAt}
    {
      map[Id := id, DefectId := defectId, UserId := userId, FileName := fileName, FilePath := filePath,
          FileSize := fileSize, MimeType := mimeType, UploadedAt := uploadedAt]
    }
  }

  /** What the constructor can leave in each field: the input when truthy, otherwise the default. */
  predicate Normalized(a: Attachment)
  {
    && (Truthy(a.id) || a.id == Null)
    && (Truthy(a.defectId) || a.defectId == Null)
    && (Truthy(a.userId) || a.userId == Null)
    && (Truthy(a.fileName) || a.fileName == Str(""))
    && (Truthy(a.filePath) || a.filePath == Str(""))
    && (Truthy(a.fileSize) || a.fileSize == Null)
    && (Truthy(a.mimeType) || a.mimeType == Null)
    && (Truthy(a.uploadedAt) || a.uploadedAt == Null)
  }

  /**
   * `new Attachment(data)`: each field is the input when truthy and its
   * default otherwise; for every field but the id the snake_case key is
   * tried first. A size of 0 is falsy and becomes null.
   */
  function NewAttachment(data: JsObject<AttachmentKey>): (a: Attachment)
    // a truthy id is kept as given, a falsy one gives null
    ensures Truthy(Prop(data, Id)) ==> a.id == Prop(data, Id)
    ensures !Truthy(Prop(data, Id)) ==> a.id == Null
    // a two-word field takes the truthy snake_case key over the camelCase one, and its default when both are falsy
    ensures Truthy(Prop(data, DefectIdColumn)) ==> a.defectId == Prop(data, DefectIdColumn)
    ensures !Truthy(Prop(data, DefectIdColumn)) && Truthy(Prop(data, DefectId)) ==> a.defectId == Prop(data, DefectId)
    ensures !Truthy(Prop(data, DefectIdColumn)) && !Truthy(Prop(data, DefectId)) ==> a.defectId == Null
    ensures Truthy(Prop(data, UserIdColumn)) ==> a.userId == Prop(data, UserIdColumn)
    ensures !Truthy(Prop(data, UserIdColumn)) && Truthy(Prop(data, UserId)) ==> a.userId == Prop(data, UserId)
    ensures !Truthy(Prop(data, UserIdColumn)) && !Truthy(Prop(data, UserId)) ==> a.userId == Null
    ensures Truthy(Prop(data, FileNameColumn)) ==> a.fileName == Prop(data, FileNameColumn)
    ensures !Truthy(Prop(data, FileNameColumn)) && Truthy(Prop(data, FileName)) ==> a.fileName == Prop(data, FileName)
    ensures !Truthy(Prop(data, FileNameColumn)) && !Truthy(Prop(data, FileName)) ==> a.fileName == Str("")
    ensures Truthy(Prop(data, FilePathColumn)) ==> a.filePath == Prop(data, FilePathColumn)
    ensures !Truthy(Prop(data, FilePathColumn)) && Truthy(Prop(data, FilePath)) ==> a.filePath == Prop(data, FilePath)
    ensures !Truthy(Prop(data, FilePathColumn)) && !Truthy(Prop(data, FilePath)) ==> a.filePath == Str("")
    ensures Truthy(Prop(data, FileSizeColumn)) ==> a.fileSize == Prop(data, FileSizeColumn)
    ensures !Truthy(Prop(data, FileSizeColumn)) && Truthy(Prop(data, FileSize)) ==> a.fileSize == Prop(data, FileSize)
    ensures !Truthy(Prop(data, FileSizeColumn)) && !Truthy(Prop(data, FileSize)) ==> a.fileSize == Null
    ensures Truthy(Prop(data, MimeTypeColumn)) ==> a.mimeType == Prop(data, MimeTypeColumn)
    ensures !Truthy(Prop(data, MimeTypeColumn)) && Truthy(Prop(data, MimeType)) ==> a.mimeType == Prop(data, MimeType)
    ensures !Truthy(Prop(data, MimeTypeColumn)) && !Truthy(Prop(data, MimeType)) ==> a.mimeType == Null
    ensures Truthy(Prop(data, UploadedAtColumn)) ==> a.uploadedAt == Prop(data, UploadedAtColumn)
    ensures !Truthy(Prop(data, UploadedAtColumn)) && Truthy(Prop(data, UploadedAt)) ==> a.uploadedAt == Prop(data, UploadedAt)
    ensures !Truthy(Prop(data, UploadedAtColumn)) && !Truthy(Prop(data, UploadedAt)) ==> a.uploadedAt == Null
  {
    Attachment(
      Or(Prop(data, Id), Null),
      Prefer(data, DefectIdColumn, DefectId, Null),
      Prefer(data, UserIdColumn, UserId, Null),
      Prefer(data, FileNameColumn, FileName, Str("")),
      Prefer(data, FilePathColumn, FilePath, Str("")),
      Prefer(data, FileSizeColumn, FileSize, Null),
      Prefer(data, MimeTypeColumn, MimeType, Null),
      Prefer(data, UploadedAtColumn, UploadedAt, Null))
  }

  /** Whatever the input, the constructor leaves each field truthy or at its default. */
  lemma ConstructorNormalizes(data: JsObject<AttachmentKey>)
    ensures Normalized(NewAttachment(data))
  {
  }

  /** An object without a truthy property builds an attachment with empty name and path and nothing else. */
  lemma FalsyInputGivesDefaults(data: JsObject<AttachmentKey>)
    requires forall key :: key in data ==> !Truthy(data[key])
    ensures NewAttachment(data) == Attachment(Null, Null, Null, Str(""), Str(""), Null, Null, Null)
  {
  }

  /**
   * `Attachment.fromDatabase(row)`: the constructor applied to a row. Every
   * truthy column of a row is read into its field, the snake_case ones
   * whatever camelCase keys the row also carries.
   */
  function FromDatabase(row: JsObject<AttachmentKey>): (a: Attachment)
    ensures Truthy(Prop(row, Id)) ==> a.id == Prop(row, Id)
    ensures Truthy(Prop(row, DefectIdColumn)) ==> a.defectId == Prop(row, DefectIdColumn)
    ensures Truthy(Prop(row, UserIdColumn)) ==> a.userId == Prop(row, UserIdColumn)
    ensures Truthy(Prop(row, FileNameColumn)) ==> a.fileName == Prop(row, FileNameColumn)
    ensures Truthy(Prop(row, FilePathColumn)) ==> a.filePath == Prop(row, FilePathColumn)
    ensures Truthy(Prop(row, FileSizeColumn)) ==> a.fileSize == Prop(row, FileSizeColumn)
    ensures Truthy(Prop(row, MimeTypeColumn)) ==> a.mimeType == Prop(row, MimeTypeColumn)
    ensures Truthy(Prop(row, UploadedAtColumn)) ==> a.uploadedAt == Prop(row, UploadedAtColumn)
  {
    NewAttachment(row)
  }

  /** Pushing the messages one check at a time, as `validate()` does, leaves `Collect` of the checks. */
  lemma PushesCollectChecks(a: Attachment)
    ensures Collect(a.Checks()) ==
      var e0 := Push([], IsBlank(a.fileName), FileNameRequired);
      var e1 := Push(e0, IsBlank(a.filePath), FilePathRequired);
      var e2 := Push(e1, !Truthy(a.defectId), DefectIdRequired);
      Push(e2, !Truthy(a.userId), UserIdRequired)
  {
    var checks := a.Checks();
    assert checks[..0] == [] && checks[..4] == checks;
    CollectThreeMore(checks, 0);
    CollectNext(checks, 3);
  }

  /** The rank that orders `validate()`'s messages: the position of their check. */
  function Rank(e: AttachmentError): nat
  {
    e.Position()
  }

  /**
   * Each message appears exactly when its field is missing: a blank name or
   * path, or a falsy reference. The messages come in the order file name,
   * file path, defect, user, each at most once.
   */
  lemma ErrorsExplained(a: Attachment)
    requires !a.Throws()
    ensures FileNameRequired in a.Errors() <==> IsBlank(a.fileName)
    ensures FilePathRequired in a.Errors() <==> IsBlank(a.filePath)
    ensures DefectIdRequired in a.Errors() <==> !Truthy(a.defectId)
    ensures UserIdRequired in a.Errors() <==> !Truthy(a.userId)
    ensures InOrder(a.Errors(), Rank)
  {
    assert Numbered(a.Checks(), Rank);
    ReportedIffFailed(a.Checks(), Rank, 0);
    ReportedIffFailed(a.Checks(), Rank, 1);
    ReportedIffFailed(a.Checks(), Rank, 2);
    ReportedIffFailed(a.Checks(), Rank, 3);
    CollectInOrder(a.Checks(), Rank);
  }

  /** `valid` is true exactly for a non-blank name and path on a truthy defect and user; size and type are not checked. */
  lemma ValidIff(a: Attachment)
    requires !a.Throws()
    ensures a.Errors() == [] <==>
      !IsBlank(a.fileName) && !IsBlank(a.filePath) && Truthy(a.defectId) && Truthy(a.userId)
  {
    PushesCollectChecks(a);
  }

  /** Where `toJSON()` puts each field: under its camelCase name. */
  lemma JsonProperties(a: Attachment)
    ensures var o := a.ToJSON();
      && Prop(o, Id) == a.id && Prop(o, DefectId) == a.defectId && Prop(o, UserId) == a.userId
      && Prop(o, FileName) == a.fileName && Prop(o, FilePath) == a.filePath
      && Prop(o, FileSize) == a.fileSize && Prop(o, MimeType) == a.mimeType && Prop(o, UploadedAt) == a.uploadedAt
  {
  }

  /** `toJSON()` has no snake_case property. */
  lemma JsonHasNoColumns(a: Attachment)
    ensures var o := a.ToJSON();
      && Prop(o, DefectIdColumn) == Undefined && Prop(o, UserIdColumn) == Undefined
      && Prop(o, FileNameColumn) == Undefined && Prop(o, FilePathColumn) == Undefined
      && Prop(o, FileSizeColumn) == Undefined && Prop(o, MimeTypeColumn) == Undefined
      && Prop(o, UploadedAtColumn) == Undefined
  {
  }

  /** `toJSON()` loses nothing: the constructor rebuilds the same attachment from it. */
  lemma JsonRoundTrip(a: Attachment)
    requires Normalized(a)
    ensures NewAttachment(a.ToJSON()) == a
  {
    JsonProperties(a);
    JsonHasNoColumns(a);
  }

  /** Where `toDatabase()` puts each field: under its snake_case column name. */
  lemma ColumnProperties(a: Attachment)
    ensures var o := a.ToDatabase();
      && Prop(o, DefectIdColumn) == a.defectId && Prop(o, UserIdColumn) == a.userId
      && Prop(o, FileNameColumn) == a.fileName && Prop(o, FilePathColumn) == a.filePath
      && Prop(o, FileSizeColumn) == a.fileSize && Prop(o, MimeTypeColumn) == a.mimeType
      && Prop(o, UploadedAtColumn) == Undefined && Prop(o, Id) == Undefined
  {
  }

  /** `toDatabase()` has no camelCase property. */
  lemma ColumnsOmitCamelCase(a: Attachment)
    ensures var o := a.ToDatabase();
      && Prop(o, DefectId) == Undefined && Prop(o, UserId) == Undefined
      && Prop(o, FileName) == Undefined && Prop(o, FilePath) == Undefined
      && Prop(o, FileSize) == Undefined && Prop(o, MimeType) == Undefined
      && Prop(o, UploadedAt) == Undefined
  {
  }

  /** `toDatabase()` keeps every field but the id and the upload time, which come back as null. */
  lemma DatabaseRoundTrip(a: Attachment)
    requires Normalized(a)
    ensures FromDatabase(a.ToDatabase()) ==
      Attachment(Null, a.defectId, a.userId, a.fileName, a.filePath, a.fileSize, a.mimeType, Null)
  {
    ColumnProperties(a);
    ColumnsOmitCamelCase(a);
  }

  /** Building an attachment from its own `toJSON()` changes nothing. */
  lemma ConstructorIdempotent(data: JsObject<AttachmentKey>)
    ensures NewAttachment(NewAttachment(data).ToJSON()) == NewAttachment(data)
  {
    ConstructorNormalizes(data);
    JsonRoundTrip(NewAttachment(data));
  }
}
