/**
 * The comment record of the Node.js back end (src/models/Comment.js):
 * construction with `||` defaults, validation of the content and the two
 * references into an ordered error list, and the two serialised shapes.
 */
module CommentModel {
  import opened Base
  import opened JsValues
  import opened Validation

  /** The messages `validate()` can push; `Text()` is the string pushed. */
  datatype CommentError = ContentRequired | DefectIdRequired | UserIdRequired
  {
    function Text(): string
    {
      match this
      case ContentRequired => "Content is required"
      case DefectIdRequired => "Defect ID is required"
      case UserIdRequired => "User ID is required"
    }

    /** The position of the message's check among the checks `validate()` runs. */
    function Position(): nat
    {
      match this
      case ContentRequired => 0
      case DefectIdRequired => 1
      case UserIdRequired => 2
    }
  }

  /**
   * The property names the model reads or writes: `Name()` is the name in
   * the object; the `...Column` keys are the snake_case spellings of rows.
   */
  datatype CommentKey =
    | Id | DefectId | UserId | Content | CreatedAt | UpdatedAt
    | DefectIdColumn | UserIdColumn | CreatedAtColumn | UpdatedAtColumn
  {
    function Name(): string
    {
      match this
      case Id => "id"
      case DefectId => "defectId"
      case UserId => "userId"
      case Content => "content"
      case CreatedAt => "createdAt"
      case UpdatedAt => "updatedAt"
      case DefectIdColumn => "defect_id"
      case UserIdColumn => "user_id"
      case CreatedAtColumn => "created_at"
      case UpdatedAtColumn => "updated_at"
    }
  }

  /** A comment's fields, as the constructor leaves them on the object. */
  datatype Comment = Comment(
    id: JsValue, defectId: JsValue, userId: JsValue, content: JsValue, createdAt: JsValue, updatedAt: JsValue)
  {
    /** `validate()` throws before returning: the content is truthy but not a string. */
    predicate Throws()
    {
      TrimThrows(content)
    }

    /** `validate()`'s checks in the order it runs them. */
    function Checks(): seq<Check<CommentError>>
    {
      [ Check(IsBlank(content), ContentRequired),
        Check(!Truthy(defectId), DefectIdRequired),
        Check(!Truthy(userId), UserIdRequired) ]
    }

    /** The error list `validate()` returns when it does not throw. */
    function Errors(): seq<CommentError>
      requires !Throws()
    {
      Collect(Checks())
    }

    /**
     * `validate()`: the TypeError of `trim` on non-string content, or
     * `{ valid, errors }` with `valid` true exactly when no check failed.
     */
    method Validate() returns (r: Result<Outcome<CommentError>, JsError>)
      ensures Throws() ==> r == Err(TrimNotAFunction("content"))
      ensures !Throws() ==> r == Ok(Outcome(Errors() == [], Errors()))
    {
      var errors: seq<CommentError> := [];
      if TrimThrows(content) {
        return Err(TrimNotAFunction("content"));
      }
      errors := Push(errors, IsBlank(content), ContentRequired);
      errors := Push(errors, !Truthy(defectId), DefectIdRequired);
      errors := Push(errors, !Truthy(userId), UserIdRequired);
      PushesCollectChecks(this);
      return Ok(Outcome(|errors| == 0, errors));
    }

    /** `toDatabase()`: the two references under their column names, and the content. */
    function ToDatabase(): (o: JsObject<CommentKey>)
      ensures o.Keys == {DefectIdColumn, UserIdColumn, Content}
    {
      map[DefectIdColumn := defectId, UserIdColumn := userId, Content := content]
    }

    /** `toJSON()`: all six fields under their camelCase names. */
    function ToJSON(): (o: JsObject<CommentKey>)
      ensures o.Keys == {Id, DefectId, UserId, Content, CreatedAt, UpdatedAt}
    {
      map[Id := id, DefectId := defectId, UserId := userId, Content := content,
          CreatedAt := createdAt, UpdatedAt := updatedAt]
    }
  }

  /** What the constructor can leave in each field: the input when truthy, otherwise the default. */
  predicate Normalized(c: Comment)
  {
    && (Truthy(c.id) || c.id == Null)
    && (Truthy(c.defectId) || c.defectId == Null)
    && (Truthy(c.userId) || c.userId == Null)
    && (Truthy(c.content) || c.content == Str(""))
    && (Truthy(c.createdAt) || c.createdAt == Null)
    && (Truthy(c.updatedAt) || c.updatedAt == Null)
  }

  /**
   * `new Comment(data)`: each field is the input when truthy and its default
   * otherwise; for the references and the timestamps the snake_case key is
   * tried first.
   */
  function NewComment(data: JsObject<CommentKey>): (c: Comment)
    // a truthy property is kept as given, and a falsy one gives that field's default, whatever the others hold
    ensures Truthy(Prop(data, Id)) ==> c.id == Prop(data, Id)
    ensures !Truthy(Prop(data, Id)) ==> c.id == Null
    ensures Truthy(Prop(data, Content)) ==> c.content == Prop(data, Content)
    ensures !Truthy(Prop(data, Content)) ==> c.content == Str("")
    // a two-word field takes the truthy snake_case key over the camelCase one, and its default when both are falsy
    ensures Truthy(Prop(data, DefectIdColumn)) ==> c.defectId == Prop(data, DefectIdColumn)
    ensures !Truthy(Prop(data, DefectIdColumn)) && Truthy(Prop(data, DefectId)) ==> c.defectId == Prop(data, DefectId)
    ensures !Truthy(Prop(data, DefectIdColumn)) && !Truthy(Prop(data, DefectId)) ==> c.defectId == Null
    ensures Truthy(Prop(data, UserIdColumn)) ==> c.userId == Prop(data, UserIdColumn)
    ensures !Truthy(Prop(data, UserIdColumn)) && Truthy(Prop(data, UserId)) ==> c.userId == Prop(data, UserId)
    ensures !Truthy(Prop(data, UserIdColumn)) && !Truthy(Prop(data, UserId)) ==> c.userId == Null
    ensures Truthy(Prop(data, CreatedAtColumn)) ==> c.createdAt == Prop(data, CreatedAtColumn)
    ensures !Truthy(Prop(data, CreatedAtColumn)) && Truthy(Prop(data, CreatedAt)) ==> c.createdAt == Prop(data, CreatedAt)
    ensures !Truthy(Prop(data, CreatedAtColumn)) && !Truthy(Prop(data, CreatedAt)) ==> c.createdAt == Null
    ensures Truthy(Prop(data, UpdatedAtColumn)) ==> c.updatedAt == Prop(data, UpdatedAtColumn)
    ensures !Truthy(Prop(data, UpdatedAtColumn)) && Truthy(Prop(data, UpdatedAt)) ==> c.updatedAt == Prop(data, UpdatedAt)
    ensures !Truthy(Prop(data, UpdatedAtColumn)) && !Truthy(Prop(data, UpdatedAt)) ==> c.updatedAt == Null
  {
    Comment(
      Or(Prop(data, Id), Null),
      Prefer(data, DefectIdColumn, DefectId, Null),
      Prefer(data, UserIdColumn, UserId, Null),
      Or(Prop(data, Content), Str("")),
      Prefer(data, CreatedAtColumn, CreatedAt, Null),
      Prefer(data, UpdatedAtColumn, UpdatedAt, Null))
  }

  /** Whatever the input, the constructor leaves each field truthy or at its default. */
  lemma ConstructorNormalizes(data: JsObject<CommentKey>)
    ensures Normalized(NewComment(data))
  {
  }

  /** An object without a truthy property builds a comment with no references and empty content. */
  lemma FalsyInputGivesDefaults(data: JsObject<CommentKey>)
    requires forall key :: key in data ==> !Truthy(data[key])
    ensures NewComment(data) == Comment(Null, Null, Null, Str(""), Null, Null)
  {
  }

  /**
   * `Comment.fromDatabase(row)`: the constructor applied to a row. Every truthy
   * column of a row is read into its field, the snake_case ones whatever
   * camelCase keys the row also carries.
   */
  function FromDatabase(row: JsObject<CommentKey>): (c: Comment)
    ensures Truthy(Prop(row, Id)) ==> c.id == Prop(row, Id)
    ensures Truthy(Prop(row, Content)) ==> c.content == Prop(row, Content)
    ensures Truthy(Prop(row, DefectIdColumn)) ==> c.defectId == Prop(row, DefectIdColumn)
    ensures Truthy(Prop(row, UserIdColumn)) ==> c.userId == Prop(row, UserIdColumn)
    ensures Truthy(Prop(row, CreatedAtColumn)) ==> c.createdAt == Prop(row, CreatedAtColumn)
    ensures Truthy(Prop(row, UpdatedAtColumn)) ==> c.updatedAt == Prop(row, UpdatedAtColumn)
  {
    NewComment(row)
  }

  /** Pushing the messages one check at a time, as `validate()` does, leaves `Collect` of the checks. */
  lemma PushesCollectChecks(c: Comment)
    ensures Collect(c.Checks()) ==
      Push(Push(Push([], IsBlank(c.content), ContentRequired), !Truthy(c.defectId), DefectIdRequired),
        !Truthy(c.userId), UserIdRequired)
  {
    var checks := c.Checks();
    assert checks[..0] == [] && checks[..3] == checks;
    CollectThreeMore(checks, 0);
  }

  /** The rank that orders `validate()`'s messages: the position of their check. */
  function Rank(e: CommentError): nat
  {
    e.Position()
  }

  /**
   * Each message appears exactly when its field is missing: blank content,
   * or a falsy reference (so a reference of 0 is missing too). The messages
   * come in the order content, defect, user, each at most once.
   */
  lemma ErrorsExplained(c: Comment)
    requires !c.Throws()
    ensures ContentRequired in c.Errors() <==> IsBlank(c.content)
    ensures DefectIdRequired in c.Errors() <==> !Truthy(c.defectId)
    ensures UserIdRequired in c.Errors() <==> !Truthy(c.userId)
    ensures InOrder(c.Errors(), Rank)
  {
    assert Numbered(c.Checks(), Rank);
    ReportedIffFailed(c.Checks(), Rank, 0);
    ReportedIffFailed(c.Checks(), Rank, 1);
    ReportedIffFailed(c.Checks(), Rank, 2);
    CollectInOrder(c.Checks(), Rank);
  }

  /** `valid` is true exactly for non-blank content on a truthy defect and user. */
  lemma ValidIff(c: Comment)
    requires !c.Throws()
    ensures c.Errors() == [] <==> !IsBlank(c.content) && Truthy(c.defectId) && Truthy(c.userId)
  {
    PushesCollectChecks(c);
  }

  /** Where `toJSON()` puts each field: under its camelCase name, with no snake_case property. */
  lemma JsonProperties(c: Comment)
    ensures var o := c.ToJSON();
      && Prop(o, Id) == c.id && Prop(o, DefectId) == c.defectId && Prop(o, UserId) == c.userId
      && Prop(o, Content) == c.content && Prop(o, CreatedAt) == c.createdAt && Prop(o, UpdatedAt) == c.updatedAt
      && Prop(o, DefectIdColumn) == Undefined && Prop(o, UserIdColumn) == Undefined
      && Prop(o, CreatedAtColumn) == Undefined && Prop(o, UpdatedAtColumn) == Undefined
  {
  }

  /** `toJSON()` loses nothing: the constructor rebuilds the same comment from it. */
  lemma JsonRoundTrip(c: Comment)
    requires Normalized(c)
    ensures NewComment(c.ToJSON()) == c
  {
    JsonProperties(c);
  }

  /** Where `toDatabase()` puts each field; there is no id and no timestamp. */
  lemma ColumnProperties(c: Comment)
    ensures var o := c.ToDatabase();
      && Prop(o, DefectIdColumn) == c.defectId && Prop(o, UserIdColumn) == c.userId && Prop(o, Content) == c.content
      && Prop(o, Id) == Undefined && Prop(o, DefectId) == Undefined && Prop(o, UserId) == Undefined
      && Prop(o, CreatedAtColumn) == Undefined && Prop(o, CreatedAt) == Undefined
      && Prop(o, UpdatedAtColumn) == Undefined && Prop(o, UpdatedAt) == Undefined
  {
  }

  /** `toDatabase()` keeps the references and the content; id and timestamps come back as null. */
  lemma DatabaseRoundTrip(c: Comment)
    requires Normalized(c)
    ensures FromDatabase(c.ToDatabase()) == Comment(Null, c.defectId, c.userId, c.content, Null, Null)
  {
    ColumnProperties(c);
  }

  /** Building a comment from its own `toJSON()` changes nothing. */
  lemma ConstructorIdempotent(data: JsObject<CommentKey>)
    ensures NewComment(NewComment(data).ToJSON()) == NewComment(data)
  {
    ConstructorNormalizes(data);
    JsonRoundTrip(NewComment(data));
  }
}
