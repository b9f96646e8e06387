/**
 * The persisted defect record of the Node.js back end (src/models/Defect.js):
 * construction from a request body or database row with `||` defaults,
 * validation into an ordered error list, and the two serialised shapes.
 * Its vocabulary (statuses Open .. Reopened, an integer priority 1 .. 5) is
 * its own and unrelated to the workflow engine's.
 */
module DefectModel {
  import opened Base
  import opened JsValues
  import opened Validation

  const Severities: seq<string> := ["Low", "Medium", "High", "Critical"]
  const Statuses: seq<string> := ["Open", "In Progress", "Fixed", "Closed", "Reopened"]
  const Types: seq<string> := ["Bug", "Enhancement", "Task", "Documentation"]
  const Environments: seq<string> := ["Development", "Staging", "Production"]
  const Resolutions: seq<string> := ["Fixed", "Duplicate", "Won't Fix", "Cannot Reproduce", "Works as Designed"]

  /** The longest title accepted. */
  const MaxTitleLength := 255

  /** The messages `validate()` can push; `Text()` is the string pushed. */
  datatype DefectError =
    | TitleRequired | TitleTooLong | DescriptionRequired | SeverityInvalid | StatusInvalid
    | PriorityInvalid | TypeInvalid | EnvironmentInvalid | ResolutionInvalid
  {
    function Text(): string
    {
      match this
      case TitleRequired => "Title is required"
      case TitleTooLong => "Title must be 255 characters or less"
      case DescriptionRequired => "Description is required"
      case SeverityInvalid => "Severity must be one of: Low, Medium, High, Critical"
      case StatusInvalid => "Status must be one of: Open, In Progress, Fixed, Closed, Reopened"
      case PriorityInvalid => "Priority must be between 1 and 5"
      case TypeInvalid => "Type must be one of: Bug, Enhancement, Task, Documentation"
      case EnvironmentInvalid => "Environment must be one of: Development, Staging, Production"
      case ResolutionInvalid => "Resolution must be one of: Fixed, Duplicate, Won't Fix, Cannot Reproduce, Works as Designed"
    }

    /** The position of the message's check among the checks `validate()` runs. */
    function Position(): nat
    {
      match this
      case TitleRequired => 0
      case TitleTooLong => 1
      case DescriptionRequired => 2
      case SeverityInvalid => 3
      case StatusInvalid => 4
      case PriorityInvalid => 5
      case TypeInvalid => 6
      case EnvironmentInvalid => 7
      case ResolutionInvalid => 8
    }
  }

  /**
   * The property names the model reads or writes: `Name()` is the name in
   * the object. The `...Column` keys are the snake_case spellings of
   * database rows; the others are the camelCase spellings of request bodies
   * and `toJSON()`.
   */
  datatype DefectKey =
    | Id | Title | Description | Severity | Status | Priority | Type
    | AssigneeId | ReporterId | Environment | AffectedVersion | Resolution | DueDate | CreatedAt | UpdatedAt
    | AssigneeIdColumn | ReporterIdColumn | AffectedVersionColumn | DueDateColumn | CreatedAtColumn | UpdatedAtColumn
  {
    function Name(): string
    {
      match this
      case Id => "id"
      case Title => "title"
      case Description => "description"
      case Severity => "severity"
      case Status => "status"
      case Priority => "priority"
      case Type => "type"
      case AssigneeId => "assigneeId"
      case ReporterId => "reporterId"
      case Environment => "environment"
      case AffectedVersion => "affectedVersion"
      case Resolution => "resolution"
      case DueDate => "dueDate"
      case CreatedAt => "createdAt"
      case UpdatedAt => "updatedAt"
      case AssigneeIdColumn => "assignee_id"
      case ReporterIdColumn => "reporter_id"
      case AffectedVersionColumn => "affected_version"
      case DueDateColumn => "due_date"
      case CreatedAtColumn => "created_at"
      case UpdatedAtColumn => "updated_at"
    }
  }

  /** The properties `toJSON()` emits. */
  const JsonKeys: set<DefectKey> := {Id, Title, Description, Severity, Status, Priority, Type,
    AssigneeId, ReporterId, Environment, AffectedVersion, Resolution, DueDate, CreatedAt, UpdatedAt}

  /** The columns `toDatabase()` emits: no id and no timestamps. */
  const ColumnKeys: set<DefectKey> := {Title, Description, Severity, Status, Priority, Type,
    AssigneeIdColumn, ReporterIdColumn, Environment, AffectedVersionColumn, Resolution, DueDateColumn}

  /** A defect's fields, as the constructor leaves them on the object (`type` is `defectType` here). */
  datatype Defect = Defect(
    id: JsValue, title: JsValue, description: JsValue, severity: JsValue, status: JsValue,
    priority: JsValue, defectType: JsValue, assigneeId: JsValue, reporterId: JsValue,
    environment: JsValue, affectedVersion: JsValue, resolution: JsValue, dueDate: JsValue,
    createdAt: JsValue, updatedAt: JsValue)
  {
    /** `validate()` throws before returning: the title or the description is truthy but not a string. */
    predicate Throws()
    {
      TrimThrows(title) || TrimThrows(description)
    }

    /** `validate()`'s checks in the order it runs them: the failure condition and the message of each. */
    function Checks(): seq<Check<DefectError>>
    {
      [ Check(IsBlank(title), TitleRequired),
        Check(LongerThan(title, MaxTitleLength), TitleTooLong),
        Check(IsBlank(description), DescriptionRequired),
        Check(!OneOf(severity, Severities), SeverityInvalid),
        Check(!OneOf(status, Statuses), StatusInvalid),
        Check(OutsideRange(priority, 1, 5), PriorityInvalid),
        Check(!OneOf(defectType, Types), TypeInvalid),
        Check(Truthy(environment) && !OneOf(environment, Environments), EnvironmentInvalid),
        Check(Truthy(resolution) && !OneOf(resolution, Resolutions), ResolutionInvalid) ]
    }

    /** The error list `validate()` returns when it does not throw. */
    function Errors(): seq<DefectError>
      requires !Throws()
    {
      Collect(Checks())
    }

    /**
     * `validate()`: the TypeError of `trim` on a non-string title or
     * description, or `{ valid, errors }` with `valid` true exactly when no
     * check failed.
     */
    method Validate() returns (r: Result<Outcome<DefectError>, JsError>)
      ensures TrimThrows(title) ==> r == Err(TrimNotAFunction("title"))
      ensures !TrimThrows(title) && TrimThrows(description) ==> r == Err(TrimNotAFunction("description"))
      ensures !Throws() ==> r == Ok(Outcome(Errors() == [], Errors()))
    {
      var errors: seq<DefectError> := [];
      if TrimThrows(title) {
        return Err(TrimNotAFunction("title"));
      }
      errors := Push(errors, IsBlank(title), TitleRequired);
      errors := Push(errors, LongerThan(title, MaxTitleLength), TitleTooLong);
      if TrimThrows(description) {
        return Err(TrimNotAFunction("description"));
      }
      errors := Push(errors, IsBlank(description), DescriptionRequired);
      errors := Push(errors, !OneOf(severity, Severities), SeverityInvalid);
      errors := Push(errors, !OneOf(status, Statuses), StatusInvalid);
      errors := Push(errors, OutsideRange(priority, 1, 5), PriorityInvalid);
      errors := Push(errors, !OneOf(defectType, Types), TypeInvalid);
      errors := Push(errors, Truthy(environment) && !OneOf(environment, Environments), EnvironmentInvalid);
      errors := Push(errors, Truthy(resolution) && !OneOf(resolution, Resolutions), ResolutionInvalid);
      PushesCollectChecks(this);
      return Ok(Outcome(|errors| == 0, errors));
    }

    /** `toDatabase()`: the twelve persisted fields under their column names. */
    function ToDatabase(): (o: JsObject<DefectKey>)
      ensures o.Keys == ColumnKeys
    {
      map[Title := title, Description := description, Severity := severity, Status := status,
          Priority := priority, Type := defectType, AssigneeIdColumn := assigneeId,
          ReporterIdColumn := reporterId, Environment := environment, AffectedVersionColumn := affectedVersion,
          Resolution := resolution, DueDateColumn := dueDate]
    }

    /** `toJSON()`: all fifteen fields under their camelCase names. */
    function ToJSON(): (o: JsObject<DefectKey>)
      ensures o.Keys == JsonKeys
    {
      map[Id := id, Title := title, Description := description, Severity := severity,
          Status := status, Priority := priority, Type := defectType, AssigneeId := assigneeId,
          ReporterId := reporterId, Environment := environment, AffectedVersion := affectedVersion,
          Resolution := resolution, DueDate := dueDate, CreatedAt := createdAt, UpdatedAt := updatedAt]
    }
  }

  /**
   * What the constructor can leave in each field: the input when truthy,
   * otherwise the default (null, the empty string, or a truthy literal).
   */
  predicate Normalized(d: Defect)
  {
    && (Truthy(d.id) || d.id == Null)
    && (Truthy(d.title) || d.title == Str(""))
    && (Truthy(d.description) || d.description == Str(""))
    && Truthy(d.severity) && Truthy(d.status) && Truthy(d.priority) && Truthy(d.defectType)
    && (Truthy(d.assigneeId) || d.assigneeId == Null)
    && (Truthy(d.reporterId) || d.reporterId == Null)
    && Truthy(d.environment)
    && (Truthy(d.affectedVersion) || d.affectedVersion == Null)
    && (Truthy(d.resolution) || d.resolution == Null)
    && (Truthy(d.dueDate) || d.dueDate == Null)
    && (Truthy(d.createdAt) || d.createdAt == Null)
    && (Truthy(d.updatedAt) || d.updatedAt == Null)
  }

  /** The defect `new Defect()` builds from an empty object. */
  const Blank: Defect := Defect(Null, Str(""), Str(""), Str("Medium"), Str("Open"), Num(3), Str("Bug"),
    Null, Null, Str("Production"), Null, Null, Null, Null, Null)

  /**
   * `new Defect(data)`: each field is the input when truthy and its default
   * otherwise; for the six two-word fields the snake_case key is tried first.
   */
  function NewDefect(data: JsObject<DefectKey>): (d: Defect)
    // a truthy property is kept as given
    ensures Truthy(Prop(data, Id)) ==> d.id == Prop(data, Id)
    ensures Truthy(Prop(data, Title)) ==> d.title == Prop(data, Title)
    ensures Truthy(Prop(data, Description)) ==> d.description == Prop(data, Description)
    ensures Truthy(Prop(data, Severity)) ==> d.severity == Prop(data, Severity)
    ensures Truthy(Prop(data, Status)) ==> d.status == Prop(data, Status)
    ensures Truthy(Prop(data, Priority)) ==> d.priority == Prop(data, Priority)
    ensures Truthy(Prop(data, Type)) ==> d.defectType == Prop(data, Type)
    ensures Truthy(Prop(data, Environment)) ==> d.environment == Prop(data, Environment)
    ensures Truthy(Prop(data, Resolution)) ==> d.resolution == Prop(data, Resolution)
    // a falsy property gives that field's default, whatever the others hold
    ensures !Truthy(Prop(data, Id)) ==> d.id == Null
    ensures !Truthy(Prop(data, Title)) ==> d.title == Str("")
    ensures !Truthy(Prop(data, Description)) ==> d.description == Str("")
    ensures !Truthy(Prop(data, Severity)) ==> d.severity == Str("Medium")
    ensures !Truthy(Prop(data, Status)) ==> d.status == Str("Open")
    ensures !Truthy(Prop(data, Priority)) ==> d.priority == Num(3)
    ensures !Truthy(Prop(data, Type)) ==> d.defectType == Str("Bug")
    ensures !Truthy(Prop(data, Environment)) ==> d.environment == Str("Production")
    ensures !Truthy(Prop(data, Resolution)) ==> d.resolution == Null
    // a two-word field takes the truthy snake_case key over the camelCase one, and null when both are falsy
    ensures Truthy(Prop(data, AssigneeIdColumn)) ==> d.assigneeId == Prop(data, AssigneeIdColumn)
    ensures !Truthy(Prop(data, AssigneeIdColumn)) && Truthy(Prop(data, AssigneeId)) ==> d.assigneeId == Prop(data, AssigneeId)
    ensures !Truthy(Prop(data, AssigneeIdColumn)) && !Truthy(Prop(data, AssigneeId)) ==> d.assigneeId == Null
    ensures Truthy(Prop(data, ReporterIdColumn)) ==> d.reporterId == Prop(data, ReporterIdColumn)
    ensures !Truthy(Prop(data, ReporterIdColumn)) && Truthy(Prop(data, ReporterId)) ==> d.reporterId == Prop(data, ReporterId)
    ensures !Truthy(Prop(data, ReporterIdColumn)) && !Truthy(Prop(data, ReporterId)) ==> d.reporterId == Null
    ensures Truthy(Prop(data, AffectedVersionColumn)) ==> d.affectedVersion == Prop(data, AffectedVersionColumn)
    ensures !Truthy(Prop(data, AffectedVersionColumn)) && Truthy(Prop(data, AffectedVersion)) ==> d.affectedVersion == Prop(data, AffectedVersion)
    ensures !Truthy(Prop(data, AffectedVersionColumn)) && !Truthy(Prop(data, AffectedVersion)) ==> d.affectedVersion == Null
    ensures Truthy(Prop(data, DueDateColumn)) ==> d.dueDate == Prop(data, DueDateColumn)
    ensures !Truthy(Prop(data, DueDateColumn)) && Truthy(Prop(data, DueDate)) ==> d.dueDate == Prop(data, DueDate)
    ensures !Truthy(Prop(data, DueDateColumn)) && !Truthy(Prop(data, DueDate)) ==> d.dueDate == Null
    ensures Truthy(Prop(data, CreatedAtColumn)) ==> d.createdAt == Prop(data, CreatedAtColumn)
    ensures !Truthy(Prop(data, CreatedAtColumn)) && Truthy(Prop(data, CreatedAt)) ==> d.createdAt == Prop(data, CreatedAt)
    ensures !Truthy(Prop(data, CreatedAtColumn)) && !Truthy(Prop(data, CreatedAt)) ==> d.createdAt == Null
    ensures Truthy(Prop(data, UpdatedAtColumn)) ==> d.updatedAt == Prop(data, UpdatedAtColumn)
    ensures !Truthy(Prop(data, UpdatedAtColumn)) && Truthy(Prop(data, UpdatedAt)) ==> d.updatedAt == Prop(data, UpdatedAt)
    ensures !Truthy(Prop(data, UpdatedAtColumn)) && !Truthy(Prop(data, UpdatedAt)) ==> d.updatedAt == Null
  {
    Defect(
      Or(Prop(data, Id), Null),
      Or(Prop(data, Title), Str("")),
      Or(Prop(data, Description), Str("")),
      Or(Prop(data, Severity), Str("Medium")),
      Or(Prop(data, Status), Str("Open")),
      Or(Prop(data, Priority), Num(3)),
      Or(Prop(data, Type), Str("Bug")),
      Prefer(data, AssigneeIdColumn, AssigneeId, Null),
      Prefer(data, ReporterIdColumn, ReporterId, Null),
      Or(Prop(data, Environment), Str("Production")),
      Prefer(data, AffectedVersionColumn, AffectedVersion, Null),
      Or(Prop(data, Resolution), Null),
      Prefer(data, DueDateColumn, DueDate, Null),
      Prefer(data, CreatedAtColumn, CreatedAt, Null),
      Prefer(data, UpdatedAtColumn, UpdatedAt, Null))
  }

  /** Whatever the input, the constructor leaves each field truthy or at its default. */
  lemma ConstructorNormalizes(data: JsObject<DefectKey>)
    ensures Normalized(NewDefect(data))
  {
  }

  /**
   * `Defect.fromDatabase(row)`: the constructor applied to a row. Every
   * truthy column of a row is read into its field, the snake_case ones
   * whatever camelCase keys the row also carries.
   */
  function FromDatabase(row: JsObject<DefectKey>): (d: Defect)
    ensures Truthy(Prop(row, Id)) ==> d.id == Prop(row, Id)
    ensures Truthy(Prop(row, Title)) ==> d.title == Prop(row, Title)
    ensures Truthy(Prop(row, Description)) ==> d.description == Prop(row, Description)
    ensures Truthy(Prop(row, Severity)) ==> d.severity == Prop(row, Severity)
    ensures Truthy(Prop(row, Status)) ==> d.status == Prop(row, Status)
    ensures Truthy(Prop(row, Priority)) ==> d.priority == Prop(row, Priority)
    ensures Truthy(Prop(row, Type)) ==> d.defectType == Prop(row, Type)
    ensures Truthy(Prop(row, Environment)) ==> d.environment == Prop(row, Environment)
    ensures Truthy(Prop(row, Resolution)) ==> d.resolution == Prop(row, Resolution)
    ensures Truthy(Prop(row, AssigneeIdColumn)) ==> d.assigneeId == Prop(row, AssigneeIdColumn)
    ensures Truthy(Prop(row, ReporterIdColumn)) ==> d.reporterId == Prop(row, ReporterIdColumn)
    ensures Truthy(Prop(row, AffectedVersionColumn)) ==> d.affectedVersion == Prop(row, AffectedVersionColumn)
    ensures Truthy(Prop(row, DueDateColumn)) ==> d.dueDate == Prop(row, DueDateColumn)
    ensures Truthy(Prop(row, CreatedAtColumn)) ==> d.createdAt == Prop(row, CreatedAtColumn)
    ensures Truthy(Prop(row, UpdatedAtColumn)) ==> d.updatedAt == Prop(row, UpdatedAtColumn)
  {
    NewDefect(row)
  }

  /** Pushing the messages one check at a time, as `validate()` does, leaves `Collect` of the checks. */
  lemma PushesCollectChecks(d: Defect)
    ensures Collect(d.Checks()) ==
      var e0 := Push([], IsBlank(d.title), TitleRequired);
      var e1 := Push(e0, LongerThan(d.title, MaxTitleLength), TitleTooLong);
      var e2 := Push(e1, IsBlank(d.description), DescriptionRequired);
      var e3 := Push(e2, !OneOf(d.severity, Severities), SeverityInvalid);
      var e4 := Push(e3, !OneOf(d.status, Statuses), StatusInvalid);
      var e5 := Push(e4, OutsideRange(d.priority, 1, 5), PriorityInvalid);
      var e6 := Push(e5, !OneOf(d.defectType, Types), TypeInvalid);
      var e7 := Push(e6, Truthy(d.environment) && !OneOf(d.environment, Environments), EnvironmentInvalid);
      Push(e7, Truthy(d.resolution) && !OneOf(d.resolution, Resolutions), ResolutionInvalid)
  {
    CollectNine(d.Checks());
  }

  /** The rank that orders `validate()`'s messages: the position of their check. */
  function Rank(e: DefectError): nat
  {
    e.Position()
  }

  /** Check `i` of `validate()` carries the message of rank `i`. */
  lemma ChecksNumbered(d: Defect)
    ensures Numbered(d.Checks(), Rank)
  {
  }

  /**
   * The messages `validate()` reports appear in the order title,
   * description, severity, status, priority, type, environment, resolution,
   * each at most once.
   */
  lemma ErrorsInCheckOrder(d: Defect)
    requires !d.Throws()
    ensures InOrder(d.Errors(), Rank)
  {
    ChecksNumbered(d);
    CollectInOrder(d.Checks(), Rank);
  }

  /**
   * The title messages appear exactly when their checks fail: a blank title
   * (falsy, or white space only, see `BlankIffTrimmedEmpty`) is required, and a
   * title string over 255 characters is too long. The two checks are
   * independent, so a title of 256 spaces gets both messages.
   */
  lemma TitleErrorsExplained(d: Defect)
    requires !d.Throws()
    ensures TitleRequired in d.Errors() <==> IsBlank(d.title)
    ensures TitleTooLong in d.Errors() <==> d.title.Str? && |d.title.s| > MaxTitleLength
  {
    ChecksNumbered(d);
    ReportedIffFailed(d.Checks(), Rank, 0);
    ReportedIffFailed(d.Checks(), Rank, 1);
  }

  /** The description message appears exactly when the description is blank. */
  lemma DescriptionErrorExplained(d: Defect)
    requires !d.Throws()
    ensures DescriptionRequired in d.Errors() <==> IsBlank(d.description)
  {
    ChecksNumbered(d);
    ReportedIffFailed(d.Checks(), Rank, 2);
  }

  /** The severity, status and type messages appear exactly when the value is not one of the listed strings. */
  lemma ChoiceErrorsExplained(d: Defect)
    requires !d.Throws()
    ensures SeverityInvalid in d.Errors() <==> !(d.severity.Str? && d.severity.s in Severities)
    ensures StatusInvalid in d.Errors() <==> !(d.status.Str? && d.status.s in Statuses)
    ensures TypeInvalid in d.Errors() <==> !(d.defectType.Str? && d.defectType.s in Types)
  {
    ChecksNumbered(d);
    ReportedIffFailed(d.Checks(), Rank, 3);
    ReportedIffFailed(d.Checks(), Rank, 4);
    ReportedIffFailed(d.Checks(), Rank, 6);
  }

  /**
   * The priority message appears exactly when the priority converts to a
   * number outside 1 .. 5; one that converts to NaN passes.
   */
  lemma PriorityErrorExplained(d: Defect)
    requires !d.Throws()
    ensures PriorityInvalid in d.Errors() <==>
      ToNumber(d.priority).Some? && (ToNumber(d.priority).value < 1 || ToNumber(d.priority).value > 5)
  {
    ChecksNumbered(d);
    ReportedIffFailed(d.Checks(), Rank, 5);
  }

  /** Environment and resolution are only checked when truthy. */
  lemma OptionalErrorsExplained(d: Defect)
    requires !d.Throws()
    ensures EnvironmentInvalid in d.Errors() <==>
      Truthy(d.environment) && !(d.environment.Str? && d.environment.s in Environments)
    ensures ResolutionInvalid in d.Errors() <==>
      Truthy(d.resolution) && !(d.resolution.Str? && d.resolution.s in Resolutions)
  {
    ChecksNumbered(d);
    ReportedIffFailed(d.Checks(), Rank, 7);
    ReportedIffFailed(d.Checks(), Rank, 8);
  }

  /** A defect every check accepts, stated field by field. */
  predicate Acceptable(d: Defect)
  {
    && !IsBlank(d.title) && !LongerThan(d.title, MaxTitleLength) && !IsBlank(d.description)
    && d.severity.Str? && d.severity.s in Severities
    && d.status.Str? && d.status.s in Statuses
    && (ToNumber(d.priority).None? || 1 <= ToNumber(d.priority).value <= 5)
    && d.defectType.Str? && d.defectType.s in Types
    && (!Truthy(d.environment) || (d.environment.Str? && d.environment.s in Environments))
    && (!Truthy(d.resolution) || (d.resolution.Str? && d.resolution.s in Resolutions))
  }

  /** `valid` is true exactly for the defects every check accepts. */
  lemma ValidIffAcceptable(d: Defect)
    requires !d.Throws()
    ensures d.Errors() == [] <==> Acceptable(d)
  {
    var c := d.Checks();
    CollectNine(c);
    assert Acceptable(d) <==>
      !c[0].failed && !c[1].failed && !c[2].failed && !c[3].failed && !c[4].failed &&
      !c[5].failed && !c[6].failed && !c[7].failed && !c[8].failed;
  }

  /** An object without a truthy property builds the default defect; `new Defect()` is the empty case. */
  lemma FalsyInputGivesDefaults(data: JsObject<DefectKey>)
    requires forall key :: key in data ==> !Truthy(data[key])
    ensures NewDefect(data) == Blank
  {
  }

  /** Where `toJSON()` puts each field: under its camelCase name. */
  lemma JsonProperties(d: Defect)
    ensures var o := d.ToJSON();
      && Prop(o, Id) == d.id && Prop(o, Title) == d.title && Prop(o, Description) == d.description
      && Prop(o, Severity) == d.severity && Prop(o, Status) == d.status && Prop(o, Priority) == d.priority
      && Prop(o, Type) == d.defectType && Prop(o, Environment) == d.environment && Prop(o, Resolution) == d.resolution
      && Prop(o, AssigneeId) == d.assigneeId && Prop(o, ReporterId) == d.reporterId
      && Prop(o, AffectedVersion) == d.affectedVersion && Prop(o, DueDate) == d.dueDate
      && Prop(o, CreatedAt) == d.createdAt && Prop(o, UpdatedAt) == d.updatedAt
  {
  }

  /** `toJSON()` has no snake_case reference property. */
  lemma JsonHasNoReferenceColumns(d: Defect)
    ensures var o := d.ToJSON();
      && Prop(o, AssigneeIdColumn) == Undefined && Prop(o, ReporterIdColumn) == Undefined
      && Prop(o, AffectedVersionColumn) == Undefined
  {
  }

  /** `toJSON()` has no snake_case date property. */
  lemma JsonHasNoDateColumns(d: Defect)
    ensures var o := d.ToJSON();
      && Prop(o, DueDateColumn) == Undefined && Prop(o, CreatedAtColumn) == Undefined
      && Prop(o, UpdatedAtColumn) == Undefined
  {
  }

  /** `toJSON()` loses nothing: the constructor rebuilds the same defect from it. */
  lemma JsonRoundTrip(d: Defect)
    requires Normalized(d)
    ensures NewDefect(d.ToJSON()) == d
  {
    JsonProperties(d);
    JsonHasNoReferenceColumns(d);
    JsonHasNoDateColumns(d);
  }

  /**
   * Where `toDatabase()` puts each field: under its column name, the two-word
   * ones in snake_case.
   */
  lemma ColumnProperties(d: Defect)
    ensures var o := d.ToDatabase();
      && Prop(o, Title) == d.title && Prop(o, Description) == d.description
      && Prop(o, Severity) == d.severity && Prop(o, Status) == d.status && Prop(o, Priority) == d.priority
      && Prop(o, Type) == d.defectType && Prop(o, Environment) == d.environment && Prop(o, Resolution) == d.resolution
      && Prop(o, AssigneeIdColumn) == d.assigneeId && Prop(o, ReporterIdColumn) == d.reporterId
      && Prop(o, AffectedVersionColumn) == d.affectedVersion && Prop(o, DueDateColumn) == d.dueDate
  {
  }

  /** `toDatabase()` has no id and no timestamp. */
  lemma ColumnsOmitTimestamps(d: Defect)
    ensures var o := d.ToDatabase();
      && Prop(o, Id) == Undefined
      && Prop(o, CreatedAtColumn) == Undefined && Prop(o, CreatedAt) == Undefined
      && Prop(o, UpdatedAtColumn) == Undefined && Prop(o, UpdatedAt) == Undefined
  {
  }

  /** `toDatabase()` has no camelCase two-word property. */
  lemma ColumnsOmitCamelCase(d: Defect)
    ensures var o := d.ToDatabase();
      && Prop(o, AssigneeId) == Undefined && Prop(o, ReporterId) == Undefined
      && Prop(o, AffectedVersion) == Undefined && Prop(o, DueDate) == Undefined
  {
  }

  /**
   * `toDatabase()` keeps every field but the id and the timestamps, which
   * come back from `fromDatabase` as null.
   */
  lemma DatabaseRoundTrip(d: Defect)
    requires Normalized(d)
    ensures FromDatabase(d.ToDatabase()) == Defect(Null, d.title, d.description, d.severity, d.status,
      d.priority, d.defectType, d.assigneeId, d.reporterId, d.environment, d.affectedVersion,
      d.resolution, d.dueDate, Null, Null)
  {
    ColumnProperties(d);
    ColumnsOmitTimestamps(d);
    ColumnsOmitCamelCase(d);
  }

  /** Building a defect from its own `toJSON()` changes nothing. */
  lemma ConstructorIdempotent(data: JsObject<DefectKey>)
    ensures NewDefect(NewDefect(data).ToJSON()) == NewDefect(data)
  {
    JsonRoundTrip(NewDefect(data));
  }
}
