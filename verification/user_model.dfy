/**
 * The user record of the Node.js back end (src/models/User.js): construction
 * with `||` defaults (role `developer`), validation of username, e-mail
 * address and role into an ordered error list, and the two serialised shapes.
 */
module UserModel {
  import opened Base
  import opened JsValues
  import opened Validation
  import opened EmailPattern

  const Roles: seq<string> := ["admin", "manager", "developer", "tester", "viewer"]

  /** The longest username accepted. */
  const MaxUsernameLength := 100

  /** The messages `validate()` can push; `Text()` is the string pushed. */
  datatype UserError = UsernameRequired | UsernameTooLong | EmailRequired | EmailInvalid | RoleInvalid
  {
    function Text(): string
    {
      match this
      case UsernameRequired => "Username is required"
      case UsernameTooLong => "Username must be 100 characters or less"
      case EmailRequired => "Email is required"
      case EmailInvalid => "Email must be a valid email address"
      case RoleInvalid => "Role must be one of: admin, manager, developer, tester, viewer"
    }

    /** The position of the message's check among the checks `validate()` runs. */
    function Position(): nat
    {
      match this
      case UsernameRequired => 0
      case UsernameTooLong => 1
      case EmailRequired => 2
      case EmailInvalid => 3
      case RoleInvalid => 4
    }
  }

  /**
   * The property names the model reads or writes: `Name()` is the name in
   * the object; the `...Column` keys are the snake_case spellings of rows.
   */
  datatype UserKey =
    | Id | Username | Email | FullName | Role | CreatedAt | UpdatedAt
    | FullNameColumn | CreatedAtColumn | UpdatedAtColumn
  {
    function Name(): string
    {
      match this
      case Id => "id"
      case Username => "username"
      case Email => "email"
      case FullName => "fullName"
      case Role => "role"
      case CreatedAt => "createdAt"
      case UpdatedAt => "updatedAt"
      case FullNameColumn => "full_name"
      case CreatedAtColumn => "created_at"
      case UpdatedAtColumn => "updated_at"
    }
  }

  /** A user's fields, as the constructor leaves them on the object. */
  datatype User = User(
    id: JsValue, username: JsValue, email: JsValue, fullName: JsValue, role: JsValue,
    createdAt: JsValue, updatedAt: JsValue)
  {
    /** `validate()` throws before returning: the username or the address is truthy but not a string. */
    predicate Throws()
    {
      TrimThrows(username) || TrimThrows(email)
    }

    /**
     * `validate()`'s checks in the order it runs them. The pattern is only
     * tried on a truthy address, which is a string whenever `validate()`
     * gets that far.
     */
    function Checks(): seq<Check<UserError>>
    {
      [ Check(IsBlank(username), UsernameRequired),
        Check(LongerThan(username, MaxUsernameLength), UsernameTooLong),
        Check(IsBlank(email), EmailRequired),
        Check(Truthy(email) && !(email.Str? && MatchesEmail(email.s)), EmailInvalid),
        Check(Truthy(role) && !OneOf(role, Roles), RoleInvalid) ]
    }

    /** The error list `validate()` returns when it does not throw. */
    function Errors(): seq<UserError>
      requires !Throws()
    {
      Collect(Checks())
    }

    /**
     * `validate()`: the TypeError of `trim` on a non-string username or
     * address, or `{ valid, errors }` with `valid` true exactly when no check
     * failed.
     */
    method Validate() returns (r: Result<Outcome<UserError>, JsError>)
      ensures TrimThrows(username) ==> r == Err(TrimNotAFunction("username"))
      ensures !TrimThrows(username) && TrimThrows(email) ==> r == Err(TrimNotAFunction("email"))
      ensures !Throws() ==> r == Ok(Outcome(Errors() == [], Errors()))
    {
      var errors: seq<UserError> := [];
      if TrimThrows(username) {
        return Err(TrimNotAFunction("username"));
      }
      errors := Push(errors, IsBlank(username), UsernameRequired);
      errors := Push(errors, LongerThan(username, MaxUsernameLength), UsernameTooLong);
      if TrimThrows(email) {
        return Err(TrimNotAFunction("email"));
      }
      errors := Push(errors, IsBlank(email), EmailRequired);
      errors := Push(errors, Truthy(email) && !MatchesEmail(email.s), EmailInvalid);
      errors := Push(errors, Truthy(role) && !OneOf(role, Roles), RoleInvalid);
      PushesCollectChecks(this);
      return Ok(Outcome(|errors| == 0, errors));
    }

    /** `toDatabase()`: username, address, full name (as `full_name`) and role. */
    function ToDatabase(): (o: JsObject<UserKey>)
      ensures o.Keys == {Username, Email, FullNameColumn, Role}
    {
      map[Username := username, Email := email, FullNameColumn := fullName, Role := role]
    }

    /** `toJSON()`: all seven fields under their camelCase names. */
    function ToJSON(): (o: JsObject<UserKey>)
      ensures o.Keys == {Id, Username, Email, FullName, Role, CreatedAt, UpdatedAt}
    {
      map[Id := id, Username := username, Email := email, FullName := fullName, Role := role,
          CreatedAt := createdAt, UpdatedAt := updatedAt]
    }
  }

  /** What the constructor can leave in each field: the input when truthy, otherwise the default. */
  predicate Normalized(u: User)
  {
    && (Truthy(u.id) || u.id == Null)
    && (Truthy(u.username) || u.username == Str(""))
    && (Truthy(u.email) || u.email == Str(""))
    && (Truthy(u.fullName) || u.fullName == Str(""))
    && Truthy(u.role)
    && (Truthy(u.createdAt) || u.createdAt == Null)
    && (Truthy(u.updatedAt) || u.updatedAt == Null)
  }

  /**
   * `new User(data)`: each field is the input when truthy and its default
   * otherwise; for the full name and the timestamps the snake_case key is
   * tried first.
   */
  function NewUser(data: JsObject<UserKey>): (u: User)
    // a truthy property is kept as given, and a falsy one gives that field's default, whatever the others hold
    ensures Truthy(Prop(data, Id)) ==> u.id == Prop(data, Id)
    ensures !Truthy(Prop(data, Id)) ==> u.id == Null
    ensures Truthy(Prop(data, Username)) ==> u.username == Prop(data, Username)
    ensures !Truthy(Prop(data, Username)) ==> u.username == Str("")
    ensures Truthy(Prop(data, Email)) ==> u.email == Prop(data, Email)
    ensures !Truthy(Prop(data, Email)) ==> u.email == Str("")
    ensures Truthy(Prop(data, Role)) ==> u.role == Prop(data, Role)
    ensures !Truthy(Prop(data, Role)) ==> u.role == Str("developer")
    // a two-word field takes the truthy snake_case key over the camelCase one, and its default when both are falsy
    ensures Truthy(Prop(data, FullNameColumn)) ==> u.fullName == Prop(data, FullNameColumn)
    ensures !Truthy(Prop(data, FullNameColumn)) && Truthy(Prop(data, FullName)) ==> u.fullName == Prop(data, FullName)
    ensures !Truthy(Prop(data, FullNameColumn)) && !Truthy(Prop(data, FullName)) ==> u.fullName == Str("")
    ensures Truthy(Prop(data, CreatedAtColumn)) ==> u.createdAt == Prop(data, CreatedAtColumn)
    ensures !Truthy(Prop(data, CreatedAtColumn)) && Truthy(Prop(data, CreatedAt)) ==> u.createdAt == Prop(data, CreatedAt)
    ensures !Truthy(Prop(data, CreatedAtColumn)) && !Truthy(Prop(data, CreatedAt)) ==> u.createdAt == Null
    ensures Truthy(Prop(data, UpdatedAtColumn)) ==> u.updatedAt == Prop(data, UpdatedAtColumn)
    ensures !Truthy(Prop(data, UpdatedAtColumn)) && Truthy(Prop(data, UpdatedAt)) ==> u.updatedAt == Prop(data, UpdatedAt)
    ensures !Truthy(Prop(data, UpdatedAtColumn)) && !Truthy(Prop(data, UpdatedAt)) ==> u.updatedAt == Null
  {
    User(
      Or(Prop(data, Id), Null),
      Or(Prop(data, Username), Str("")),
      Or(Prop(data, Email), Str("")),
      Prefer(data, FullNameColumn, FullName, Str("")),
      Or(Prop(data, Role), Str("developer")),
      Prefer(data, CreatedAtColumn, CreatedAt, Null),
      Prefer(data, UpdatedAtColumn, UpdatedAt, Null))
  }

  /** Whatever the input, the constructor leaves each field truthy or at its default. */
  lemma ConstructorNormalizes(data: JsObject<UserKey>)
    ensures Normalized(NewUser(data))
  {
  }

  /** An object without a truthy property builds an anonymous developer with empty strings. */
  lemma FalsyInputGivesDefaults(data: JsObject<UserKey>)
    requires forall key :: key in data ==> !Truthy(data[key])
    ensures NewUser(data) == User(Null, Str(""), Str(""), Str(""), Str("developer"), Null, Null)
  {
  }

  /**
   * `User.fromDatabase(row)`: the constructor applied to a row. Every truthy
   * column of a row is read into its field, the snake_case ones whatever
   * camelCase keys the row also carries.
   */
  function FromDatabase(row: JsObject<UserKey>): (u: User)
    ensures Truthy(Prop(row, Id)) ==> u.id == Prop(row, Id)
    ensures Truthy(Prop(row, Username)) ==> u.username == Prop(row, Username)
    ensures Truthy(Prop(row, Email)) ==> u.email == Prop(row, Email)
    ensures Truthy(Prop(row, Role)) ==> u.role == Prop(row, Role)
    ensures Truthy(Prop(row, FullNameColumn)) ==> u.fullName == Prop(row, FullNameColumn)
    ensures Truthy(Prop(row, CreatedAtColumn)) ==> u.createdAt == Prop(row, CreatedAtColumn)
    ensures Truthy(Prop(row, UpdatedAtColumn)) ==> u.updatedAt == Prop(row, UpdatedAtColumn)
  {
    NewUser(row)
  }

  /** Pushing the messages one check at a time, as `validate()` does, leaves `Collect` of the checks. */
  lemma PushesCollectChecks(u: User)
    ensures Collect(u.Checks()) ==
      var e0 := Push([], IsBlank(u.username), UsernameRequired);
      var e1 := Push(e0, LongerThan(u.username, MaxUsernameLength), UsernameTooLong);
      var e2 := Push(e1, IsBlank(u.email), EmailRequired);
      var e3 := Push(e2, Truthy(u.email) && !(u.email.Str? && MatchesEmail(u.email.s)), EmailInvalid);
      Push(e3, Truthy(u.role) && !OneOf(u.role, Roles), RoleInvalid)
  {
    var c := u.Checks();
    assert c[..0] == [] && c[..5] == c;
    CollectThreeMore(c, 0);
    CollectNext(c, 3);
    CollectNext(c, 4);
  }

  /** The rank that orders `validate()`'s messages: the position of their check. */
  function Rank(e: UserError): nat
  {
    e.Position()
  }

  /** The messages appear in the order username, address, role, each at most once. */
  lemma ErrorsInCheckOrder(u: User)
    requires !u.Throws()
    ensures InOrder(u.Errors(), Rank)
  {
    assert Numbered(u.Checks(), Rank);
    CollectInOrder(u.Checks(), Rank);
  }

  /**
   * The username messages: required exactly when it is blank, too long
   * exactly when it is a string of over 100 characters.
   */
  lemma UsernameErrorsExplained(u: User)
    requires !u.Throws()
    ensures UsernameRequired in u.Errors() <==> IsBlank(u.username)
    ensures UsernameTooLong in u.Errors() <==> u.username.Str? && |u.username.s| > MaxUsernameLength
  {
    assert Numbered(u.Checks(), Rank);
    ReportedIffFailed(u.Checks(), Rank, 0);
    ReportedIffFailed(u.Checks(), Rank, 1);
  }

  /**
   * The address messages: required exactly when it is blank, invalid exactly
   * when it is a non-empty string the pattern rejects. The two overlap: a
   * non-empty address of white space only gets both.
   */
  lemma EmailErrorsExplained(u: User)
    requires !u.Throws()
    ensures EmailRequired in u.Errors() <==> IsBlank(u.email)
    ensures EmailInvalid in u.Errors() <==> u.email.Str? && u.email.s != [] && !MatchesEmail(u.email.s)
    ensures u.email.Str? && u.email.s != [] && AllWhitespace(u.email.s) ==>
      EmailRequired in u.Errors() && EmailInvalid in u.Errors()
  {
    assert Numbered(u.Checks(), Rank);
    ReportedIffFailed(u.Checks(), Rank, 2);
    ReportedIffFailed(u.Checks(), Rank, 3);
    if u.email.Str? && AllWhitespace(u.email.s) {
      BlankNeverMatches(u.email.s);
    }
  }

  /** The role message appears exactly when the role is truthy and not one of the five roles. */
  lemma RoleErrorExplained(u: User)
    requires !u.Throws()
    ensures RoleInvalid in u.Errors() <==> Truthy(u.role) && !(u.role.Str? && u.role.s in Roles)
  {
    assert Numbered(u.Checks(), Rank);
    ReportedIffFailed(u.Checks(), Rank, 4);
  }

  /** A user every check accepts, stated field by field. */
  predicate Acceptable(u: User)
  {
    && !IsBlank(u.username) && !LongerThan(u.username, MaxUsernameLength)
    && u.email.Str? && AddressShape(u.email.s)
    && (!Truthy(u.role) || (u.role.Str? && u.role.s in Roles))
  }

  /**
   * `valid` is true exactly for the users every check accepts; in
   * particular an accepted address has no white space and exactly one `@`.
   */
  lemma ValidIffAcceptable(u: User)
    requires !u.Throws()
    ensures u.Errors() == [] <==> Acceptable(u)
  {
    var c := u.Checks();
    PushesCollectChecks(u);
    if u.email.Str? {
      MatchesIffShape(u.email.s);
      if u.email.s != [] && AddressShape(u.email.s) {
        assert !IsWhitespace(u.email.s[0]);
      }
    }
    assert Acceptable(u) <==> !c[0].failed && !c[1].failed && !c[2].failed && !c[3].failed && !c[4].failed;
  }

  /** Where `toJSON()` puts each field: under its camelCase name, with no snake_case property. */
  lemma JsonProperties(u: User)
    ensures var o := u.ToJSON();
      && Prop(o, Id) == u.id && Prop(o, Username) == u.username && Prop(o, Email) == u.email
      && Prop(o, FullName) == u.fullName && Prop(o, Role) == u.role
      && Prop(o, CreatedAt) == u.createdAt && Prop(o, UpdatedAt) == u.updatedAt
      && Prop(o, FullNameColumn) == Undefined && Prop(o, CreatedAtColumn) == Undefined
      && Prop(o, UpdatedAtColumn) == Undefined
  {
  }

  /** `toJSON()` loses nothing: the constructor rebuilds the same user from it. */
  lemma JsonRoundTrip(u: User)
    requires Normalized(u)
    ensures NewUser(u.ToJSON()) == u
  {
    JsonProperties(u);
  }

  /** Where `toDatabase()` puts each field; there is no id and no timestamp. */
  lemma ColumnProperties(u: User)
    ensures var o := u.ToDatabase();
      && Prop(o, Username) == u.username && Prop(o, Email) == u.email
      && Prop(o, FullNameColumn) == u.fullName && Prop(o, Role) == u.role
      && Prop(o, Id) == Undefined && Prop(o, FullName) == Undefined
      && Prop(o, CreatedAtColumn) == Undefined && Prop(o, CreatedAt) == Undefined
      && Prop(o, UpdatedAtColumn) == Undefined && Prop(o, UpdatedAt) == Undefined
  {
  }

  /** `toDatabase()` keeps every field but the id and the timestamps, which come back as null. */
  lemma DatabaseRoundTrip(u: User)
    requires Normalized(u)
    ensures FromDatabase(u.ToDatabase()) == User(Null, u.username, u.email, u.fullName, u.role, Null, Null)
  {
    ColumnProperties(u);
  }

  /** Building a user from its own `toJSON()` changes nothing. */
  lemma ConstructorIdempotent(data: JsObject<UserKey>)
    ensures NewUser(NewUser(data).ToJSON()) == NewUser(data)
  {
    ConstructorNormalizes(data);
    JsonRoundTrip(NewUser(data));
  }
}
