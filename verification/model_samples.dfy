/**
 * The defects of the model test script (test-models.js), as the
 * constructor builds them, and what `validate()` and `fromDatabase` make of
 * them.
 */
module DefectSamples {
  import opened JsValues
  import opened Validation
  import opened DefectModel

  /** The valid defect of the test script: title, description, severity High, status Open, priority 2, type Bug. */
  const ValidDefectInput: JsObject<DefectKey> := map[Title := Str("Test Bug"), Description := Str("This is a test defect"),
    Severity := Str("High"), Status := Str("Open"), Priority := Num(2), Type := Str("Bug")]

  /** The invalid defect of the test script: empty title and description, severity "Invalid", priority 10. */
  const InvalidDefectInput: JsObject<DefectKey> := map[Title := Str(""), Description := Str(""),
    Severity := Str("Invalid"), Priority := Num(10)]

  /** The database row of the test script. */
  const DefectRow: JsObject<DefectKey> := map[Id := Num(1), Title := Str("DB Test"), Description := Str("Test from DB"),
    Severity := Str("Medium"), Status := Str("Open"), Priority := Num(3), Type := Str("Bug")]

  /** The constructor fills the missing fields of the valid defect with their defaults. */
  lemma ValidDefectBuilt()
    ensures NewDefect(ValidDefectInput) == Defect(Null, Str("Test Bug"), Str("This is a test defect"), Str("High"),
      Str("Open"), Num(2), Str("Bug"), Null, Null, Str("Production"), Null, Null, Null, Null, Null)
  {
  }

  /** The valid defect passes every check. */
  lemma ValidDefectPasses()
    ensures var d := NewDefect(ValidDefectInput);
      !d.Throws() && d.Errors() == []
  {
    ValidDefectBuilt();
    NoErrors(NewDefect(ValidDefectInput));
  }

  lemma NoErrors(d: Defect)
    requires d == Defect(Null, Str("Test Bug"), Str("This is a test defect"), Str("High"),
      Str("Open"), Num(2), Str("Bug"), Null, Null, Str("Production"), Null, Null, Null, Null, Null)
    ensures !d.Throws() && d.Errors() == []
  {
    assert !IsWhitespace(d.title.s[0]) && !IsWhitespace(d.description.s[0]);
    ValidIffAcceptable(d);
  }

  /** The constructor keeps the invalid values and defaults status, type and environment. */
  lemma InvalidDefectBuilt()
    ensures NewDefect(InvalidDefectInput) == Defect(Null, Str(""), Str(""), Str("Invalid"), Str("Open"), Num(10),
      Str("Bug"), Null, Null, Str("Production"), Null, Null, Null, Null, Null)
  {
  }

  /** The invalid defect gets exactly four messages, in check order. */
  lemma InvalidDefectFails()
    ensures var d := NewDefect(InvalidDefectInput);
      !d.Throws() && d.Errors() == [TitleRequired, DescriptionRequired, SeverityInvalid, PriorityInvalid]
  {
    InvalidDefectBuilt();
    FourErrors(NewDefect(InvalidDefectInput));
  }

  lemma FourErrors(d: Defect)
    requires d == Defect(Null, Str(""), Str(""), Str("Invalid"), Str("Open"), Num(10),
      Str("Bug"), Null, Null, Str("Production"), Null, Null, Null, Null, Null)
    ensures !d.Throws() && d.Errors() == [TitleRequired, DescriptionRequired, SeverityInvalid, PriorityInvalid]
  {
    assert IsBlank(d.title) && !LongerThan(d.title, MaxTitleLength) && IsBlank(d.description);
    assert !OneOf(d.severity, Severities) && OneOf(d.status, Statuses) && OutsideRange(d.priority, 1, 5);
    assert OneOf(d.defectType, Types) && OneOf(d.environment, Environments) && !Truthy(d.resolution);
    PushesCollectChecks(d);
  }

  /** `fromDatabase` keeps the row's id and title. */
  lemma DefectRowRead()
    ensures FromDatabase(DefectRow).id == Num(1) && FromDatabase(DefectRow).title == Str("DB Test")
  {
    assert Prop(DefectRow, Id) == Num(1) && Prop(DefectRow, Title) == Str("DB Test");
  }
}

/** The users of the model test script, as the constructor builds them, and what `validate()` makes of them. */
module UserSamples {
  import opened JsValues
  import opened EmailPattern
  import opened UserModel

  /** The valid user of the test script. */
  const ValidUserInput: JsObject<UserKey> := map[Username := Str("testuser"), Email := Str("test@example.com"),
    FullName := Str("Test User"), Role := Str("developer")]

  /** The invalid user of the test script: empty username, an address without `@`, an unknown role. */
  const InvalidUserInput: JsObject<UserKey> := map[Username := Str(""), Email := Str("invalid-email"),
    Role := Str("invalid-role")]

  /** The constructor keeps the four given fields. */
  lemma ValidUserBuilt()
    ensures NewUser(ValidUserInput) ==
      User(Null, Str("testuser"), Str("test@example.com"), Str("Test User"), Str("developer"), Null, Null)
  {
  }

  /** The sample address matches the pattern, split at its `@` and its last dot. */
  lemma SampleAddressMatches()
    ensures MatchesEmail("test@example.com")
  {
    var s := "test@example.com";
    ShapeMatches(s, 4, 12);
  }

  /** An address without `@` does not match. */
  lemma AddressWithoutAtFails()
    ensures !MatchesEmail("invalid-email")
  {
    var s := "invalid-email";
    MatchesIffShape(s);
    assert forall k :: 0 <= k < |s| ==> s[k] != '@';
  }

  /** The valid user passes every check. */
  lemma ValidUserPasses()
    ensures var u := NewUser(ValidUserInput);
      !u.Throws() && u.Errors() == []
  {
    ValidUserBuilt();
    NoErrors(NewUser(ValidUserInput));
  }

  lemma NoErrors(u: User)
    requires u == User(Null, Str("testuser"), Str("test@example.com"), Str("Test User"), Str("developer"), Null, Null)
    ensures !u.Throws() && u.Errors() == []
  {
    UsernamePasses(u.username);
    EmailPresent(u.email);
    SampleAddressMatches();
    assert OneOf(u.role, Roles);
    PushesCollectChecks(u);
  }

  lemma UsernamePasses(username: JsValue)
    requires username == Str("testuser")
    ensures !IsBlank(username) && !LongerThan(username, MaxUsernameLength)
  {
    assert !IsWhitespace(username.s[0]);
  }

  lemma EmailPresent(email: JsValue)
    requires email == Str("test@example.com")
    ensures !IsBlank(email)
  {
    assert !IsWhitespace(email.s[0]);
  }

  /** The invalid user gets the username, address and role messages, in that order. */
  lemma InvalidUserFails()
    ensures var u := NewUser(InvalidUserInput);
      !u.Throws() && u.Errors() == [UsernameRequired, EmailInvalid, RoleInvalid]
  {
    InvalidUserBuilt();
    ThreeErrors(NewUser(InvalidUserInput));
  }

  /** The constructor keeps the three given fields and leaves the full name empty. */
  lemma InvalidUserBuilt()
    ensures NewUser(InvalidUserInput) ==
      User(Null, Str(""), Str("invalid-email"), Str(""), Str("invalid-role"), Null, Null)
  {
  }

  lemma ThreeErrors(u: User)
    requires u == User(Null, Str(""), Str("invalid-email"), Str(""), Str("invalid-role"), Null, Null)
    ensures !u.Throws() && u.Errors() == [UsernameRequired, EmailInvalid, RoleInvalid]
  {
    AddressWithoutAtFails();
    assert !IsBlank(u.email) by {
      assert !IsWhitespace(u.email.s[0]);
    }
    assert !OneOf(u.role, Roles);
    PushesCollectChecks(u);
  }
}

/** The comment of the model test script and what `validate()` makes of it. */
module CommentSamples {
  import opened JsValues
  import opened CommentModel

  /** The valid comment of the test script: defect 1, user 1, some content. */
  const ValidCommentInput: JsObject<CommentKey> := map[DefectId := Num(1), UserId := Num(1),
    Content := Str("This is a test comment")]

  /** The valid comment is built as given and passes every check. */
  lemma ValidCommentPasses()
    ensures var c := NewComment(ValidCommentInput);
      c == Comment(Null, Num(1), Num(1), Str("This is a test comment"), Null, Null)
      && !c.Throws() && c.Errors() == []
  {
    var c := NewComment(ValidCommentInput);
    assert c == Comment(Null, Num(1), Num(1), Str("This is a test comment"), Null, Null);
    assert !IsWhitespace(c.content.s[0]);
    ValidIff(c);
  }
}

/** The attachment of the model test script and what `validate()` makes of it. */
module AttachmentSamples {
  import opened JsValues
  import opened AttachmentModel

  /** The valid attachment of the test script: a PNG screenshot on defect 1 by user 1. */
  const ValidAttachmentInput: JsObject<AttachmentKey> := map[DefectId := Num(1), UserId := Num(1),
    FileName := Str("screenshot.png"), FilePath := Str("/uploads/screenshot.png"), FileSize := Num(12345),
    MimeType := Str("image/png")]

  /** The constructor keeps the six given fields. */
  lemma ValidAttachmentBuilt()
    ensures NewAttachment(ValidAttachmentInput) == Attachment(Null, Num(1), Num(1), Str("screenshot.png"),
      Str("/uploads/screenshot.png"), Num(12345), Str("image/png"), Null)
  {
  }

  /** The valid attachment passes every check. */
  lemma ValidAttachmentPasses()
    ensures var a := NewAttachment(ValidAttachmentInput);
      !a.Throws() && a.Errors() == []
  {
    ValidAttachmentBuilt();
    var a := NewAttachment(ValidAttachmentInput);
    assert !IsWhitespace(a.fileName.s[0]) && !IsWhitespace(a.filePath.s[0]);
    ValidIff(a);
  }
}
