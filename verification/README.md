# Defect management: workflow engine and record validators

A Dafny model of the two cores of a defect tracker.

- **The status workflow engine** (`defect_workflow.py`). It has three parts:
  - a fixed transition table over six statuses;
  - a `Defect` whose status and append-only audit ledger of `StatusChange` records move together;
  - a `DefectManager` that hands out sequential ids, stores defects by id, and answers lookups, updates and filters.
- **The record models of the Node.js back end** (`src/models/Defect.js`, `User.js`, `Comment.js`, `Attachment.js`). Each one has three parts:
  - a constructor that fills falsy properties with defaults and prefers snake_case keys;
  - `validate()`, which pushes messages onto an error list in a fixed order;
  - `toDatabase()` / `toJSON()`, which map fields to property names.

The two cores use separate vocabularies. The engine knows New, In Progress, Testing, Resolved, Closed and Reopened. The JS defect record has its own status strings and an integer priority from 1 to 5.

## Modules

- `Base`: `Option` and `Result`.
- `WorkflowTable`: the statuses, the priorities, the transition table, `IsValidTransition` and `GetAllowedTransitions`.
  - It also holds the string value of each status and priority (defect_workflow.py:13-28), with lookup by value. These are the spellings that `__repr__` and the transition error print (defect_workflow.py:88, :139-140, :163). The lookups are there to prove the six status values, and the four priority values, pairwise distinct. The engine itself only compares members.
- `WorkflowDefect`: `StatusChange`, and the `Defect` class with `ChangeStatus`, `AssignTo` and `GetStatusHistory`.
  - The class invariant `Valid()` says two things. The history is a chain of legal moves leaving from New, and the status is where that chain ends.
  - Sequences of calls are described by the ledger functions `Attempt`, `After`, `Replay` and `Accepted`.
- `WorkflowManager`: the `DefectManager` class. Its ids are exactly 1 up to its counter, and `Valid()` adds that every stored defect keeps the ledger invariant. It has the creation-ordered queries, and a lemma that such a query is fully determined by its contract.
- `WorkflowScenarios`: the runs of the Python unit tests, as methods whose contracts state the outcome.
- `JsValues`: the JavaScript semantics the records rely on:
  - property lookup, where a missing key reads as undefined;
  - truthiness and `||`;
  - `String.prototype.trim` over the ECMAScript white-space set;
  - the number conversion used by `<` and `>`.
- `Validation`: a validator is a list of checks. `Collect` is the error list that one conditional `push` per check leaves. Generic lemmas say:
  - which messages appear;
  - that the list is empty exactly when no check fails;
  - that messages come in check order.
- `EmailPattern`: the address pattern `/^[^\s@]+@[^\s@]+\.[^\s@]+$/` as a predicate, proved equal to a plain description: no white space, a single `@` that is not first, and an inner dot after it.
- `DefectModel`, `UserModel`, `CommentModel`, `AttachmentModel`: for each record:
  - the fields, as a datatype;
  - the constructor;
  - `validate()`, as a method that pushes messages the way the source does;
  - the serialisers;
  - lemmas that explain every message, the `valid` flag, the message order and the serialisation round trips.
- `DefectSamples`, `UserSamples`, `CommentSamples`, `AttachmentSamples`: the objects of the JS model test script and what validation makes of them.

## Model

| member | source | states |
|---|---|---|
| WorkflowTable.StatusFromValue | defect_workflow.py:13-20 | looking a status up by its value only ever returns the status spelled that way |
| WorkflowTable.StatusValueRoundTrip | defect_workflow.py:13-20 | every status is recovered from its own value, so the six values are distinct |
| WorkflowTable.PriorityFromValue | defect_workflow.py:23-28 | looking a priority up by its value only ever returns the priority spelled that way |
| WorkflowTable.PriorityValueRoundTrip | defect_workflow.py:23-28 | every priority is recovered from its own value |
| WorkflowTable.GetAllowedTransitions | defect_workflow.py:62-73 | the declared row of the table, or the empty list for a status without a row |
| WorkflowTable.IsValidTransition | defect_workflow.py:46-60 | a move is legal iff its target is in the allowed list of its source; a source without a row allows nothing |
| WorkflowTable.ValidTransitionsExactly | defect_workflow.py:37-44 | the legal moves are exactly the thirteen declared pairs |
| WorkflowTable.EveryStatusHasSuccessor | defect_workflow.py:37-44 | every status has a row and no row is empty: there is no terminal status |
| WorkflowTable.NoSelfTransition | defect_workflow.py:37-44 | no status may move to itself |
| WorkflowTable.TransitionsNotSymmetric | defect_workflow.py:38-42 | New to Closed is legal but Closed to New is not |
| WorkflowTable.RowsHaveNoDuplicates | defect_workflow.py:37-44 | no row lists a target twice |
| WorkflowTable.WalkFromNew | defect_workflow.py:37-44 | every status is reachable from New by a walk of legal moves |
| WorkflowTable.WorkflowHasCycle | defect_workflow.py:39-42 | the graph has cycles (In Progress and Testing; Closed and Reopened) |
| WorkflowDefect.ChainIffLinked | defect_workflow.py:143-149 | a ledger is a chain from New iff its first record leaves New, each record leaves where the previous arrived, and every record is a legal move |
| WorkflowDefect.ChainExtend | defect_workflow.py:143-149 | appending a legal move from where the chain ends keeps it a chain and moves its end to the new target |
| WorkflowDefect.Attempt | defect_workflow.py:121-151 | one call succeeds iff the target is allowed from the current status; failure reports the pair and the allowed targets; success appends one record, keeps the old ledger as a prefix and ends at the target |
| WorkflowDefect.AfterMatchesChangeStatus | defect_workflow.py:137-149 | on a valid ledger, one call appends exactly the record `change_status` appends, or leaves the ledger alone |
| WorkflowDefect.ReplayKeepsChain | defect_workflow.py:137-149 | after any sequence of calls the ledger is still a legal chain from New |
| WorkflowDefect.ReplayAppendsAccepted | defect_workflow.py:143-149 | a sequence of calls keeps the old ledger and appends one record per successful call, in call order, carrying that call's target, actor, comment and time |
| WorkflowDefect.ReplayEndsAtLastAccepted | defect_workflow.py:147-149 | after any sequence of calls from a new defect, the status is the target of the last successful call, or New |
| WorkflowDefect.Defect.constructor | defect_workflow.py:99-119 | a new defect is New, has an empty history and no assignee, and keeps its given fields |
| WorkflowDefect.Defect.ChangeStatus | defect_workflow.py:121-151 | an illegal move returns the error and changes neither status nor history; a legal one appends the record (old status, target, actor, time, comment), sets the status and returns true; nothing else changes |
| WorkflowDefect.Defect.AssignTo | defect_workflow.py:153-155 | sets only the assignee, from any status, keeping the ledger invariant |
| WorkflowDefect.Defect.GetStatusHistory | defect_workflow.py:157-159 | the history as a value: the same records, a legal chain from New ending at the current status |
| WorkflowManager.IncreasingListsWithSameMembersAreEqual | defect_workflow.py:220-230 | two id-increasing lists with the same members are equal, so each query below is fully determined by its contract |
| WorkflowManager.SelectByStatus | defect_workflow.py:220-222 | keeps exactly the defects with the given status, in their original order |
| WorkflowManager.SelectByPriority | defect_workflow.py:228-230 | keeps exactly the defects with the given priority, in their original order |
| WorkflowManager.DefectManager.constructor | defect_workflow.py:171-172 | an empty collection whose first id will be 1 |
| WorkflowManager.DefectManager.CreateDefect | defect_workflow.py:174-190 | the new defect gets the counter as its id, is stored under it, and the counter and the collection size grow by one |
| WorkflowManager.DefectManager.GetDefect | defect_workflow.py:192-194 | finds a defect exactly for the ids handed out so far, and the one found carries that id |
| WorkflowManager.DefectManager.UpdateDefectStatus | defect_workflow.py:196-218 | an unknown id gives false and changes nothing; a known id gets `change_status`'s effect, with its error passed on unchanged |
| WorkflowManager.DefectManager.GetAllDefects | defect_workflow.py:224-226 | every stored defect once, in creation (id) order |
| WorkflowManager.DefectManager.GetDefectsByStatus | defect_workflow.py:220-222 | exactly the stored defects with that status, in creation order |
| WorkflowManager.DefectManager.GetDefectsByPriority | defect_workflow.py:228-230 | exactly the stored defects with that priority, in creation order |
| WorkflowScenarios.WorkThroughToResolved | test_defect_workflow.py:144-166 | New, In Progress, Testing, Resolved all succeed; the history holds the three targets in order |
| WorkflowScenarios.ResolvedDefect | test_defect_workflow.py:144-166 | the same walk leaves three records, the first leaving New |
| WorkflowScenarios.CloseAndReopen | defect_workflow.py:41-42 | a resolved defect can be closed and reopened, ending with five records |
| WorkflowScenarios.RejectedMove | test_defect_workflow.py:265-279 | New to Resolved is refused with the allowed targets In Progress and Closed, and nothing changes |
| WorkflowScenarios.FilterAfterDirectChanges | test_defect_workflow.py:281-300 | after two stored defects are moved to In Progress through the defects themselves, filtering by New gives exactly the third and filtering by In Progress gives exactly the first two, in creation order |
| WorkflowScenarios.SequentialIds | test_defect_workflow.py:207-263 | three creations get ids 1, 2, 3; id 999 is not found and updating it gives false |
| JsValues.TrimStart | src/models/Defect.js:33 | drops exactly the leading white space |
| JsValues.TrimEnd | src/models/Defect.js:33 | drops exactly the trailing white space |
| JsValues.Trim | src/models/Defect.js:33 | `trim()` is empty iff the string is all white space, and otherwise neither starts nor ends with white space |
| JsValues.TrimIsInnerSlice | src/models/Defect.js:33 | `trim()` leaves a slice of its input with only white space cut off on either side |
| JsValues.BlankIffTrimmedEmpty | src/models/Defect.js:33 | the test `!v \|\| v.trim().length === 0` holds iff the value is falsy or all white space |
| JsValues.StringToNumber | src/models/Defect.js:58 | a blank string converts to 0 and a string of digits to its value |
| JsValues.ToNumber | src/models/Defect.js:58 | a number is itself, null is 0, undefined is NaN |
| Validation.CollectEmpty | src/models/Defect.js:82-85 | the error list is empty iff no check failed |
| Validation.CollectMembers | src/models/Defect.js:30-80 | a message is reported iff some check carrying it failed |
| Validation.CollectInOrder | src/models/Defect.js:30-80 | with checks numbered in order, messages come out in check order, each at most once |
| Validation.ReportedIffFailed | src/models/Defect.js:30-80 | with numbered checks, the message of check k is reported iff check k failed |
| Validation.CollectNine | src/models/Defect.js:30-80 | the list of nine checks equals nine successive conditional pushes |
| EmailPattern.MatchesIffShape | src/models/User.js:36 | the pattern accepts exactly the strings with no white space, one `@` that is not first, and a dot after it that is neither right after the `@` nor last |
| EmailPattern.BlankNeverMatches | src/models/User.js:36-37 | a string of white space only, empty or not, never matches |
| DefectModel.Defect.Validate | src/models/Defect.js:29-86 | throws where `trim` is called on a non-string title or description; otherwise returns the collected errors with `valid` iff there are none |
| DefectModel.Defect.ToDatabase | src/models/Defect.js:92-107 | emits exactly the twelve persisted columns |
| DefectModel.Defect.ToJSON | src/models/Defect.js:113-131 | emits exactly the fifteen camelCase properties |
| DefectModel.PushesCollectChecks | src/models/Defect.js:29-86 | the source's nine pushes leave the collected list |
| DefectModel.ErrorsInCheckOrder | src/models/Defect.js:29-80 | messages appear in the order title, description, severity, status, priority, type, environment, resolution, each at most once |
| DefectModel.TitleErrorsExplained | src/models/Defect.js:33-38 | title required iff blank; too long iff a string over 255 characters |
| DefectModel.DescriptionErrorExplained | src/models/Defect.js:41-43 | description required iff blank |
| DefectModel.ChoiceErrorsExplained | src/models/Defect.js:46-66 | severity, status and type errors iff the value is not one of its list |
| DefectModel.PriorityErrorExplained | src/models/Defect.js:58-60 | priority error iff the value converts to a number outside 1..5 |
| DefectModel.OptionalErrorsExplained | src/models/Defect.js:69-80 | environment and resolution errors iff truthy and not in the list |
| DefectModel.ValidIffAcceptable | src/models/Defect.js:82-85 | no errors iff every field is acceptable, stated field by field |
| DefectModel.NewDefect | src/models/Defect.js:7-23 | each field keeps its property when truthy and otherwise takes its own default, whatever the other properties hold (id, title, description, severity, status, priority, type, environment and resolution); each two-word field takes the truthy snake_case key over the camelCase one, and its default when both are falsy |
| DefectModel.FromDatabase | src/models/Defect.js:138-140 | every truthy column of the row is read into its field; a snake_case column wins over a camelCase key the row may also carry |
| DefectModel.ConstructorNormalizes | src/models/Defect.js:7-23 | each constructed field is truthy or its default |
| DefectModel.FalsyInputGivesDefaults | src/models/Defect.js:7-23 | an object without truthy properties gives the defaults (Medium, Open, 3, Bug, Production, empty strings and nulls) |
| DefectModel.JsonProperties | src/models/Defect.js:113-131 | each field appears under its camelCase name |
| DefectModel.JsonHasNoReferenceColumns | src/models/Defect.js:113-131 | `toJSON()` has no snake_case reference key |
| DefectModel.JsonHasNoDateColumns | src/models/Defect.js:113-131 | `toJSON()` has no snake_case date key |
| DefectModel.JsonRoundTrip | src/models/Defect.js:113-131 | the constructor rebuilds any constructed defect from its `toJSON()` |
| DefectModel.ColumnProperties | src/models/Defect.js:92-107 | each persisted field appears under its column name, two-word ones in snake_case |
| DefectModel.ColumnsOmitTimestamps | src/models/Defect.js:92-107 | `toDatabase()` has no id and no timestamp |
| DefectModel.ColumnsOmitCamelCase | src/models/Defect.js:92-107 | `toDatabase()` has no camelCase two-word key |
| DefectModel.DatabaseRoundTrip | src/models/Defect.js:138-140 | `fromDatabase(toDatabase())` gives back the defect with id and timestamps null |
| DefectModel.ConstructorIdempotent | src/models/Defect.js:7-23 | constructing again from a defect's `toJSON()` changes nothing |
| UserModel.User.Validate | src/models/User.js:21-51 | throws where `trim` is called on a non-string username or address; otherwise returns the collected errors with `valid` iff there are none |
| UserModel.User.ToDatabase | src/models/User.js:57-64 | emits exactly username, email, full_name and role |
| UserModel.User.ToJSON | src/models/User.js:70-80 | emits exactly the seven camelCase properties |
| UserModel.PushesCollectChecks | src/models/User.js:21-51 | the source's five pushes leave the collected list |
| UserModel.ErrorsInCheckOrder | src/models/User.js:21-51 | messages appear in the order username, address, role, each at most once |
| UserModel.UsernameErrorsExplained | src/models/User.js:25-30 | username required iff blank; too long iff a string over 100 characters |
| UserModel.EmailErrorsExplained | src/models/User.js:33-39 | address required iff blank; invalid iff a non-empty string the pattern rejects; a non-empty all-white-space address gets both |
| UserModel.RoleErrorExplained | src/models/User.js:42-45 | role error iff truthy and not one of the five roles |
| UserModel.ValidIffAcceptable | src/models/User.js:47-50 | no errors iff the username is present and short enough, the address has the address shape, and the role is allowed |
| UserModel.NewUser | src/models/User.js:7-15 | each field keeps its property when truthy and otherwise takes its own default, whatever the other properties hold (id, username, email and role); each two-word field takes the truthy snake_case key over the camelCase one, and its default when both are falsy |
| UserModel.FromDatabase | src/models/User.js:87-89 | every truthy column of the row is read into its field; a snake_case column wins over a camelCase key the row may also carry |
| UserModel.ConstructorNormalizes | src/models/User.js:7-15 | each constructed field is truthy or its default |
| UserModel.FalsyInputGivesDefaults | src/models/User.js:7-15 | an object without truthy properties gives a developer with empty strings and nulls |
| UserModel.JsonProperties | src/models/User.js:70-80 | each field appears under its camelCase name and no snake_case key is present |
| UserModel.JsonRoundTrip | src/models/User.js:70-80 | the constructor rebuilds any constructed user from its `toJSON()` |
| UserModel.ColumnProperties | src/models/User.js:57-64 | each persisted field appears under its column name, with no id or timestamp |
| UserModel.DatabaseRoundTrip | src/models/User.js:87-89 | `fromDatabase(toDatabase())` gives back the user with id and timestamps null |
| UserModel.ConstructorIdempotent | src/models/User.js:7-15 | constructing again from a user's `toJSON()` changes nothing |
| CommentModel.Comment.Validate | src/models/Comment.js:20-42 | throws where `trim` is called on non-string content; otherwise returns the collected errors with `valid` iff there are none |
| CommentModel.Comment.ToDatabase | src/models/Comment.js:48-54 | emits exactly defect_id, user_id and content |
| CommentModel.Comment.ToJSON | src/models/Comment.js:60-69 | emits exactly the six camelCase properties |
| CommentModel.PushesCollectChecks | src/models/Comment.js:20-42 | the source's three pushes leave the collected list |
| CommentModel.ErrorsExplained | src/models/Comment.js:20-42 | content required iff blank; each id required iff falsy (0 and null included); messages in the order content, defect, user, each at most once |
| CommentModel.ValidIff | src/models/Comment.js:38-41 | no errors iff the content is not blank and both ids are truthy |
| CommentModel.NewComment | src/models/Comment.js:7-14 | each field keeps its property when truthy and otherwise takes its own default, whatever the other properties hold (id, content); each two-word field takes the truthy snake_case key over the camelCase one, and its default when both are falsy |
| CommentModel.FromDatabase | src/models/Comment.js:76-78 | every truthy column of the row is read into its field; a snake_case column wins over a camelCase key the row may also carry |
| CommentModel.ConstructorNormalizes | src/models/Comment.js:7-14 | each constructed field is truthy or its default |
| CommentModel.FalsyInputGivesDefaults | src/models/Comment.js:7-14 | an object without truthy properties gives nulls and empty content |
| CommentModel.JsonProperties | src/models/Comment.js:60-69 | each field appears under its camelCase name and no snake_case key is present |
| CommentModel.JsonRoundTrip | src/models/Comment.js:60-69 | the constructor rebuilds any constructed comment from its `toJSON()` |
| CommentModel.ColumnProperties | src/models/Comment.js:48-54 | ids under snake_case columns, content as is, nothing else |
| CommentModel.DatabaseRoundTrip | src/models/Comment.js:76-78 | `fromDatabase(toDatabase())` gives back the comment with id and timestamps null |
| CommentModel.ConstructorIdempotent | src/models/Comment.js:7-14 | constructing again from a comment's `toJSON()` changes nothing |
| AttachmentModel.Attachment.Validate | src/models/Attachment.js:22-49 | throws where `trim` is called on a non-string file name or path; otherwise returns the collected errors with `valid` iff there are none |
| AttachmentModel.Attachment.ToDatabase | src/models/Attachment.js:55-64 | emits exactly the six snake_case columns |
| AttachmentModel.Attachment.ToJSON | src/models/Attachment.js:70-81 | emits exactly the eight camelCase properties |
| AttachmentModel.PushesCollectChecks | src/models/Attachment.js:22-49 | the source's four pushes leave the collected list |
| AttachmentModel.ErrorsExplained | src/models/Attachment.js:22-49 | name and path required iff blank; each id required iff falsy; messages in the order file name, file path, defect, user, each at most once |
| AttachmentModel.ValidIff | src/models/Attachment.js:45-48 | no errors iff name and path are not blank and both ids are truthy |
| AttachmentModel.NewAttachment | src/models/Attachment.js:7-16 | the id is kept when truthy and null otherwise; each two-word field takes the truthy snake_case key over the camelCase one, and its default when both are falsy, whatever the other properties hold |
| AttachmentModel.FromDatabase | src/models/Attachment.js:88-90 | every truthy column of the row is read into its field; a snake_case column wins over a camelCase key the row may also carry |
| AttachmentModel.ConstructorNormalizes | src/models/Attachment.js:7-16 | each constructed field is truthy or its default |
| AttachmentModel.FalsyInputGivesDefaults | src/models/Attachment.js:7-16 | an object without truthy properties gives empty name and path and nulls |
| AttachmentModel.JsonProperties | src/models/Attachment.js:70-81 | each field appears under its camelCase name |
| AttachmentModel.JsonHasNoColumns | src/models/Attachment.js:70-81 | `toJSON()` has no snake_case key |
| AttachmentModel.JsonRoundTrip | src/models/Attachment.js:70-81 | the constructor rebuilds any constructed attachment from its `toJSON()` |
| AttachmentModel.ColumnProperties | src/models/Attachment.js:55-64 | the six fields under snake_case columns, with no id or upload time |
| AttachmentModel.ColumnsOmitCamelCase | src/models/Attachment.js:55-64 | `toDatabase()` has no camelCase key |
| AttachmentModel.DatabaseRoundTrip | src/models/Attachment.js:88-90 | `fromDatabase(toDatabase())` gives back the attachment with id and upload time null |
| AttachmentModel.ConstructorIdempotent | src/models/Attachment.js:7-16 | constructing again from an attachment's `toJSON()` changes nothing |
| DefectSamples.ValidDefectBuilt | test-models.js:12-19 | the sample valid defect gets the defaults for its missing fields |
| DefectSamples.ValidDefectPasses | test-models.js:12-25 | the sample valid defect has no errors |
| DefectSamples.InvalidDefectBuilt | test-models.js:28-33 | the sample invalid defect keeps its bad values |
| DefectSamples.InvalidDefectFails | test-models.js:28-37 | it gets exactly the title, description, severity and priority errors, in that order |
| DefectSamples.DefectRowRead | test-models.js:95-106 | `fromDatabase` of the sample row keeps id 1 and title 'DB Test' |
| UserSamples.ValidUserBuilt | test-models.js:41-46 | the sample valid user keeps its four fields |
| UserSamples.SampleAddressMatches | test-models.js:43 | 'test@example.com' matches the address pattern |
| UserSamples.AddressWithoutAtFails | test-models.js:53 | 'invalid-email' does not |
| UserSamples.ValidUserPasses | test-models.js:41-49 | the sample valid user has no errors |
| UserSamples.InvalidUserBuilt | test-models.js:51-55 | the sample invalid user keeps its three fields |
| UserSamples.InvalidUserFails | test-models.js:51-58 | it gets exactly the username, address and role errors, in that order |
| CommentSamples.ValidCommentPasses | test-models.js:62-69 | the sample comment is built as given and has no errors |
| AttachmentSamples.ValidAttachmentBuilt | test-models.js:73-80 | the sample attachment keeps its six fields |
| AttachmentSamples.ValidAttachmentPasses | test-models.js:73-83 | the sample attachment has no errors |

## Left out

- The clock. `datetime.now()` in `StatusChange` and `Defect` becomes a `now: Timestamp` parameter supplied by the caller.
- The text of the Python `ValueError`. The error is the datatype `InvalidTransition(from, to, allowed)`, which carries what the message lists. The JS messages are modelled exactly, by each error datatype's `Text()`.
- `__repr__` of `StatusChange` and `Defect`: formatting only.
- The process-wide counter `Defect._id_counter` (defect_workflow.py:97, :110-111). The code shares one class-level counter among every manager and every defect built outside a manager. The model keeps a counter per manager (`DefectManager.nextId`), and defects built outside a manager get their id from the caller. The two agree when a single manager creates every defect.
- A check on the description. The Python `Defect` does not check its description, so neither does the model.
- WorkflowDefect.Defect.GetStatusHistory: the history is a value (`seq`), so "a copy the caller cannot use to change the defect" holds by construction. It is not stated as a separate property.
- Dictionary order. The Python dict yields defects in insertion order. The model lists them in id order, which is the same because ids are handed out in creation order.
- JS values. Values are undefined, null, strings and integers. Booleans, objects, fractional numbers and NaN as property values are not modelled.
- JsValues.StringToNumber: covers the empty string, optionally signed decimal digits, and NaN for everything else. It does not cover decimals, exponents, hexadecimal or `Infinity`.
- JS string length. Length counts characters, not UTF-16 code units.
- Object properties. Objects are maps from a key datatype per record to values. Properties no model reads or writes are left out.
- `validate()` when it throws. When `trim` is called on a truthy non-string, the model returns `Err(TrimNotAFunction(field))` in place of the TypeError. The error list built before the throw is not observable.
- A `null` argument to the constructors. In JavaScript `data = {}` only replaces `undefined`, so `new Defect(null)` throws a TypeError at the first property read. Objects in the model are maps and cannot be null. No caller in the source passes null.
- Everything outside the two cores:
  - the Flask application and its tests;
  - the browser script;
  - the database connection, migrations and configuration;
  - the demo and diagram scripts;
  - `src/models/index.js`, which only re-exports the models.
