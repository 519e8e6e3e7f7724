# headless-cms core, modelled in Dafny

This project models the behavioural core of a small headless CMS written in
Rust (a CRUD API over Postgres and S3). It has three parts.

- **The domain's validating constructors** (`try_new` of Category, Content,
  Tag, Role, User, both ContentModel drafts, FieldMeta and Field). Each is a
  fixed chain of length guards over Rust's `String::len`, which counts UTF-8
  bytes. The model counts bytes with `Utf8.ByteLen`. For each constructor it
  proves which inputs are accepted (an if-and-only-if with a `Valid`
  predicate), that accepted arguments are stored unchanged, and which error
  the first failed guard reports.
- **The database repositories' translation logic**: the `content_status`
  enum and its bijection with the domain status, the row to entity
  mappings, the `None → ""` description default of `create`, id parsing,
  and the partial-update builders.
  - Each builder is an imperative method over the `Sql.QueryBuilder` and
    `Sql.Separated` classes, which model sqlx's query builder: a text
    buffer and an argument list. Each builder is proved to produce exactly
    the statement a specification function describes.
  - Lemmas about that function give the SET list's contents and order, the
    argument layout (the id is the last placeholder), the parse order and
    the error cases.
  - An abstract table (`Store.Table`, rows keyed by UUID) gives the
    statements a meaning: applying a SET list to a stored row is proved
    equal to the merge spelled out by the use-case test's mock. Present
    fields replace stored values and absent ones keep them.
- **Two small pure mappers**: the `AppError` → HTTP status table, and the
  S3 bucket name derivation, which removes every `/` from the returned
  location.

The source files are inconsistent drafts. Each file is modelled against its
own shapes, in its own module. Where two drafts contain the same code, the
second module reuses the first module's members.
- `RepositoryCategory` reuses `CategoryRepository`.
- `RepositoryContents` reuses the status enum, its conversions, the
  optional SET items and `delete` of `ContentsRepository`.

Foreign libraries are parameters of the model; nothing is assumed about
them beyond their types. These are `Uuid::parse_str`/`from_str`
(`UuidParser`, which may fail), UUID and `DateTime` rendering,
`serde_json::from_value` (a `decode` function that may fail) and
`url::Url::parse` (`isUrl`). The fresh id of an insert is a parameter too.

## Model

| member | source | states |
|---|---|---|
| ModelCategory.TryNew | domain/src/model/category.rs:10-44 | accepts exactly names of 1..50 bytes, api identifiers of 1..64 bytes and absent or at most 500-byte descriptions; stores the four arguments unchanged; reports the first failed check in the order name, api identifier, description, with its message |
| ModelCategory.AcceptsBoundaryLengths | domain/src/tests/model/category.rs:3-14 | 50/64/500 bytes of an ASCII character are accepted, with or without a description |
| ModelCategory.RejectsOneOverBounds | domain/src/tests/model/category.rs:16-28 | one byte over each bound is rejected with that bound's message |
| ModelCategory.CountsBytesNotCharacters | domain/src/model/category.rs:20-22 | 26 two-byte characters (52 bytes) are a name that is too long |
| ModelContent.TryNew | domain/src/model/content.rs:53-87 | accepts exactly titles of 1..50 bytes, empty first and then too long; every other argument is stored unchanged |
| ModelContent.StatusesEnumerated | domain/src/model/content.rs:14-19 | every status is one of the four distinct variants |
| ModelContent.TitleBoundary | domain/src/tests/model/content.rs:6-66 | a 50-byte title is accepted and kept; a 51-byte title is rejected as too long |
| ModelTag.TryNew | domain/src/model/tag.rs:9-27 | accepts exactly names of 1..50 bytes with descriptions of at most 500 bytes; stores the arguments unchanged; checks the name first |
| ModelTag.EmptyDescriptionAccepted | domain/src/model/tag.rs:10-20 | an empty description is accepted, an empty name is not |
| ModelTag.DescriptionBoundary | domain/src/model/tag.rs:18-20 | 500 description bytes are accepted, 501 are rejected |
| ModelRole.TryNew | domain/src/model/role.rs:10-32 | accepts exactly names of at most 50 bytes with absent or at most 500-byte descriptions; stores the arguments unchanged; both failures give the one message |
| ModelRole.NoLowerBound | domain/src/model/role.rs:16-24 | an empty name and no description are accepted |
| ModelRole.LongDescriptionRejected | domain/src/model/role.rs:20-24 | a present 501-byte description is rejected even with an empty name; 500 bytes are accepted |
| ModelUser.AuthoritiesOf | domain/src/model/user.rs:10-25 | each role's permissions map has the single key "contents": "get,find,create,update,delete" for Admin, "get" for Member |
| ModelUser.AdminPermissions | domain/src/model/user.rs:11-16 | the map built by one insert into an empty map is Admin's permissions |
| ModelUser.MemberPermissions | domain/src/model/user.rs:19-24 | the map built by one insert into an empty map is Member's permissions |
| ModelUser.Permissions | domain/src/model/user.rs:58-60 | a user's permissions depend only on its role |
| ModelUser.TryNew | domain/src/model/user.rs:37-56 | accepts exactly names of 1..50 bytes with an icon URL the parser accepts; stores the arguments and the role; consults the URL parser only after both name checks |
| ModelUser.NameCheckedBeforeUrl | domain/src/model/user.rs:38-48 | with a bad name the result is the same error whatever the URL parser says |
| ModelUser.AcceptsFiftyByteName | domain/src/tests/model/user.rs:11-16 | a 50-byte name with `https://example.com` (when the parser accepts that URL) builds an admin user |
| ModelContentModel.TryNew | domain/src/model/content_model.rs:16-44 | accepts exactly names of at most 50 bytes, api identifiers of at most 64 and absent or at most 500-byte descriptions; stores the arguments, the field metas in their order; checks in the order name, api identifier, description |
| ModelContentModel.NoLowerBoundsNoFieldChecks | domain/src/model/content_model.rs:23-43 | empty name and api identifier are accepted, and any field metas are stored as given |
| DomainContentModel.TryNew | domain/src/content_model.rs:10-27 | the older draft: same bounds and order, three arguments stored unchanged |
| DomainContentModel.EmptyStringsAccepted | domain/src/content_model.rs:12-26 | empty strings everywhere are accepted and kept |
| ModelFieldMeta.TryNew | domain/src/model/field_meta.rs:24-44 | accepts exactly names of at most 50 bytes with field ids of at most 64; checks the name first; stores the arguments unchanged |
| ModelFieldMeta.TypeAndFlagIrrelevant | domain/src/model/field_meta.rs:38-43 | the field type and the required flag never change acceptance or the error |
| ModelFieldMeta.FieldTypesEnumerated | domain/src/model/field_meta.rs:5-13 | every field type is one of the seven distinct variants |
| DomainField.TryNew | domain/src/field.rs:10-25 | accepts exactly names of at most 50 bytes with field ids of at most 64; checks the name first; stores the arguments unchanged |
| DomainField.NameReportedFirst | domain/src/field.rs:12-18 | when both are too long the name's error is reported; otherwise the field id's |
| Utf8.ByteLenZero | domain/src/model/category.rs:16-18 | `len() < 1` holds exactly for the empty string |
| Utf8.ByteLenBounds | domain/src/model/category.rs:20-22 | a string takes between one and four bytes per character |
| Utf8.ByteLenAppend | domain/src/model/category.rs:20-22 | the byte length of a concatenation is the sum of the byte lengths |
| Utf8.AsciiByteLen | domain/src/tests/model/category.rs:4-5 | for ASCII text bytes and characters agree |
| Utf8.RepeatByteLen | domain/src/tests/model/category.rs:4-5 | `n` copies of a character take `n` times its width in bytes |
| Sql.QueryBuilder.constructor | infrastructure/src/database/category_repository.rs:102 | the builder starts with the initial text and no arguments |
| Sql.QueryBuilder.Push | infrastructure/src/database/category_repository.rs:121 | appends text and leaves the arguments alone |
| Sql.QueryBuilder.PushBind | infrastructure/src/database/category_repository.rs:122 | appends the argument and writes `$n`, n being the new number of arguments |
| Sql.QueryBuilder.Build | infrastructure/src/database/category_repository.rs:126-127 | the statement holds the buffer's text and arguments |
| Sql.Separated.constructor | infrastructure/src/database/category_repository.rs:103 | a separated view over the builder that has pushed nothing yet |
| Sql.Separated.Push | infrastructure/src/database/category_repository.rs:106 | appends the separator before every item but the first |
| Sql.Separated.PushBindUnseparated | infrastructure/src/database/category_repository.rs:107 | binds without a separator |
| Sql.PushAssignment | infrastructure/src/database/category_repository.rs:106-107 | one `column = ` push and one bind extend the emitted SET list by exactly that assignment |
| Sql.PushOptional | infrastructure/src/database/category_repository.rs:105-108 | `if let Some(v)` emits the assignment when the value is present and nothing otherwise |
| Sql.DecimalRoundTrip | infrastructure/src/database/category_repository.rs:122 | placeholder numbers read back as written, so distinct arguments get distinct placeholders |
| Sql.SetListEmpty | infrastructure/src/database/category_repository.rs:105-118 | the SET list text is empty exactly when nothing is assigned |
| Sql.SetListPrefix | infrastructure/src/database/category_repository.rs:105-118 | the assignments pushed so far render to a prefix of the final SET list |
| Sql.SetListStartsWithFirst | infrastructure/src/database/repository/category.rs:107-113 | a non-empty SET list starts with its first column and `$1`, with no leading separator |
| Sql.PresentSpec | infrastructure/src/database/category_repository.rs:105-118 | the assignments of the present values follow the column order, each column at most once, and a column is assigned a value exactly when that value is present |
| Sql.UpdateById | infrastructure/src/database/category_repository.rs:102-124 | the arguments are the SET values in order and then the id |
| Sql.UpdateByIdText | infrastructure/src/database/category_repository.rs:102-124 | the text is the prefix, then the SET list, and ends with the WHERE text, the id's placeholder and the suffix |
| Sql.EmptyUpdateById | infrastructure/src/database/category_repository.rs:102-124 | with nothing to assign the text has nothing after SET and the id is `$1` |
| Sql.SingleUpdateById | infrastructure/src/database/repository/category.rs:107-129 | with one assignment it is `$1` and the id `$2` |
| Sql.FirstUpdateById | infrastructure/src/database/repository/category.rs:107-127 | a non-empty statement starts with the prefix and the first `column = $1` |
| Store.Table.Insert | infrastructure/src/database/category_repository.rs:72-89 | inserts the row under a new id and returns it; a taken id fails and changes nothing |
| Store.Table.UpdateRow | infrastructure/src/database/category_repository.rs:126-129 | an empty SET list or a missing row fails and changes nothing; otherwise the row becomes the assignments applied to it, and it is returned |
| Store.Table.Delete | infrastructure/src/database/category_repository.rs:137-140 | removes the row if there is one, and nothing else |
| Store.Table.Page | infrastructure/src/database/tag_repository.rs:46-51 | returns the rows of `PageIds` in that order; a negative offset or limit fails |
| Store.SortIds | infrastructure/src/database/tag_repository.rs:47 | the loop that takes the least remaining id yields `SortedIds` |
| Store.SortedIdsSpec | infrastructure/src/database/tag_repository.rs:47 | `ORDER BY id` lists every stored id exactly once, strictly ascending |
| Store.PageIdsSpec | infrastructure/src/database/tag_repository.rs:47 | a page is ascending, holds stored ids only, and has `min(limit, remaining after offset)` ids |
| CategoryRepository.TryFrom | infrastructure/src/database/category_repository.rs:24-43 | never fails, copies the columns without validation, and always sets `Some(description)` |
| CategoryRepository.StoredDescription | infrastructure/src/database/category_repository.rs:67-70 | an absent description is stored as "" and a present one as given |
| CategoryRepository.NewRow | infrastructure/src/database/category_repository.rs:67-88 | the row `create` inserts: name and api identifier as given, the description defaulted to ""; no contract of its own, `CategoryRepository.Create` and `CategoryRepository.CreatedWithoutDescription` state it |
| CategoryRepository.DeleteStatement | infrastructure/src/database/category_repository.rs:134-140 | a malformed id fails with the parser's error; otherwise the id is `$1` |
| CategoryRepository.AssignmentsSpec | infrastructure/src/database/category_repository.rs:105-118 | the SET list holds exactly the present fields with their new values, each column once, in the order name, api_identifier, description |
| CategoryRepository.UpdateStatementSpec | infrastructure/src/database/category_repository.rs:120-124 | a malformed id fails with the parser's error; otherwise the id is the last argument, the WHERE placeholder refers to it, and the text starts with `UPDATE category SET ` |
| CategoryRepository.EmptyUpdateUnguarded | infrastructure/src/database/category_repository.rs:102-124 | with no field present the statement is still built: `UPDATE category SET  WHERE id = $1 RETURNING *` |
| CategoryRepository.ApplyIsMerge | application/src/tests/usecase/content_model.rs:47-61 | running the SET list on a stored row is the mock's merge: Some replaces, None keeps |
| CategoryRepository.MergeIdempotent | application/src/tests/usecase/content_model.rs:47-61 | applying the same update twice is applying it once |
| CategoryRepository.MergeMatchesMock | application/src/tests/usecase/content_model.rs:47-61 | when the mock's re-validation accepts, its category is the mapped merged row |
| CategoryRepository.MockUpdate | application/src/tests/usecase/content_model.rs:47-61 | the use-case mock: each present field replaces the category's, the rest are kept, and `Category::try_new` re-validates; no contract of its own, `CategoryRepository.MergeMatchesMock` relates it to the repository |
| CategoryRepository.CreatedWithoutDescription | infrastructure/src/database/category_repository.rs:36-70 | a category created with no description reads back with `Some("")` |
| CategoryRepository.MappingDoesNotValidate | infrastructure/src/database/category_repository.rs:36-41 | a stored row with an empty name maps to a category that `Category::try_new` refuses |
| CategoryRepository.PushOptionalColumns | infrastructure/src/database/category_repository.rs:105-118 | the three conditional pushes emit exactly the SET list of the present fields |
| CategoryRepository.BuildUpdate | infrastructure/src/database/category_repository.rs:94-124 | the builder produces exactly the specified statement, or the id's parse error |
| CategoryRepository.Create | infrastructure/src/database/category_repository.rs:60-91 | inserts the row with the default description and returns its mapping |
| CategoryRepository.Update | infrastructure/src/database/category_repository.rs:94-131 | a bad id, an empty SET list or a missing row fails and leaves the table unchanged; otherwise the row becomes its merge with the data and is returned mapped |
| CategoryRepository.Delete | infrastructure/src/database/category_repository.rs:134-143 | a bad id fails and changes nothing; otherwise the row is removed |
| RepositoryCategory.OnlyNameChangesOnlyName | infrastructure/src/tests/database/repository/category.rs:38-46 | a rename sends `UPDATE category SET name = $1 WHERE id = $2 RETURNING *` with the name and the id, and changes the name column alone |
| RepositoryCategory.NoLeadingSeparator | infrastructure/src/database/repository/category.rs:107-127 | a non-empty update starts with its first column right after `SET `, bound to `$1` |
| RepositoryCategory.AbsentColumnsKept | infrastructure/src/database/repository/category.rs:110-123 | absent fields and the id keep their stored values |
| TagRepository.FromRow | infrastructure/src/database/tag_repository.rs:21-35 | copies id, name and description without validation |
| TagRepository.StoredDescription | infrastructure/src/database/tag_repository.rs:60-63 | an absent description is stored as "" and a present one as given |
| TagRepository.NewRow | infrastructure/src/database/tag_repository.rs:59-72 | the row `create` inserts under the fresh id: the name as given, the description defaulted to ""; no contract of its own, `TagRepository.Create` and `TagRepository.CreatedWithoutDescription` state it |
| TagRepository.AssignmentsSpec | infrastructure/src/database/tag_repository.rs:89-97 | the SET list holds exactly the present fields, each once, name before description |
| TagRepository.UpdateStatementSpec | infrastructure/src/database/tag_repository.rs:99-103 | a malformed id fails with the parser's error; otherwise the id is the last argument and the WHERE placeholder refers to it |
| TagRepository.EmptyUpdateUnguarded | infrastructure/src/database/tag_repository.rs:84-103 | with no field present the statement is still built: `UPDATE tags SET  WHERE id = $1 RETURNING *` |
| TagRepository.ApplyIsMerge | infrastructure/src/database/tag_repository.rs:89-103 | running the SET list on a stored row replaces exactly the present fields |
| TagRepository.CreatedWithoutDescription | infrastructure/src/database/tag_repository.rs:60-63 | a tag created with no description reads back with "" |
| TagRepository.MappingDoesNotValidate | infrastructure/src/database/tag_repository.rs:21-35 | a stored row with an empty name maps to a tag that `Tag::try_new` refuses |
| TagRepository.PushOptionalColumns | infrastructure/src/database/tag_repository.rs:89-97 | the two conditional pushes emit exactly the SET list of the present fields |
| TagRepository.BuildUpdate | infrastructure/src/database/tag_repository.rs:77-103 | the builder produces exactly the specified statement, or the id's parse error |
| TagRepository.Get | infrastructure/src/database/tag_repository.rs:45-54 | returns the tags of the stored rows in id order, at most `limit` of them, after skipping `offset` |
| TagRepository.Create | infrastructure/src/database/tag_repository.rs:56-75 | inserts the row with the default description under the fresh id and returns the mapped tag |
| TagRepository.Update | infrastructure/src/database/tag_repository.rs:77-111 | a bad id, an empty SET list or a missing row fails and leaves the table unchanged; otherwise the row becomes its merge with the data |
| TagRepository.Delete | infrastructure/src/database/tag_repository.rs:113-122 | a bad id fails and changes nothing; otherwise the row is removed |
| UserRepository.TryFrom | infrastructure/src/database/user_repository.rs:28-43 | never fails; renders the id, copies name and icon URL, and takes the role from the type, not the row |
| UserRepository.RowRoleIgnored | infrastructure/src/database/user_repository.rs:31-42 | the stored role does not affect the mapped user |
| UserRepository.AssignmentsSpec | infrastructure/src/database/user_repository.rs:112-125 | the SET list holds exactly the present fields, each once, in the order name, icon_url, role |
| UserRepository.UpdateStatementSpec | infrastructure/src/database/user_repository.rs:122-129 | a malformed user id fails with the parser's error; otherwise the parsed id is the last argument and the role id goes in as raw text |
| UserRepository.MissingSpaceAfterSet | infrastructure/src/database/user_repository.rs:109-130 | as written, a rename sends `UPDATE users SETname = $1 WHERE users.id = $2 RETURNING *` |
| UserRepository.CorrectedSeparatesSet | infrastructure/src/database/user_repository.rs:109-130 | with `SET ` the first column follows one space after SET, with the same arguments |
| UserRepository.PushOptionalColumns | infrastructure/src/database/user_repository.rs:112-125 | the three conditional pushes emit exactly the SET list of the present fields |
| UserRepository.BuildUpdate | infrastructure/src/database/user_repository.rs:101-130 | the builder as written produces exactly the as-written statement, or the id's parse error |
| ContentsRepository.ToDomain | infrastructure/src/database/contents_repository.rs:18-27 | converting a store status to the domain is undone by the reverse conversion |
| ContentsRepository.FromDomain | infrastructure/src/database/contents_repository.rs:29-38 | each domain status becomes the store variant of the same name |
| ContentsRepository.StatusRoundTrip | infrastructure/src/database/contents_repository.rs:18-38 | the two status conversions are mutual inverses over all four variants (the second draft's conversions at infrastructure/src/database/repository/contents.rs:32-52 are the same code) |
| ContentsRepository.VariantName | infrastructure/src/database/contents_repository.rs:9-16 | the `content_status` label of a variant reads back as that variant |
| ContentsRepository.ParseVariant | infrastructure/src/database/contents_repository.rs:9-16 | a label is read back exactly when it is one of the enum's four labels |
| ContentsRepository.VariantRoundTrip | infrastructure/src/database/contents_repository.rs:9-16 | a label reads back as a variant exactly when it is that variant's label, so the labels are distinct |
| ContentsRepository.JsonOf | infrastructure/src/database/contents_repository.rs:217-220 | `fields` is bound as JSON exactly when present |
| ContentsRepository.StatusOf | infrastructure/src/database/contents_repository.rs:222-226 | `status` is bound as its store variant exactly when present |
| ContentsRepository.TryFrom | infrastructure/src/database/contents_repository.rs:56-96 | fails exactly when the `fields` JSON does not decode; otherwise converts the status, renders the ids and the `published_at`, `created_at` and `updated_at` timestamps, keeps whether `published_at` is present, and carries the category, creator and updater |
| ContentsRepository.CreateBinds | infrastructure/src/database/contents_repository.rs:148-198 | category id, created_by and updated_by are parsed in that order and the first failure decides the error; the five arguments are in INSERT order |
| ContentsRepository.DeleteStatement | infrastructure/src/database/contents_repository.rs:271-277 | a malformed id fails with the parser's error; otherwise the id is `$1` |
| ContentsRepository.OptionalAssignmentsSpec | infrastructure/src/database/contents_repository.rs:217-226 | the optional SET items are exactly the present fields, fields before status |
| ContentsRepository.AssignmentsSpec | infrastructure/src/database/contents_repository.rs:217-230 | the SET list is never empty: the present fields in order, then always `updated_by` last |
| ContentsRepository.UpdateStatementSpec | infrastructure/src/database/contents_repository.rs:217-248 | updated_by's parse error wins, then the content id's; otherwise the arguments are the optional values, updated_by, then the content id |
| ContentsRepository.ApplyIsMerge | infrastructure/src/database/contents_repository.rs:217-230 | running the SET list on a stored row replaces the present fields and records the updater; nothing else changes |
| ContentsRepository.PushOptionalColumns | infrastructure/src/database/contents_repository.rs:217-226 | the two conditional pushes emit exactly the optional SET items |
| ContentsRepository.StartUpdate | infrastructure/src/database/contents_repository.rs:214-230 | after the pushes, the buffer holds the whole SET list with `updated_by` last, or updated_by failed to parse |
| ContentsRepository.BuildUpdate | infrastructure/src/database/contents_repository.rs:205-261 | the builder produces exactly the specified statement, or the first parse error |
| ContentsRepository.Update | infrastructure/src/database/contents_repository.rs:205-268 | either parse failure or a missing row fails and leaves the table unchanged; otherwise the row becomes its merge |
| ContentsRepository.Run | infrastructure/src/database/contents_repository.rs:263-266 | executing the built update merges the stored row, if there is one |
| ContentsRepository.Delete | infrastructure/src/database/contents_repository.rs:271-280 | a bad id fails and changes nothing; otherwise the row is removed (the second draft's `delete` is the same code) |
| RepositoryContents.TryFrom | infrastructure/src/database/repository/contents.rs:68-106 | the joined category is validated by `Category::try_new` first and its error wins; then the JSON must decode; on success it keeps the validated category, converts the status, renders the id and the three timestamps, and keeps the presence of `published_at` |
| RepositoryContents.EmptyCategoryNameRejected | infrastructure/src/database/repository/contents.rs:84-89 | a row whose category name is empty fails with the domain's error |
| RepositoryContents.CreateBinds | infrastructure/src/database/repository/contents.rs:134-166 | a malformed category id fails first; otherwise the arguments are the id, the JSON and the status |
| RepositoryContents.UpdateStatementSpec | infrastructure/src/database/repository/contents.rs:181-196 | a malformed id fails with the parser's error; otherwise the arguments are the present values and then the id |
| RepositoryContents.EmptyUpdateUnguarded | infrastructure/src/database/repository/contents.rs:178-198 | with neither field present the SET list is empty and the statement is still built, with the id as `$1` |
| RepositoryContents.BuildUpdate | infrastructure/src/database/repository/contents.rs:173-198 | the builder produces exactly the specified statement, or the id's parse error |
| HandlerError.StatusCode | interface/src/handler/error.rs:23-29 | 404 exactly for EntityNotFound, 400 exactly for ValidationError, 500 exactly for the three record errors; no other code |
| HandlerError.Message | interface/src/handler/error.rs:9-18 | the `#[error]` display texts: the carried message for not found and invalid input, a fixed sentence for each failed write; no contract of its own beyond `HandlerError.RecordMessagesDistinct` |
| HandlerError.ClientOrServer | interface/src/handler/error.rs:23-29 | the response is 4xx exactly for not found or invalid input, and 5xx exactly for a failed write |
| HandlerError.StatusIgnoresText | interface/src/handler/error.rs:24-25 | the status does not depend on the carried message or report |
| HandlerError.RecordMessagesDistinct | interface/src/handler/error.rs:13-18 | the three failed-write messages are non-empty and pairwise different |
| StorageMedia.FromLocation | infrastructure/src/storage/media.rs:10-19 | a missing location is the error "None CreateBucketOutput.name"; otherwise the name is the location with every `/` removed, so it has no `/` and holds every other character as often as the location does, in order |
| StorageMedia.StripNoSlash | infrastructure/src/storage/media.rs:14 | no `/` survives |
| StorageMedia.StripCounts | infrastructure/src/storage/media.rs:14 | the name's multiset is the location's with the slashes taken out |
| StorageMedia.StripAppend | infrastructure/src/storage/media.rs:14 | stripping a concatenation strips each part, so kept characters stay in order |
| StorageMedia.StripOne | infrastructure/src/storage/media.rs:14 | one character is kept unless it is `/` |
| StorageMedia.StripNoSlashIdentity | infrastructure/src/storage/media.rs:14 | a location without slashes is the name unchanged |
| StorageMedia.StripIdempotent | infrastructure/src/storage/media.rs:14 | stripping twice is stripping once |
| StorageMedia.StripLength | infrastructure/src/storage/media.rs:14 | the name is shorter than the location by its number of slashes |

## Left out

- Postgres itself. The model has no SQL parsing, no joins and no RETURNING column lists. All fetch semantics, `async`, connection pools and transactions are absent. `Store.Table` stands in for one table.
- Store error messages and their order. The messages of `Store` (empty SET list, no rows, duplicate key, negative limit or offset) are model choices. So is checking the empty SET list before the row's existence.
- SQL text of reads and inserts. The `SELECT` text of `get` and the `INSERT ... WITH ... JOIN` text of `create` in both contents drafts are left out. Their arguments are modelled (`CreateBinds`), their text is not.
- `get` of the category and contents repositories: a SELECT whose rows are each mapped with the modelled `TryFrom`. The collection of the per-row results into one result is not modelled.
- ContentsRepository.Update: returns the updated stored row, not the joined `Content`. The joined category and user columns are not modelled.
- RepositoryContents `update` against a table: not modelled. Only its statement is modelled (`RepositoryContents.BuildUpdate`), whose SET list is `ContentsRepository`'s optional part.
- The rest of the user repository: `get`, `find`, `create` and `delete` in infrastructure/src/database/user_repository.rs are not part of this model.
- Content↔tag association writes and transactions: no code for them exists.
- `create_bucket` and `delete_bucket` in infrastructure/src/storage/media.rs: calls into the AWS SDK.
- `AppError::ValidationError`'s `garde::Report`: kept as its rendered text. Its `Display` text (`HandlerError.Message`) has no contract beyond the lemma about the record errors.
- Foreign libraries: `Uuid::parse_str`/`from_str`, `Uuid::now_v7`, UUID and `DateTime` rendering, `serde_json::from_value` and `url::Url::parse` are parameters and are not modelled.
- Integer widths: `GetTagQuery`'s limit and offset are `i32`; nothing overflows, since the model only compares them and converts them to `nat`.

## Findings

| source | as written | input that shows it | evidently intended | confidence | as-written member | corrected member |
|---|---|---|---|---|---|---|
| infrastructure/src/database/user_repository.rs:109 | the builder starts from `"UPDATE users SET"`, with no space, and `separated` adds no leading separator, so the first column is glued to SET | `UpdateUser { name: Some(n), icon_url: None, role_id: None, .. }` with a well-formed id gives `UPDATE users SETname = $1 WHERE users.id = $2 RETURNING *` | `"UPDATE users SET "`, as the category, tag and contents builders write it | not executed | UserRepository.MissingSpaceAfterSet | UserRepository.CorrectedSeparatesSet |
