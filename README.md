# Catalog administration core, modelled in Dafny

This project models the domain-and-application core of a catalog-administration backend
(categories and genres of a video catalog). The core has four parts.

- **Name validators.** `CategoryValidator` and `GenreValidator` run a rule chain on the `name` field:
  null, then blank, then the trimmed length. Each rule returns early, and each message is the
  code's exact literal.
- **Validation handlers.** The `ValidationHandler` defaults `hasError` and `firtsError` are
  defined over `getErrors`. `ThrowsValidationHandler` raises on the first `append`. The
  accumulating `Notification` is an append-only error list.
- **Aggregates.** `Category` and `Genre` are classes whose mutators (`activate`, `deactivate`,
  `update`) change fields in place. Each mutator re-establishes "active exactly when `deletedAt` is
  null". `Genre`'s constructor refuses a name its validator rejects.
- **Use cases over a gateway.** Create and update of categories validate before they persist. A
  raised gateway failure becomes a one-error `Left`. Update and get raise `NotFound` outside that
  channel. Delete calls `deleteById` unconditionally. List maps a page. The gateways are in-memory
  classes: a store (`map` from id to the aggregate's fields), the operations told to raise (with
  the message), the page `findAll` answers with, and a log of every call received. "Never called"
  and "called exactly once with x" are statements about that log.

Conventions:

- Java `null` is `Option.None`.
- A raised exception is `Result.Failure` carrying a `Failure`: `Domain`, `NotFound`, `Invalid`
  (NotificationException), `NullPointer` or `Unexpected`. The category
  gateway's `create` and `update` differ: their raised failure is `Result.Failure` carrying only the
  exception's message, because the use cases read nothing else from it.
- vavr's `Either` is `Either`.
- Time is an abstract non-decreasing clock (`Clocks.Clock`, a `nat` that each reading may advance).
  Every `Instant.now()` and `InstantUtils.now()` in the source is one reading. So `deactivate`
  reads the clock twice, as the code does.
- `UUID.randomUUID()` is a `Uuid` parameter (32 hexadecimal digits).
- `String.isBlank`, `trim` and `length` follow java.lang.String: white space per
  `Character.isWhitespace`, trim strips every character up to U+0020, and length counts UTF-16
  code units.

## Model

| member | source | states |
|---|---|---|
| ValidationHandler.HasError | domain/src/main/java/io/github/catalogo/admin/domain/validation/ValidationHandler.java:15-17 | true exactly when the error list is non-null and non-empty |
| ValidationHandler.FirstError | domain/src/main/java/io/github/catalogo/admin/domain/validation/ValidationHandler.java:19-24 | null for an empty list, element 0 of a non-empty one, a NullPointerException for a null list |
| ValidationHandler.FirstErrorAgreesWithHasError | domain/src/main/java/io/github/catalogo/admin/domain/validation/ValidationHandler.java:15-24 | for a non-null list, the first error is non-null exactly when `hasError` holds |
| ValidationHandlers.DefaultsDependOnErrorsOnly | domain/src/main/java/io/github/catalogo/admin/domain/validation/ValidationHandler.java:15-24 | two handlers with equal error lists agree on `hasError` and `firtsError` |
| ValidationHandlers.Append | domain/src/main/java/io/github/catalogo/admin/domain/validation/ValidationHandler.java:7 | `append(anError)` dispatched: the throwing handler raises with exactly that error; the accumulating one returns with the error added last |
| ThrowsValidationHandler.Append | domain/src/main/java/io/github/catalogo/admin/domain/validation/handler/ThrowsValidationHandler.java:12-15 | never returns normally; raises a DomainException whose errors are exactly the one appended |
| ThrowsValidationHandler.AppendHandler | domain/src/main/java/io/github/catalogo/admin/domain/validation/handler/ThrowsValidationHandler.java:17-20 | raises a DomainException carrying the other handler's error list unchanged |
| ThrowsValidationHandler.Validate | domain/src/main/java/io/github/catalogo/admin/domain/validation/handler/ThrowsValidationHandler.java:22-29 | the operation's value when it succeeds; when it raises, a DomainException with one error holding the raised message |
| ThrowsValidationHandler.NeverHasErrors | domain/src/main/java/io/github/catalogo/admin/domain/validation/handler/ThrowsValidationHandler.java:31-34 | `getErrors` is empty, so `hasError` is false and `firtsError` is null |
| ThrowsValidationHandler.GetErrors | domain/src/main/java/io/github/catalogo/admin/domain/validation/handler/ThrowsValidationHandler.java:31-34 | always the empty list, so a throwing handler never reports an error |
| CategoryValidator.NameError | domain/src/main/java/io/github/catalogo/admin/domain/category/CategoryValidator.java:25-41 | no error exactly for a valid name; null gives "'name' should not be null", blank gives "'name' should not be blank", any other invalid name "'name' should be between 3 and 255 characters" |
| CategoryValidator.Validate | domain/src/main/java/io/github/catalogo/admin/domain/category/CategoryValidator.java:20-41 | a valid name leaves the handler alone; otherwise exactly one error is appended, so a throwing handler raises with that one error |
| CategoryValidator.PrintableNameBounds | domain/src/main/java/io/github/catalogo/admin/domain/category/CategoryValidator.java:37-38 | a name of printable non-space ASCII passes exactly when it has 3 to 255 characters (3 and 255 pass, 2 and 256 fail) |
| CategoryValidator.TrailingSpaceIsTrimmed | domain/src/main/java/io/github/catalogo/admin/domain/category/CategoryValidator.java:37 | "Fi " is measured after trim and fails the length rule |
| GenreValidator.NameError | domain/src/main/java/io/github/catalogo/admin/domain/genre/GenreValidator.java:23-40 | the same chain with bounds 1 and 255 and the code's literals "should not be null", "should not be blank", "should be between 1 and 255 characters" |
| GenreValidator.Validate | domain/src/main/java/io/github/catalogo/admin/domain/genre/GenreValidator.java:24-40 | a valid name leaves the handler alone; otherwise exactly one error is appended |
| GenreValidator.PrintableNameBounds | domain/src/main/java/io/github/catalogo/admin/domain/genre/GenreValidator.java:36-37 | a name of printable non-space ASCII passes exactly when it has 1 to 255 characters |
| GenreValidator.NulNameFailsLengthRule | domain/src/main/java/io/github/catalogo/admin/domain/genre/GenreValidator.java:31-39 | the "shorter than 1" branch is reachable: "\0" is not blank but trims to nothing |
| GenreValidator.MessagesDifferFromTests | domain/src/main/java/io/github/catalogo/admin/domain/genre/GenreValidator.java:12-13 | the code's blank and length messages differ from the ones the domain tests expect |
| Categories.NewState | domain/src/main/java/io/github/catalogo/admin/domain/category/Category.java:35-42 | the new category holds the given fields unvalidated, one instant for both timestamps, and is consistent (deletion time exactly when inactive) |
| Categories.TransitionsRestoreConsistency | domain/src/main/java/io/github/catalogo/admin/domain/category/Category.java:63-78 | activation and deactivation make any category consistent and keep its id and creation time |
| Categories.UpdateSetsFields | domain/src/main/java/io/github/catalogo/admin/domain/category/Category.java:80-90 | an update sets exactly the given name, description and flag, refreshes the update time and leaves the category consistent |
| Categories.DeactivateTwiceKeepsDeletion | domain/src/main/java/io/github/catalogo/admin/domain/category/Category.java:63-69 | a second deactivation keeps the first deletion time and moves only the update time |
| Categories.Category.With | domain/src/main/java/io/github/catalogo/admin/domain/category/Category.java:19-52 | stores the fields as given; raises a NullPointerException with the code's message for a null creation time, then for a null update time |
| Categories.Category.NewCategory | domain/src/main/java/io/github/catalogo/admin/domain/category/Category.java:35-42 | a fresh object whose state is `NewState` for the UUID's id and one clock reading |
| Categories.Category.Validate | domain/src/main/java/io/github/catalogo/admin/domain/category/Category.java:58-61 | runs the category validator on the name alone |
| Categories.Category.Deactivate | domain/src/main/java/io/github/catalogo/admin/domain/category/Category.java:63-70 | returns the same object, now a deactivation of its old state (deletion time kept if set) |
| Categories.Category.Activate | domain/src/main/java/io/github/catalogo/admin/domain/category/Category.java:73-78 | returns the same object, active, without deletion time, touched at the latest reading |
| Categories.Category.Update | domain/src/main/java/io/github/catalogo/admin/domain/category/Category.java:80-90 | returns the same object, renamed and then activated or deactivated, touched at the last reading |
| Categories.Category.Clone | domain/src/main/java/io/github/catalogo/admin/domain/category/Category.java:116-123 | a fresh object with the same fields |
| CategoryIds.From | domain/src/main/java/io/github/catalogo/admin/domain/category/CategoryId.java:11-22 | wraps the string exactly, the empty one included; null raises "Id cannot be null" |
| CategoryIds.FromUuid | domain/src/main/java/io/github/catalogo/admin/domain/category/CategoryId.java:16-26 | the canonical lower-case text of the UUID, which parses back to that UUID |
| CategoryIds.FromUuidInjective | domain/src/main/java/io/github/catalogo/admin/domain/category/CategoryId.java:16-26 | distinct UUIDs give distinct identifiers |
| CategoryIds.Equals | domain/src/main/java/io/github/catalogo/admin/domain/category/CategoryId.java:33-39 | true exactly for a CategoryId with the same value; null and other classes are never equal |
| CategoryIds.HashCodeConsistent | domain/src/main/java/io/github/catalogo/admin/domain/category/CategoryId.java:41-44 | equal identifiers have equal hash codes |
| CategoryIds.HashCode | domain/src/main/java/io/github/catalogo/admin/domain/category/CategoryId.java:41-44 | a Java `int`, the hash of the value string; an empty value hashes to 0 |
| GenreIds.From | domain/src/main/java/io/github/catalogo/admin/domain/genre/GenreId.java:13-24 | wraps the string exactly, the empty one included; null raises "Id cannot be null" |
| GenreIds.FromUuid | domain/src/main/java/io/github/catalogo/admin/domain/genre/GenreId.java:18-28 | the canonical lower-case text of the UUID, which parses back to that UUID |
| GenreIds.FromUuidInjective | domain/src/main/java/io/github/catalogo/admin/domain/genre/GenreId.java:18-28 | distinct UUIDs give distinct identifiers |
| GenreIds.Equals | domain/src/main/java/io/github/catalogo/admin/domain/genre/GenreId.java:35-41 | true exactly for a GenreId with the same value |
| GenreIds.HashCodeConsistent | domain/src/main/java/io/github/catalogo/admin/domain/genre/GenreId.java:43-46 | equal identifiers have equal hash codes |
| GenreIds.HashCode | domain/src/main/java/io/github/catalogo/admin/domain/genre/GenreId.java:43-46 | a Java `int`, the hash of the value string; an empty value hashes to 0 |
| GenreIds.NeverEqualsCategoryId | domain/src/main/java/io/github/catalogo/admin/domain/genre/GenreId.java:35-41 | a GenreId never equals a CategoryId, even with the same string |
| Identifiers.UuidTextRoundTrip | domain/src/main/java/io/github/catalogo/admin/domain/category/CategoryId.java:24-26 | parsing the canonical text of a UUID gives the UUID back |
| Identifiers.UuidTextInjective | domain/src/main/java/io/github/catalogo/admin/domain/category/CategoryId.java:24-26 | two UUIDs with the same canonical text are the same UUID |
| Identifiers.UuidTextIsLowerCase | domain/src/main/java/io/github/catalogo/admin/domain/genre/GenreId.java:26-28 | lower-casing the text of a UUID changes nothing |
| DomainExceptions.NotFoundWith | domain/src/main/java/io/github/catalogo/admin/domain/exceptions/NotFoundException.java:19-24 | a DomainException with an empty error list whose message is "<SimpleName> with id <id> not found" |
| DomainExceptions.NotFoundMessageDeterminesId | domain/src/main/java/io/github/catalogo/admin/domain/exceptions/NotFoundException.java:21-22 | the message determines the aggregate class and the id |
| DomainExceptions.NotFoundMessageDiffersFromTests | domain/src/main/java/io/github/catalogo/admin/domain/exceptions/NotFoundException.java:22 | the code's message is never the "... was not found" the application tests expect |
| Genres.ConstructionFailure | domain/src/main/java/io/github/catalogo/admin/domain/genre/Genre.java:38-43 | a construction fails exactly when the name is invalid, with a NotificationException carrying the validator's one error |
| Genres.NewState | domain/src/main/java/io/github/catalogo/admin/domain/genre/Genre.java:46-51 | no categories, one instant for both timestamps, deletion time exactly when inactive |
| Genres.TransitionsKeepInvariants | domain/src/main/java/io/github/catalogo/admin/domain/genre/Genre.java:106-120 | activation and deactivation make the genre consistent, keep its name valid, and keep id, name, categories and creation time |
| Genres.DeactivateThenActivate | domain/src/main/java/io/github/catalogo/admin/domain/genre/Genre.java:106-120 | deactivate then activate gives an active genre without deletion time, update times non-decreasing |
| Genres.Genre.New | domain/src/main/java/io/github/catalogo/admin/domain/genre/Genre.java:23-44 | raises exactly when the name is invalid; otherwise a fresh genre with the given fields and a valid name |
| Genres.Genre.NewGenre | domain/src/main/java/io/github/catalogo/admin/domain/genre/Genre.java:46-51 | raises exactly for an invalid name; otherwise `NewState` for the UUID's id and one clock reading |
| Genres.Genre.With | domain/src/main/java/io/github/catalogo/admin/domain/genre/Genre.java:53-63 | the constructor over the given fields: raises exactly when the name is invalid, with the NotificationException "Failed to create a Aggregate Genre" carrying the validator's one error; otherwise a fresh valid genre with those fields |
| Genres.Genre.Copy | domain/src/main/java/io/github/catalogo/admin/domain/genre/Genre.java:65-75 | a distinct object with every field equal; raises only for a genre with an invalid name, with the constructor's NotificationException carrying the validator's one error |
| Genres.Genre.Validate | domain/src/main/java/io/github/catalogo/admin/domain/genre/Genre.java:77-80 | runs the genre validator on the name alone |
| Genres.Genre.Deactivate | domain/src/main/java/io/github/catalogo/admin/domain/genre/Genre.java:106-113 | returns the same object, now a deactivation of its old state; keeps a valid name valid |
| Genres.Genre.Activate | domain/src/main/java/io/github/catalogo/admin/domain/genre/Genre.java:115-120 | returns the same object, active, without deletion time; keeps a valid name valid |
| Paging.Map | application/src/main/java/io/github/catalogo/admin/application/category/retrieve/list/DefaultListCategoryUseCase.java:19-20 | keeps page, size and total; items mapped one by one, same count and order |
| Paging.MapIdentity | application/src/main/java/io/github/catalogo/admin/application/genre/retrieve/list/DefaultListGenreUseCase.java:19-20 | mapping the identity changes nothing |
| Paging.MapCompose | application/src/main/java/io/github/catalogo/admin/application/genre/retrieve/list/DefaultListGenreUseCase.java:19-20 | mapping twice equals mapping the composition |
| Paging.MapEmpty | application/src/test/java/io/github/catalogo/admin/application/category/retrieve/list/ListCategoryUseCaseTests.java:65-94 | an empty page maps to an empty page with the same metadata |
| CategoryGateways.CountAppend | application/src/test/java/io/github/catalogo/admin/application/category/update/UpdateCategoryUseCaseTests.java:187-188 | call counts of a log add up over concatenation |
| CategoryGateways.DeleteFromStore | infrastructure/src/test/java/io/github/catalogo/admin/application/category/delete/DeleteCategoryUseCaseTestsIT.java:32-52 | deleting removes a stored id, leaves an absent id's store unchanged, keeps every other entry |
| CategoryUseCases.ListOutputFrom | application/src/main/java/io/github/catalogo/admin/application/category/retrieve/list/CategoryListOutput.java:15-23 | the item copies id, name, description, flag, creation and deletion times; it is active exactly when it has no deletion time if the category is consistent |
| CategoryUseCases.ListOutputProjects | application/src/main/java/io/github/catalogo/admin/application/category/retrieve/list/CategoryListOutput.java:15-23 | the item copies id, name, description, flag, creation and deletion times; it is consistent when the category is; the update time plays no part |
| CategoryUseCases.Guarded | application/src/main/java/io/github/catalogo/admin/application/category/create/DefaultCreateCategoryUseCase.java:30-34 | a raised gateway failure becomes a Left with exactly one error holding its message; a return becomes Right of its output |
| CategoryUseCases.PersistOutcome | application/src/main/java/io/github/catalogo/admin/application/category/create/DefaultCreateCategoryUseCase.java:25-33 | Left exactly for an invalid name or a failing gateway, always with one error: the validator's when the name is invalid, else the failure's message |
| CategoryUseCases.PersistOutcomeSucceedsOnlyWhenPersisted | application/src/main/java/io/github/catalogo/admin/application/category/update/DefaultUpdateCategoryUseCase.java:41-48 | Right exactly when the name is valid and the gateway did not raise; every Left has an error |
| CategoryUseCases.CreateCategoryUseCase.Execute | application/src/main/java/io/github/catalogo/admin/application/category/create/DefaultCreateCategoryUseCase.java:22-28 | builds `newCategory` from the command; `create` is called once with it exactly when its name is valid, never otherwise; the result is `PersistOutcome`; the store gains the category only on success |
| CategoryUseCases.CreateCategoryUseCase.Create | application/src/main/java/io/github/catalogo/admin/application/category/create/DefaultCreateCategoryUseCase.java:30-34 | one `create` call; its failure becomes a one-error notification, its success the category's id |
| CategoryUseCases.NotFoundFor | application/src/main/java/io/github/catalogo/admin/application/category/update/DefaultUpdateCategoryUseCase.java:50-52 | the NotFoundException naming Category and the id, with no errors |
| CategoryUseCases.UpdateCategoryUseCase.Execute | application/src/main/java/io/github/catalogo/admin/application/category/update/DefaultUpdateCategoryUseCase.java:27-42 | a null id raises before any call; `findById` is called once; its failure and an absent id (NotFound) raise with no further call; else the loaded category is updated in place and `update` is called once exactly when the name is valid; the result is `PersistOutcome` |
| CategoryUseCases.UpdateCategoryUseCase.Update | application/src/main/java/io/github/catalogo/admin/application/category/update/DefaultUpdateCategoryUseCase.java:44-48 | one `update` call; its failure becomes a one-error notification, its success the category's id |
| CategoryUseCases.UpdatePersistsCommand | application/src/test/java/io/github/catalogo/admin/application/category/update/UpdateCategoryUseCaseTests.java:98-131 | the updated category holds the command's fields, a deletion time exactly when the command is inactive; `findById` counted once, `update` at most once |
| CategoryUseCases.GetCategoryByIdUseCase.Execute | application/src/main/java/io/github/catalogo/admin/application/category/retrieve/get/DefaultGetCategoryByIddUseCase.java:23-29 | one `findById` with the id; the stored fields, NotFound naming Category and the id, or the gateway's failure unchanged; the store is untouched |
| CategoryUseCases.DeleteCategoryUseCase.Execute | application/src/main/java/io/github/catalogo/admin/application/category/delete/DefaultDeleteCategoryUseCase.java:16-19 | one `deleteById` with the id and no lookup; success even for an unknown id; the gateway's failure raises |
| CategoryUseCases.ListCategoryUseCase.Execute | application/src/main/java/io/github/catalogo/admin/application/category/retrieve/list/DefaultListCategoryUseCase.java:17-21 | one `findAll` with the query; the page's metadata kept and its items projected in order; the gateway's failure raises |
| GenreUseCases.ListOutputFrom | application/src/main/java/io/github/catalogo/admin/application/genre/retrieve/list/GenreListOutput.java:17-27 | name, flag, creation and deletion times copied; categories are the ids' values, same length and order |
| GenreUseCases.ListOutputKeepsCategories | application/src/main/java/io/github/catalogo/admin/application/genre/retrieve/list/GenreListOutput.java:21-23 | two genres give the same category values exactly when they hold the same category ids |
| GenreUseCases.ListOutputForgetsIdAndUpdate | application/src/main/java/io/github/catalogo/admin/application/genre/retrieve/list/GenreListOutput.java:9-15 | the item has neither the id nor the update time |
| GenreUseCases.GetGenreByIdUseCase.Execute | application/src/main/java/io/github/catalogo/admin/application/genre/retrieve/get/DefaultGetGenreByIdUseCase.java:18-24 | one `findById` with the id; the stored genre (whose name is valid), NotFound naming Genre and the id, or the gateway's failure; the store is untouched |
| GenreUseCases.DeleteGenreUseCase.Execute | application/src/main/java/io/github/catalogo/admin/application/genre/delete/DefaultDeleteGenreUseCase.java:16-19 | one `deleteById` with the id and no lookup; success even for an unknown id; the gateway's failure raises |
| GenreUseCases.ListGenreUseCase.Execute | application/src/main/java/io/github/catalogo/admin/application/genre/retrieve/list/DefaultListGenreUseCase.java:17-21 | one `findAll` with the query; metadata kept, items projected in order; the gateway's failure raises |

## Literals the tests disagree with

The model uses the code's literals. Lemmas prove that each one differs from what the tests expect.

- `NotFoundException.java:22` formats "... not found". The application tests expect "... was not
  found" (`UpdateCategoryUseCaseTests.java:172`, `GetCategoryByIdUseCaseTests.java:66`). See
  `DomainExceptions.NotFoundMessageDiffersFromTests`.
- `GenreValidator.java:12-13` says "should not be blank" and "should be between 1 and 255
  characters". The domain tests expect "should not be empty" (`GenreTest.java:51`) and "must be
  between 1 and 255 characters" (`GenreTest.java:73`). See `GenreValidator.MessagesDifferFromTests`.

## Notes on the code

- `CategoryId.from(String)` and `GenreId.from(String)` refuse only null, so the empty string is a
  valid identifier (`CategoryIds.From`, `GenreIds.From`).
- Genre's "shorter than 1" rule is not dead code. `isBlank` and `trim` disagree on control
  characters, so "\0" reaches it (`GenreValidator.NulNameFailsLengthRule`).

## Left out

- The HTTP/JSON layer, the JPA/SQL gateways and repositories, Spring wiring, and the integration
  and end-to-end harnesses. The gateways are replaced by the in-memory `CategoryGateway` and
  `GenreGateway`.
- Searching, sorting and paging inside `findAll`: that is the database's work. The in-memory
  gateway answers with a prepared page. Only what the use cases do with that page is modelled.
- The real clock, the microsecond truncation of `InstantUtils.now()`, and `UUID.randomUUID()`. They
  become the abstract clock and a UUID parameter.
- `Notification`, `Error`, `DomainException`, `Pagination`, `CategoryOutput` and `GenreOutput` are not
  part of this model. Each gets only the shape the modelled code uses. The two outputs carry every
  field of their aggregate.
- `DefaultCreateGenreUseCase`, the genre update use case, and the missing-category rule the genre
  create tests describe: no implementation of them is part of this model. The genre gateway's
  `create` and `update` are left out with them, because no modelled code calls them.
- A null `categories` list in `Genre`. The list is a sequence value, which also makes the copy in
  `Genre.with(Genre)` independent of the original.
- `ValidationHandler.append(aHandler)` and `validate(op)` for the accumulating handler, since
  `Notification` is not part of this model. Only the throwing handler's versions are modelled.
- Gateway failures carry only their message. The exception class of a raised gateway failure is not
  modelled.
- List items are built from the fields of each page entry, not from shared objects, so aliasing
  between a page and the store is not modelled.
- ThrowsValidationHandler.Validate: catches every failure of the validation, while the code catches
  only `Exception`, so a `java.lang.Error` would escape it; and the message it wraps is always a
  string, while `getMessage()` may be null.
- CategoryUseCases.Guarded: likewise turns every gateway failure into a notification and always
  carries a message string; a `java.lang.Error` escaping `Try` and a null `getMessage()` are not
  modelled.
- ValidationHandler.FirstErrorAgreesWithHasError: an error list here cannot hold null. In Java a list
  `[null]` has `hasError()` true and `firtsError()` null, so the equivalence holds only for lists
  without null elements.
