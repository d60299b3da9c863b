# Subscriber and mobile-line registry — a Dafny model

This project models the service layer of a small mobile-operator registry.
The registry keeps subscribers and the mobile lines issued to them. It offers
four remote procedures: `get_subscriber`, `create_subscriber`,
`get_mobile_line` and `create_mobile_line`. Behind them sit two rules:

- a subscriber must be at least 18 whole years old;
- a subscriber may hold at most 10 lines.

The storage adds the constraints declared on the two models: primary keys,
a unique national code, a unique line number, length bounds, and the foreign
key from a line to its subscriber.

The store is two finite maps keyed by integer id (`Models.Store`). Each
service operation is a pure function. A lookup returns a `Result`: the
record or a `NotFound` fault. A create returns a `Reply`: the `Result` plus
the store after the call. Faults are the datatype `Faults.Fault`, one
constructor per kind the services raise.

Files:

- `faults.dfy` — `Faults`: the fault kinds and `Result`.
- `dates.dfy` — `Dates`: dates as (year, month, day). The order is the
  lexicographic one that Python dates and `(month, day)` tuples use.
- `models.dfy` — `Models`: the `Subscriber` and `MobileLine` records, their
  declared bounds, the store, and the store invariant `Valid`. The line count
  per subscriber is `LineCount`.
- `subscriber.dfy` — `SubscriberService`: `Age`, `IsLegalAge`,
  `GetSubscriber`, `CreateSubscriber` and the lemmas about them.
- `mobileline.dfy` — `MobileLineService`: `CountLines`, `ValidLineCounts`,
  `GetMobileLine`, `CreateMobileLine` and the lemmas about them.
- `scenario.dfy` — `Scenario`: the registration sequence the test fixtures
  use, proved step by step.

How the operations decide:

- `CreateSubscriber(st, s, today)` checks the legal age first. An underage
  request gets `Underage` even when its keys clash. Next comes the insert. A
  duplicate `id` or a duplicate national code gets
  `AlreadyExists(SubscriberEntity)`. The clock is not read: `today` is a
  parameter.
- `CreateMobileLine(st, l)` checks the cap first. A subscriber with 10 or
  more lines gets `TooManyLines` even when the keys also clash. Next, a
  duplicate `id` or number gets `AlreadyExists(MobileLineEntity)`. Last, a
  line whose subscriber is not stored gets `UnknownSubscriber`.
- A refused create leaves the store unchanged. A successful one adds exactly
  the input record under its id and returns it.

Three points about the source's behaviour shape the model:

- The code also refuses a duplicate primary key. Django inserts an explicit
  `id` with a forced INSERT, and the clash raises the same `IntegrityError`
  that is mapped to `AlreadyExists` (core/services/subscriber.py:65-69,
  core/services/mobileline.py:63-67).
- The checks run in a fixed order: the business rule, then the insert
  (core/services/subscriber.py:59-66, core/services/mobileline.py:57-64).
- The code never checks that a line's subscriber exists. The model reports a
  missing subscriber as its own fault, `UnknownSubscriber`, and checks it
  after the key clashes. This fault is an addition of the model. It is not
  part of the source's `AlreadyExists` mapping.

## Model

| member | source | states |
|---|---|---|
| SubscriberService.Age | core/services/subscriber.py:75-76 | the whole-year age is the number of anniversaries of the birthdate that fall on or before today: the age-th anniversary is not after today, and the next one is after it |
| SubscriberService.IsLegalAge | core/services/subscriber.py:72-77 | legal age holds exactly when the 18th anniversary of the birthdate (same month and day, year plus 18) is on or before today |
| SubscriberService.EighteenthBirthdayIsLegal | core/services/subscriber.py:75-77 | inclusive boundary: a birthdate with today's month and day, exactly 18 years earlier, is of legal age |
| SubscriberService.BeforeEighteenthBirthdayIsNotLegal | core/services/subscriber.py:75-77 | a birthdate 18 years back whose month and day are still ahead this year is not of legal age |
| SubscriberService.LegalAgeMonotoneInBirthdate | core/services/subscriber.py:75-77 | anyone born on or before a person of legal age is of legal age too |
| SubscriberService.LegalAgeMonotoneInToday | core/services/subscriber.py:74-77 | once of legal age, a person stays of legal age on every later day |
| SubscriberService.GetSubscriber | core/services/subscriber.py:43-47 | returns the stored subscriber when the key is present, and NotFound(Subscriber) otherwise |
| SubscriberService.CreateSubscriber | core/services/subscriber.py:59-69 | underage gives Underage, whatever the keys; otherwise a taken id or national code gives AlreadyExists(Subscriber); success happens exactly when neither applies; a refusal leaves the store unchanged; success stores the input under its id, changes no other subscriber and no line, and returns the stored record |
| SubscriberService.CreateSubscriberPreservesValid | core/models.py:13-38 | from a valid store and an input within the declared bounds, create keeps every invariant: keys match ids, national codes unique, bounds, foreign key |
| SubscriberService.GetAfterCreateSubscriber | core/services/subscriber.py:43-66 | round trip: after a successful create, a lookup of its id returns the created record |
| SubscriberService.GetSubscriberReturnsRequestedId | core/models.py:13-17 | in a valid store, a successful lookup returns a record whose id is the requested key |
| SubscriberService.SecondCreateSubscriberFails | core/services/subscriber.py:65-69 | of two creates sharing a national code or an id, the second fails once the first has succeeded |
| Models.LinesOfAfterInsert | core/services/mobileline.py:78 | adding a line under a fresh id adds exactly that id to its subscriber's set of lines, so that count grows by one; every other subscriber's lines and count stay the same |
| Models.EmptyStoreIsValid | core/models.py:5-80 | the empty store satisfies every record invariant and holds no lines |
| Models.Valid | core/models.py:13-80 | the store invariant: each record stored under its own id, national codes and numbers unique, declared length bounds, every line's subscriber stored; it implies that an unstored subscriber owns no line. EmptyStoreIsValid, CreateSubscriberPreservesValid and CreateMobileLinePreservesValid show it holds initially and after every create |
| MobileLineService.ValidLineCounts | core/services/mobileline.py:70-80 | the cap check admits a subscriber exactly when storing one more line for it, under any fresh id, leaves it with at most 10 lines |
| MobileLineService.CountLines | core/services/mobileline.py:78 | one scan over the stored lines yields the number of lines whose subscriber is the given id |
| MobileLineService.GetMobileLine | core/services/mobileline.py:41-45 | returns the stored line when the key is present, and NotFound(MobileLine) otherwise |
| MobileLineService.CreateMobileLine | core/services/mobileline.py:57-67 | a subscriber with 10 or more lines gives TooManyLines, whatever the keys; otherwise a taken id or number gives AlreadyExists(MobileLine); an unknown subscriber gives UnknownSubscriber; success happens exactly when none applies; a refusal leaves the store unchanged; success stores the input under its id, changes no other line and no subscriber, and returns the stored line |
| MobileLineService.CreateMobileLineCounts | core/services/mobileline.py:57-64 | a successful create raises its subscriber's line count by exactly one, to at most 10, and leaves every other subscriber's count unchanged |
| MobileLineService.CreateMobileLinePreservesValid | core/models.py:61-80 | from a valid store within the cap and an input within the declared bounds, create keeps every invariant and the cap: ids match keys, numbers unique, bounds, foreign key, at most 10 lines each |
| MobileLineService.GetAfterCreateMobileLine | core/services/mobileline.py:41-64 | round trip: after a successful create, a lookup of its id returns the created line |
| MobileLineService.GetMobileLineReturnsRequestedId | core/models.py:61-65 | in a valid store, a successful lookup returns a line whose id is the requested key |
| MobileLineService.SecondCreateMobileLineFails | core/services/mobileline.py:63-67 | of two creates sharing a number or an id, the second fails once the first has succeeded |
| MobileLineService.TenthLineAcceptedEleventhRefused | core/services/mobileline.py:57-80 | a subscriber with 9 lines gets a 10th line with fresh keys; then the count is 10 and any further line for it is refused with TooManyLines |
| Scenario.RegistrationWalkThrough | core/tests/test_subscriber_service.py:22-27 | from an empty store: the subscriber of this fixture (id 1, national code 0123456789, born 1990-06-16) is created and found; a second subscriber reusing that national code is refused with AlreadyExists, a step the model adds since no test tries a duplicate; the line of the fixture in core/tests/test_get_mobile_line.py:28-30 (id 1, number 051556, subscriber 1) is then created and found; the final store is valid |
| Dates.OnOrBeforeIsTotalOrder | core/services/subscriber.py:75-76 | the date order the age rule relies on is reflexive, antisymmetric, transitive and total |

## Left out

- The SOAP layer is not modelled: the `DjangoComplexModel` wrappers, the `@rpc` decorators and the XML encoding. Routing (`core/urls.py`, `config/urls.py`) and the admin are not modelled either. They are protocol mapping and configuration.
- `date.today()` is a clock read. `today` is a parameter of `IsLegalAge` and `CreateSubscriber` instead.
- Field length bounds are not checked by the service code. The schema that Spyne derives from the model fields enforces them: `core/urls.py` validates incoming requests with lxml. The model therefore assumes the bounds only as preconditions of the invariant-preservation lemmas. The create functions accept any input.
- Ids are unbounded integers in the model, but the columns are Django `IntegerField`s (core/models.py:13, core/models.py:61): 32-bit on PostgreSQL and MySQL, 64-bit on SQLite. The create request's `id` and a line's `subscriber_id` take their types from the model mapping (core/services/subscriber.py:22-23, core/services/mobileline.py:20-21). A create whose id or subscriber id lies outside the column's range raises `DataError` or `OverflowError`. That is not an `IntegrityError`, so the services do not catch it and the caller gets a generic server fault, while the model answers `Ok` or `UnknownSubscriber`. For lookups the outcome depends on the engine. PostgreSQL and MySQL find no row and answer `NotFound`, as the model does. SQLite's driver raises `OverflowError` for keys of 2^63 or more, which the model does not reproduce.
- The foreign-key failure is not modelled as the database reports it. When and how that failure surfaces depends on the database engine and the transaction mode. `UnknownSubscriber` stands in for it.
- Concurrency is not modelled. The count-then-insert and check-then-insert races under concurrent requests are out of scope. Each call is one atomic transition on the store.
- Cascade delete (`on_delete=CASCADE`) is not modelled: no service operation deletes anything.
- Creates without an `id` are not modelled: the input record always carries one. The `id` fields have no default, and the tests do send such requests (core/tests/test_subscriber_service.py:43-54, core/tests/test_get_mobile_line.py:46-54). What then happens depends on the database engine. SQLite assigns a row id and the insert succeeds. An engine that rejects the NULL key raises `IntegrityError`, which the services report as `AlreadyExists` even when every key is fresh.
- `__str__`, `verbose_name`, translation strings and the fault message texts are not modelled. Faults are constructors without text.
- Non-empty names are not modelled. `blank=False` applies to form validation only, which these services never run.
- The test cases that check HTTP status codes and `Content-Type` headers are not modelled. They exercise the web layer, not the domain logic.
