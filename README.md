# Conference backend: request handling and persistence rules

This project is a Dafny model of the server behind a developer-community
conference site: an Express application over MongoDB (through Mongoose). It
covers:

- **Events** (`routes/events.js`, `models/Event.js`). Events are listed,
  read, created, registered for, updated and deleted. The model keeps the
  handlers' presence checks and the parsing of the date and the seat count.
  It keeps the `trim()` calls, the schema's validation, the
  `registrations.length >= availableSeats` guard, the `updatedAt` pre-save
  hook, and the 404/400/500 answers the handlers give.
- **Registrations** (`routes/registrations.js`, `models/Registration.js`).
  The model covers the validators of every path and the `trim`/`lowercase`
  setters. It covers the pre-save hook that reads the Event collection for
  the event's existence and date, and the unique `(eventId, email)` index.
  It also covers the status update, the lookups and deletion, and the two
  listings sorted by `registeredAt`.
- **Sponsors** (`models/Sponsor.js`,
  `middleware/validateSponsorSubmission.js`, `models/SponsorSubmission.js`,
  `routes/sponsorRoutes.js`). These are the sponsor middleware's five checks,
  both sponsor schemas, the submit handler's chain of checks in front of
  `create`, and the listing.
- **Interest forms** (`models/EmailSubmission.js`, `routes/emailRoutes.js`).
  This covers the schema, the unique `userNumber` index, and the
  "already submitted" lookup by e-mail.
- **Speaker proposals** (`middleware/validateSubmission.js`,
  `models/SpeakerSubmission.js`). These are the Joi schema run with
  `abortEarly: false`, and the Mongoose schema with its `lastUpdated` hook.
- **CORS** (`index.js`). This is the `origin` callback's allow/deny decision.

Documents are datatypes. A collection is a class whose `docs` field maps
document ids to documents. Its methods perform the handlers' steps, and each
method is proved against a function that states the handler's decision.

A request body is a record of `Json` members. Each member is absent, `null`,
a boolean, an integer or a string. The behaviour the source borrows from its
platform is a `Common.Platform` parameter and is not modelled further:

- `ObjectId.isValid`
- `new Date`
- `parseInt`
- `new URL`
- the word-based e-mail expression
- Joi's e-mail rule
- whether Mongoose runs setters on query values

The other three regular expressions are stated exactly: `\S+@\S+\.\S+`,
`^\+?[\d\s-]{10,}$` and `^[0-9]{10}$`. So is JavaScript's `trim`.

Where the library's documented behaviour decides an outcome that the source
text leaves open, the model follows the library. For example, Mongoose
validates a document before user pre-save hooks run and reports one error per
path. Joi checks `valid(...)` before the type; because the speaker schema is
run without aborting early, a value outside `valid(...)` still goes through
the type check, so it can be reported twice (any.only, then string.base,
string.empty or boolean.base). Joi reports unknown keys after the known
ones.

## Model

| member | source | states |
|---|---|---|
| Common.NormaliseIsNormal | models/Registration.js:14-19 | a `trim` + `lowercase` path stores a value with no white space at its ends and no capital letter, and normalising it again changes nothing |
| Common.TrimLowerCommute | models/Registration.js:17-18 | trimming and lower-casing commute, so the order of the two setters does not matter |
| Common.FilterSpec | routes/events.js:40 | `filter` keeps exactly the elements that pass, in their order |
| Query.SortedSelection | routes/events.js:8 | `find(filter).sort({ key: -1 })` answers every matching document exactly once, no other, with keys never increasing |
| Query.SelectionCount | routes/registrations.js:57-63 | the reported `count`/`results` equals the number of matching documents |
| EventModel.SchemaErrors | models/Event.js:3-36 | validation passes exactly when title, description, time and location are non-empty and `availableSeats >= 1`; at most one error per path |
| EventModel.SavedStampsOnlyUpdatedAt | models/Event.js:55-59 | the pre-save hook sets `updatedAt` to now, changes nothing else, and keeps validity |
| Events.MissingFields | routes/events.js:38-48 | the reported fields are exactly the falsy required members, in the list's order |
| Events.NewEvent | routes/events.js:68-78 | the document is built exactly when the `trim()` calls succeed (title, description, location strings; long description absent, null or a string); it is trimmed, has no registrations and is stamped now |
| Events.CreateOutcome | routes/events.js:30-118 | 400 with the missing fields exactly when a required member is falsy; with none missing, "invalid date" exactly when the date does not parse, then "invalid seats" exactly when the seat count does not parse or is below 1; 500 exactly when a `trim()` throws; created exactly when everything parses and the built document passes the schema, otherwise 400 with the schema's errors; a created event passes the schema, is trimmed, has no registrations and is stamped now |
| Events.CreateStoresRequest | routes/events.js:50-87 | a created event holds the trimmed text, '' for an absent long description or image, the parsed date and seat count (at least 1) and the time label as sent |
| Events.BlankTitleFailsValidation | routes/events.js:68-109 | a title of blanks passes the presence check, is trimmed to '' and fails the schema's `required` |
| Events.FindById | routes/events.js:17-27 | found exactly for a stored id; 404 exactly for a well-formed id that is not stored; any other id is a CastError (500) |
| Events.RegisterOutcome | routes/events.js:120-142 | registration succeeds exactly when the event exists, has a free seat and the pushed entry casts to an ObjectId; 404 and "no seats" exactly in their cases |
| Events.RegisterKeepsSeatBound | routes/events.js:128-135 | a registration (as intended) keeps the entries within the seat count, adds at most the one entry, and changes no other event |
| Events.RepeatedRegistrations | routes/events.js:128-135 | any series of register requests keeps the event within its seat count and adds at most one entry per request |
| Events.AnonymousRegistrationFails | routes/events.js:133-140 | as written, a request without `userId` is answered with 500 and takes no seat, even with seats free, where the intended handler registers it |
| Events.IntendedRegisterOutcome | routes/events.js:120-142 | with the placeholder accepted, registration succeeds exactly when the event exists and has a free seat and the entry is a user id or the placeholder |
| Events.IntendedAnonymousTakesSeat | routes/events.js:133-137 | as intended, an anonymous request takes a free seat and is refused exactly when the seats are taken |
| Events.BuildPatch | routes/events.js:167-185 | the handler's member-by-member `updateData` equals the patch the update is specified with |
| Events.UpdateOutcome | routes/events.js:158-207 | 404 exactly for a well-formed id that is not stored; the update succeeds exactly when the event is stored and the patch casts and passes the update validators, and the new event is the old one with the patch applied |
| Events.UpdateTouchesOnlySuppliedFields | routes/events.js:167-196 | an update overwrites exactly the members sent (truthy ones; long description and image whenever present); registrations and both timestamps are unchanged |
| Events.UpdateKeepsEventValid | routes/events.js:188-196 | an update keeps a valid, trimmed event valid and trimmed |
| Events.UpdateIgnoresRegistrations | routes/events.js:175 | the seat count can be set below the number of registrations: any parsed value of at least 1 is stored |
| Events.UpdateRejectsSeatsBelowOne | routes/events.js:175-205 | a truthy seat value parsing below 1 fails the `min` validator and nothing is updated |
| Events.EventTable.List | routes/events.js:6-14 | every event once, latest date first |
| Events.EventTable.Get | routes/events.js:17-28 | the stored event for a stored id, 404 for a well-formed missing id, 500 otherwise |
| Events.EventTable.Create | routes/events.js:30-118 | answers as `CreateOutcome`, stores the created event under a fresh id and nothing else, and keeps every stored event valid |
| Events.EventTable.Register | routes/events.js:120-142 | answers as `IntendedRegisterOutcome` (the handler with the placeholder accepted), appends the entry and stamps `updatedAt` only on success, and keeps every event valid |
| Events.EventTable.Update | routes/events.js:158-207 | answers as `UpdateOutcome` and replaces only that event, keeping the collection valid |
| Events.EventTable.Delete | routes/events.js:144-156 | removes exactly the event for a stored id; 404 for a well-formed missing id; nothing changes otherwise |
| RegistrationModel.EventIdError | models/Registration.js:4-8 | `eventId` passes exactly when it is a string that is an ObjectId |
| RegistrationModel.NameError | models/Registration.js:9-13 | `name` passes exactly when it is non-empty once trimmed |
| RegistrationModel.EmailError | models/Registration.js:14-20 | `email` passes exactly when its trimmed, lower-cased value is non-empty and matches `\S+@\S+\.\S+` |
| RegistrationModel.PhoneError | models/Registration.js:21-26 | `phone` passes exactly when its trimmed value is ten digits |
| RegistrationModel.GithubError | models/Registration.js:27-36 | `githubAccount` passes exactly when absent, empty once trimmed, or starting with `https://github.com/` |
| RegistrationModel.LinkedinError | models/Registration.js:37-47 | `linkedinId` passes exactly when non-empty once trimmed and starting with one of the two LinkedIn prefixes |
| RegistrationModel.PortfolioError | models/Registration.js:48-63 | `portfolio` passes exactly when absent, empty once trimmed, or a URL |
| RegistrationModel.RegisteredAtError | models/Registration.js:64-67 | `registeredAt` passes exactly when absent or a value the date cast accepts |
| RegistrationModel.StatusError | models/Registration.js:68-72 | `status` passes exactly when absent or one of the three values |
| RegistrationModel.ValidationErrors | models/Registration.js:3-75 | no error exactly when every path passes, `registeredAt` included; at most one message per path |
| RegistrationModel.NewRegistrationConforms | models/Registration.js:3-75 | a body that passes validation yields a document meeting every constraint, with the normalised e-mail, the status sent or 'pending', and the `registeredAt` sent or, without one, the current time |
| RegistrationModel.HookError | models/Registration.js:80-101 | the hook lets a new registration through exactly when its event exists and its date is not before now; a missing event fails with "Event not found", a past one with "Registration is closed for past events" |
| Registrations.CreateOutcome | routes/registrations.js:8-42 | 400 exactly when validation fails, its message the validation messages joined by ", "; a valid body's document goes to `save` (hook, then unique index) |
| Registrations.SaveNew | routes/registrations.js:10-26 | a validated document is stored exactly when the hook passes and its (event, e-mail) pair is free; a taken pair gives "already registered"; a failing hook gives 500 with that hook's own message |
| Registrations.InsertKeepsTableValid | models/Registration.js:77-78 | inserting a conforming document with a free pair keeps every document conforming and every pair unique |
| Registrations.CreateKeepsTableValid | routes/registrations.js:8-42 | creating keeps the collection valid, and changes nothing unless it succeeds |
| Registrations.SecondRegistrationRefused | routes/registrations.js:20-26 | a second registration for the same event whose e-mail differs only in case or surrounding blanks is refused as a duplicate |
| Registrations.ClosedEventRejected | models/Registration.js:91-94 | a valid body for a past event is refused with the hook's message; an event dated exactly now is open |
| Registrations.CreateIgnoresSeats | models/Registration.js:80-101 | the outcome depends on the Event collection only through which events exist and their dates |
| Registrations.StatusOutcome | routes/registrations.js:109-156 | 400 exactly for a malformed id, then exactly for a value other than the three strings; 404 exactly for a missing registration |
| Registrations.StatusUpdateOnlyStatus | routes/registrations.js:131-135 | the status update sets the status and `updatedAt` and nothing else, from any status, and keeps the document conforming |
| Registrations.MixedCaseEmailFindsNothing | routes/registrations.js:158-164 | without setters on query values, an address with a capital letter finds no registration |
| Registrations.EmailQueryIgnoresCase | routes/registrations.js:161-164 | with setters on query values, an address finds the same registrations as its normalised form |
| Registrations.RegistrationTable.Create | routes/registrations.js:8-42 | answers as `CreateOutcome`, stores only a created registration and keeps the collection valid; the Event collection is outside its frame, so it is only read |
| Registrations.RegistrationTable.UpdateStatus | routes/registrations.js:109-156 | answers as `StatusOutcome`, replaces only that registration and keeps the collection valid |
| Registrations.RegistrationTable.Get | routes/registrations.js:74-107 | 400 exactly for a malformed id, 404 exactly for a missing one, otherwise the stored registration |
| Registrations.RegistrationTable.Delete | routes/registrations.js:180-213 | removes exactly that registration; 400 and 404 exactly in their cases |
| Registrations.RegistrationTable.ListByEvent | routes/registrations.js:44-72 | 400 exactly for a malformed event id; otherwise that event's registrations once each, latest first, and their number |
| Registrations.RegistrationTable.ListByEmail | routes/registrations.js:158-178 | the registrations under the queried address once each, latest first, and their number |
| SponsorMiddleware.Validate | middleware/validateSponsorSubmission.js:1-35 | the middleware's pushes give the verdict of `Expected`: it throws on a non-string truthy name or company, proceeds when no field fails, and otherwise answers with the errors of the failing fields in order |
| SponsorMiddleware.RejectsExactlyFailingFields | middleware/validateSponsorSubmission.js:4-32 | the request passes exactly when no check fails; a rejection lists one `{ field, message }` per failing field, with that field's name and message; the reported fields are failing ones, every failing one is reported, and they keep the order name, email, company, phone, package |
| SponsorMiddleware.InFailingFields | middleware/validateSponsorSubmission.js:6-24 | a field is among the reported ones exactly when its check fails |
| SponsorMiddleware.ReportedErrors | middleware/validateSponsorSubmission.js:6-32 | an error is in the 400 exactly when the field it names failed its check, and it carries that field's message |
| SponsorMiddleware.NameEdgeCases | middleware/validateSponsorSubmission.js:6-8 | a name of blanks around one character is too short; a numeric name makes `trim` throw |
| SponsorModel.RequiredCheck | models/Sponsor.js:4-8 | a trimmed required path passes exactly when it is non-empty once trimmed |
| SponsorModel.EmailCheck | models/Sponsor.js:9-15 | `email` passes exactly when its normalised value is non-empty and matches the word-based pattern |
| SponsorModel.PackageCheck | models/Sponsor.js:30-34 | `package` passes exactly when it is one of the four names |
| SponsorModel.StatusCheck | models/Sponsor.js:42-46 | `status` passes exactly when absent or one of the three values |
| SponsorModel.ViolationsListFailingPaths | models/Sponsor.js:3-51 | a path is reported, with the validator it failed, exactly when its check fails |
| SponsorModel.ViolationsEmpty | models/Sponsor.js:3-51 | a body saves exactly when name, company and phone are non-blank, the e-mail passes, the package is listed and the status is absent or listed |
| SponsorModel.NewSponsorConforms | models/Sponsor.js:3-51 | a valid body yields a conforming document, 'pending' unless a status was sent |
| SponsorModel.UpperCasePackageRefused | models/Sponsor.js:30-34 | 'GOLD' is refused and 'Gold' accepted: the enumeration is compared exactly |
| SponsorSubmissionModel.BoundedRequired | models/SponsorSubmission.js:5-10 | a required capped path passes exactly when non-blank and at most the cap once trimmed |
| SponsorSubmissionModel.BoundedOptional | models/SponsorSubmission.js:30-34 | an optional capped path passes exactly when absent or at most the cap once trimmed |
| SponsorSubmissionModel.EmailCheck | models/SponsorSubmission.js:11-17 | `email` passes exactly when its normalised value is non-empty and matches `\S+@\S+\.\S+` |
| SponsorSubmissionModel.PhoneCheck | models/SponsorSubmission.js:24-29 | `phone` passes exactly when its trimmed value is non-empty and matches the phone pattern |
| SponsorSubmissionModel.PackageCheck | models/SponsorSubmission.js:35-42 | `package` passes exactly when it is one of the five names |
| SponsorSubmissionModel.ViolationsListFailingPaths | models/SponsorSubmission.js:3-62 | a path is reported, with the validator it failed, exactly when its check fails |
| SponsorSubmissionModel.ViolationsEmpty | models/SponsorSubmission.js:3-62 | a body is stored exactly when every path's constraint holds, stated path by path |
| SponsorSubmissionModel.RenderedErrors | routes/sponsorRoutes.js:107-117 | a `{ field, message }` entry is in the validation 400 exactly when the path it names fails a validator whose message it carries |
| SponsorSubmissionModel.TrimAll | models/SponsorSubmission.js:48-53 | every `additionalOptions` entry is stored trimmed |
| SponsorSubmissionModel.NewSubmissionConforms | models/SponsorSubmission.js:3-62 | a valid body yields a conforming document with the normalised e-mail and the given times |
| SponsorSubmissionModel.NameCapIsInclusive | models/SponsorSubmission.js:5-10 | a trimmed name of 100 characters passes and one of 101 is too long |
| SponsorRoutes.MissingFields | routes/sponsorRoutes.js:19-40 | the reported fields are exactly the falsy required members, in order |
| SponsorRoutes.SubmitOutcome | routes/sponsorRoutes.js:6-125 | 400 listing exactly the missing fields, in order, exactly when one is falsy; stored exactly when every route check and the schema pass |
| SponsorRoutes.FirstFailureAnswers | routes/sponsorRoutes.js:42-117 | with every member present, the earliest failure of the chain e-mail, phone length, package answers; a body passing all three but failing the schema answers with the schema's errors as `{ field, message }` entries |
| SponsorRoutes.SubmittedConforms | routes/sponsorRoutes.js:65-75 | a stored submission conforms, holds the normalised e-mail and is stamped with the request time |
| SponsorRoutes.PhoneLengthCountsCharacters | routes/sponsorRoutes.js:50-55 | the length check counts characters: "+1-2-3-4-5" passes it but fails the schema's pattern; a number skips it |
| SponsorRoutes.PackageListsCompared | routes/sponsorRoutes.js:57-63 | the route's list is the schema's; the middleware and the Sponsor model share a different list with no name in common |
| SponsorRoutes.InsertKeepsConforming | routes/sponsorRoutes.js:65-75 | storing a conforming submission keeps the collection conforming |
| SponsorRoutes.SponsorTable.Submit | routes/sponsorRoutes.js:6-125 | answers as `SubmitOutcome` whatever the notification does, and stores only a submitted document |
| SponsorRoutes.SponsorTable.List | routes/sponsorRoutes.js:127-144 | every submission once, newest first, and their number |
| EmailModel.EmailCheck | models/EmailSubmission.js:9-15 | `userEmail` passes exactly when its normalised value is non-empty and matches the word-based pattern |
| EmailModel.InterestCheck | models/EmailSubmission.js:16-20 | `userInterest` passes exactly when it is one of the five areas |
| EmailModel.NumberCheck | models/EmailSubmission.js:21-28 | `userNumber` passes exactly when its trimmed value is non-empty with 10 to 15 characters |
| EmailModel.ViolationsListFailingPaths | models/EmailSubmission.js:3-33 | a path is reported, with the validator it failed, exactly when its check fails |
| EmailModel.ViolationsEmpty | models/EmailSubmission.js:3-33 | a body is stored exactly when the four paths' constraints hold |
| EmailModel.RenderedErrors | routes/emailRoutes.js:83-94 | a `{ field, message }` entry is in the validation 400 exactly when the path it names fails a validator whose message it carries |
| EmailModel.NewSubmissionConforms | models/EmailSubmission.js:3-33 | a valid body yields a conforming document with the normalised e-mail and the trimmed number |
| EmailModel.NumberBounds | models/EmailSubmission.js:21-28 | the bounds count characters and are inclusive: 10 and 15 pass, 9 and 16 fail |
| EmailRoutes.MissingFields | routes/emailRoutes.js:10-30 | the reported fields are exactly the falsy members, in order |
| EmailRoutes.CreateOutcome | routes/emailRoutes.js:48-54 | validation errors exactly when a path fails, answered as their `{ field, message }` entries; stored exactly when it passes and the number is free |
| EmailRoutes.SubmitOutcome | routes/emailRoutes.js:6-101 | missing fields exactly when one is falsy; with none missing, "invalid email" exactly when the word-based pattern fails; "already submitted" exactly when the lookup finds the address; past those checks, the answer is `create`'s |
| EmailRoutes.InsertKeepsTableValid | models/EmailSubmission.js:21-28 | inserting a conforming submission with a free number keeps the collection conforming with unique numbers |
| EmailRoutes.StoredAddressRefused | routes/emailRoutes.js:40-46 | an address stored in exactly that form is refused |
| EmailRoutes.CaseVariantPassesGuard | routes/emailRoutes.js:40-54 | without setters on query values, an address with a capital letter passes the guard and can be stored a second time |
| EmailRoutes.CaseVariantRefusedWithSetters | routes/emailRoutes.js:40-46 | with setters on query values, a case variant of a stored address is refused |
| EmailRoutes.EmailTable.Submit | routes/emailRoutes.js:6-101 | answers as `SubmitOutcome`, stores only a submitted document, keeps numbers unique |
| EmailRoutes.EmailTable.List | routes/emailRoutes.js:103-120 | every submission once, newest first, and their number |
| SpeakerValidation.StringRule | middleware/validateSubmission.js:4-12 | a string key passes exactly when it is a non-empty string whose untrimmed length is within the bounds |
| SpeakerValidation.EmailRule | middleware/validateSubmission.js:14-20 | `email` passes exactly when it is a non-empty string Joi accepts as an address |
| SpeakerValidation.TalkTypeRule | middleware/validateSubmission.js:40-45 | `talkType` passes exactly when it is one of the four strings; an absent one is any.required; any other value is any.only, followed by string.base for a non-string and string.empty for '' |
| SpeakerValidation.ExperienceRule | middleware/validateSubmission.js:57-58 | the flag passes exactly when absent or convertible to a boolean |
| SpeakerValidation.TermsRule | middleware/validateSubmission.js:60-65 | the terms pass exactly when they convert to `true`; absent terms are any.required; any other value is any.only, followed by boolean.base when it does not convert to a boolean |
| SpeakerValidation.DetailsCollectEveryFailure | middleware/validateSubmission.js:69 | with `abortEarly: false`, every key is reported with each issue its rule records and no other, and every unknown key is reported |
| SpeakerValidation.ProceedsExactlyWhenValid | middleware/validateSubmission.js:3-66 | no error exactly when there is no unknown key and every key's constraint holds, stated key by key |
| SpeakerValidation.Validate | middleware/validateSubmission.js:68-85 | proceeds exactly when there is no detail; otherwise one `{ field, message }` per detail, in order |
| SpeakerValidation.LengthsAreUntrimmed | middleware/validateSubmission.js:4-12 | lengths count blanks: "  " is a long-enough name, "A" too short |
| SpeakerValidation.TypeCheckFollowsAnyOnly | middleware/validateSubmission.js:40-65 | an empty talk type is reported with any.only and string.empty, and terms of 'on' with any.only and boolean.base |
| SpeakerModel.BoundedRequired | models/SpeakerSubmission.js:5-10 | a required trimmed path passes exactly when non-blank and within its bounds once trimmed |
| SpeakerModel.BoundedOptional | models/SpeakerSubmission.js:54-58 | an optional trimmed path passes exactly when absent or within its cap once trimmed |
| SpeakerModel.EmailCheck | models/SpeakerSubmission.js:11-17 | `email` passes exactly when its normalised value is non-empty and matches `\S+@\S+\.\S+` |
| SpeakerModel.TalkTypeCheck | models/SpeakerSubmission.js:30-37 | `talkType` passes exactly when it is one of the four types |
| SpeakerModel.SlotCheck | models/SpeakerSubmission.js:64-68 | `preferredTimeSlot` passes exactly when absent or one of the four slots |
| SpeakerModel.ExperienceCheck | models/SpeakerSubmission.js:45-48 | the flag passes exactly when absent or castable to a boolean |
| SpeakerModel.ViolationsListFailingPaths | models/SpeakerSubmission.js:3-87 | a path is reported, with the validator it failed, exactly when its check fails |
| SpeakerModel.ViolationsEmpty | models/SpeakerSubmission.js:3-87 | a document saves exactly when every path's constraint holds, stated path by path |
| SpeakerModel.NewSubmissionConforms | models/SpeakerSubmission.js:3-87 | a valid document conforms, with experience false and slot 'any' when left out |
| SpeakerModel.Saved | models/SpeakerSubmission.js:93-96 | the hook sets `lastUpdated` to now and changes nothing else |
| SpeakerModel.SavedKeepsConforming | models/SpeakerSubmission.js:93-96 | saving keeps a document conforming |
| SpeakerModel.DescriptionCapsDiffer | models/SpeakerSubmission.js:38-44 | a 1500-character description passes the middleware (cap 2000) and the schema refuses it (cap 1000) |
| SpeakerModel.OrganizationCapsDiffer | models/SpeakerSubmission.js:18-23 | a 150-character organization passes the middleware (cap 200) and the schema refuses it (cap 100) |
| SpeakerModel.BlankNamesDiffer | models/SpeakerSubmission.js:5-10 | a full name of blanks passes the middleware and the schema finds it missing |
| Cors.IndexOf | index.js:43 | `indexOf` is -1 exactly when the origin is not listed, else the first position holding it |
| Cors.Decide | index.js:22-49 | a refusal always carries "Not allowed by CORS" |
| Cors.AllowedExactly | index.js:22-49 | an origin is allowed exactly when there is none, it is listed character for character, or NODE_ENV is 'development' |
| Cors.ListedOriginAllowed | index.js:23-44 | a listed origin is allowed outside development |
| Cors.TrailingSlashRefused | index.js:43-48 | a listed origin with a trailing slash is refused outside development |
| Cors.CapitalsRefused | index.js:43-48 | a listed origin with capitals in its host is refused outside development |
| Cors.DevelopmentAllowsAll | index.js:43-44 | in development every origin is allowed |

## Left out

- Events.EventTable.Register: follows the intended handler, in which the 'anonymous' placeholder takes a seat; the handler as written answers 500 instead (see Findings).
- Request parsing and side effects are not modelled: the JSON and URL-encoded body parsers, `helmet`, `xss-clean`, logging, the `/` and health routes, the router mounting and the `auth` middleware in front of the admin routes (only the handlers are modelled).
- `routes/speakerRoutes.js`, `routes/subscribe.js`, `routes/adminAuth.js`, `routes/postmanRoutes.js`, `middleware/auth.js` and the scripts are not part of this model.
- The notification e-mails in the sponsor and interest-form handlers are left out. Their failure is caught and logged, so the answer and the collection do not depend on it. `SponsorTable.Submit` and `EmailTable.Submit` take it as an ignored parameter.
- Concurrency is not modelled. Each handler runs alone against the collections, so interleaved requests (two registrations racing for the last seat) are not covered.
- The platform's parsers and checkers are parameters, not definitions: ObjectId validity, `new Date`, `parseInt`, `new URL`, the word-based e-mail expression and Joi's e-mail rule.
- `Json` numbers are integers. Floating-point members, arrays and objects as member values are not modelled.
- String lengths count characters, not UTF-16 code units. Lower-casing covers ASCII letters only.
- The response bodies' shapes (`status`, `message`, `data`) are reduced to the result datatypes and their `Status()` codes. Full Mongoose documents echoed back are not modelled.
- The sponsor submit handler's 201 echo includes `status`. The SponsorSubmission schema has no such path, so that member is absent; the model does not represent the echo.
- The E11000 branch of the sponsor handler cannot be reached, because no SponsorSubmission index is unique. It is not modelled.
- A `null` member is treated like an absent one on the Mongoose side: defaults apply and `required` fails. Mongoose would store `null` for an optional path.
- Mongoose's cast of `additionalOptions` entries is not modelled: they are taken as strings.
- Object ids are compared as strings in one canonical form. Mongoose casts a 24-hex-digit id to an ObjectId whatever the case of its hex digits, so `507F1F77BCF86CD799439011` finds the document stored as `507f1f77bcf86cd799439011`. The model answers 404 for such an upper-case spelling (`Events.FindById`, `Registrations.RegistrationTable.Get`, `Delete`, `UpdateStatus`, `ListByEvent`). The hook (`RegistrationModel.HookError`) likewise finds no event for it. The unique (event, e-mail) index (`Registrations.Taken`) also treats two event ids that differ only in hex case as different, where the database would refuse the second registration. Ids sent in a request are taken to be in the lower-case form the database returns.
- `Events.UpdateOutcome`: an update that clears the image (`image: ''` or `null`) is modelled as removing the image, which is the handler's stated intent. How `$set` treats an `undefined` member depends on the Mongoose version.
- `Events.UpdateOutcome`: every failure of `findByIdAndUpdate` (cast errors, validators) is the handler's single 500. The `details` list of that answer is not modelled.
- `Registrations.CreateOutcome`: members of the body that are not schema paths are dropped. `createdAt` and `updatedAt` sent in the body are not modelled: both are the current time. The ObjectId and Date cast messages are simplified, and Mongoose's Date cast is taken to be the platform's date parser.
- Query setters: whether Mongoose runs a path's `trim`/`lowercase` setters on query values depends on its version and options. It is the `querySetters` flag, and lemmas cover both settings.

## Findings

| source | as written | input that shows it | evidently intended | confidence | as-written member | corrected member |
|---|---|---|---|---|---|---|
| routes/events.js:134 | a request without `userId` pushes the string 'anonymous' into `registrations`, an array of ObjectIds (models/Event.js:41-44); the cast fails on save and the handler answers 500 | `POST /api/events/<id>/register` with an empty body, for an event with free seats | an anonymous registration takes a seat like any other | not executed | Events.AnonymousRegistrationFails | Events.IntendedAnonymousTakesSeat |
