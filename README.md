# pretix: data shredders, question forms and devices, in Dafny

The project models three parts of pretix, an event ticketing system.

**Data shredders.** A shredder deals with one category of personal data of an event:
- e-mail addresses, attendee names, invoice addresses and question answers;
- invoices, cached tickets, payment information and the waiting list.

Each shredder first exports what it is about to destroy (`generate_files`). It then destroys it in place (`shred_data`), and that includes the traces the data left in the event's log. A gate (`shred_constraints`) only lets shredding happen once the event is at least 60 days over and its shop is offline.

The shredder implementation module is not part of this model. Its behaviour is modelled as `src/tests/base/test_shredders.py` fixes it:
- `Json` and `Redaction` hold the tree rewrites applied to log payloads and to payment information.
- `Shredders` holds the event's records, the exports (`ExportFiles`) and the shred step (`ShredData`). Its class `EventStore` keeps the records as fields that the shred methods update in place.
- `ShredderScenarios` restates each test case.
- `Eligibility` holds the gate.

**Question forms** (`src/pretix/base/views/mixins.py`, module `Questions`). This covers:
- the sort key that puts add-on positions after their parent;
- the list of forms that have fields;
- the grouping of forms under the position they belong to;
- `save`, which stores the cleaned data of each valid form. It writes attendee fields, deletes, updates or creates question answers, and edits the saved form data in `meta_info`. The class `QuestionStore` holds the positions and answers that `save` changes.

**Devices** (`src/pretix/base/models/devices.py`, module `Devices`). This covers per-organizer device numbering and the permission checks of a device.

How the model reads the test file:
- **Log payloads are rewritten by key.** The tests only pass under a key-based rule:
  - the attendee-name test expects `Hans`, the name recorded in the log, to vanish (line 159), while the position's stored name is `Peter`; searching the log for stored values would leave `Hans` in place;
  - the e-mail test expects the mail text `Hello Peter@,` and the subject `Foo` to disappear, although neither is a stored value.
- **Waiting-list address.** The test checks `'@' not in wle.email`, which only works on a string, so the model writes the marker `█` there.
- **Gate.** The test refuses a live shop whose event ended a year ago, so the model requires the shop to be offline *and* the event to be long over.

## Model

| member | source | states |
|---|---|---|
| Redaction.QuestionKey | src/tests/base/test_shredders.py:206-216 | the log key of a question's answer is `question_` followed by the question's primary key in decimal, and it matches the question-key pattern |
| Redaction.RedactKeys | src/tests/base/test_shredders.py:155-161 | the rewrite keeps the payload's shape: an object keeps its keys in order, an array its length, and a scalar is unchanged |
| Redaction.RedactKeysSound | src/tests/base/test_shredders.py:239-246 | after a key-based rewrite, every member at any depth whose key matches the pattern holds the marker |
| Redaction.RedactKeysContent | src/tests/base/test_shredders.py:155-161 | a string other than the marker is still a value of the rewritten payload iff it was reachable without passing a matching key (`Hans` goes, `Foo` and `Test` stay) |
| Redaction.RedactKeysUntouched | src/tests/base/test_shredders.py:160-161 | a payload with no matching key anywhere is left unchanged |
| Redaction.RedactKeysIdempotent | src/tests/base/test_shredders.py:97-105 | rewriting a rewritten payload changes nothing |
| Redaction.MaskMembers | src/tests/base/test_shredders.py:198-202 | keys and order are kept; a value is masked iff it is neither a boolean nor empty; every other value is kept |
| Redaction.RedactInvoiceData | src/tests/base/test_shredders.py:194-202 | the rewrite keeps the payload's shape: an object keeps its keys in order, an array its length, and a scalar is unchanged |
| Redaction.RedactInvoiceDataSound | src/tests/base/test_shredders.py:194-202 | after the rewrite, every `invoice_data` object at any depth holds only booleans, empty values and the marker |
| Redaction.RedactInvoiceDataUntouched | src/tests/base/test_shredders.py:198-199 | a payload without an `invoice_data` member is left unchanged (the sibling `data` list survives) |
| Redaction.RedactInvoiceDataIdempotent | src/tests/base/test_shredders.py:194-202 | masking `invoice_data` twice is the same as once |
| Redaction.ScrubChar | src/tests/base/test_shredders.py:132-137 | objects keep their number of members, arrays their length; numbers, booleans and null are unchanged |
| Redaction.ScrubCharSound | src/tests/base/test_shredders.py:132-137 | after scrubbing, no key and no string value at any depth contains `@` |
| Redaction.ScrubCharKeeps | src/tests/base/test_shredders.py:132-137 | a string without `@` (other than the marker) is a value after scrubbing iff it was one before |
| Redaction.ScrubCharIdempotent | src/tests/base/test_shredders.py:132-137 | scrubbing twice is the same as once |
| Redaction.ShredPaymentInfo | src/tests/base/test_shredders.py:311-320 | a non-object is unchanged; an object stays an object and gains at most one member (`_shredded`) |
| Redaction.ShredPaymentInfoGet | src/tests/base/test_shredders.py:300-320 | after the payment-info rewrite, `_shredded` reads true; `reference` and `payer` read the marker when present; every other key reads as before |
| Redaction.ShredPaymentInfoUniqueKeys | src/tests/base/test_shredders.py:314-320 | the rewrite keeps an object's keys unique |
| Redaction.ShredPaymentInfoIdempotent | src/tests/base/test_shredders.py:311-320 | shredding payment information twice is the same as once |
| Shredders.PositionKey | src/tests/base/test_shredders.py:94-96 | the key is the order code, a `-`, then decimal digits that read back as the position id |
| Shredders.PositionKeyInjective | src/tests/base/test_shredders.py:94-96 | when order codes contain no `-`, a `{code}-{positionid}` export key names exactly one position of one order |
| Shredders.FilterMap | src/tests/base/test_shredders.py:89-96 | an export lists exactly the records that have the exported value, in stored order |
| Shredders.FilterMapAppend | src/tests/base/test_shredders.py:89-96 | filtering distributes over concatenation, so exports keep the stored order |
| Shredders.ExportFiles | src/tests/base/test_shredders.py:89-310 | the cached-ticket and payment-info shredders export nothing; the e-mail shredder exports two JSON files, the name, address, answer and waiting-list shredders one; the address export is keyed by order code and the answer export by `{code}-{positionid}`, one member per record; the waiting-list export has one item per entry; the invoice shredder exports one PDF per invoice |
| Shredders.RewriteLog | src/tests/base/test_shredders.py:97-246 | a log entry keeps its target and action type; the invoice, ticket and payment-info shredders leave log data alone; the waiting-list shredder touches only the logs of vouchers sent to the list; the name, address and answer shredders touch only order-modification entries |
| Shredders.RewriteLogIdempotent | src/tests/base/test_shredders.py:97-105 | every shredder's log rule, applied a second time, changes nothing |
| Shredders.ShredData | src/tests/base/test_shredders.py:97-320 | every shredder keeps the number of orders, positions, invoices, entries, vouchers and log entries, and each log entry's target and action type; it changes only its own kind of record (and the log), and nothing else |
| Shredders.ShredIdempotent | src/tests/base/test_shredders.py:97-311 | running any shredder a second time leaves the event's records as the first run left them |
| Shredders.EmailExportAfterShred | src/tests/base/test_shredders.py:89-100 | after the e-mail shredder, both of its export files are empty objects |
| Shredders.AttendeeNameExportAfterShred | src/tests/base/test_shredders.py:150-157 | after the attendee-name shredder, its export is an empty object |
| Shredders.AnswerExportAfterShred | src/tests/base/test_shredders.py:228-242 | after the question-answer shredder, every position exports an empty answer list |
| Shredders.EmailShredClears | src/tests/base/test_shredders.py:97-105 | every order and attendee address is null, and every sent-mail or contact-change log member holds the marker |
| Shredders.AttendeeNameShredKeeps | src/tests/base/test_shredders.py:155-161 | no attendee name is stored; a string stays in a modification log entry iff it was there outside every `attendee_name` member |
| Shredders.AnswerShredClears | src/tests/base/test_shredders.py:239-246 | no answer record (and so no answer file) is left, and every `question_<pk>` log member holds the marker |
| Shredders.InvoiceAddressShredClears | src/tests/base/test_shredders.py:194-202 | no invoice address is left, and every `invoice_data` in a modification log entry is masked |
| Shredders.WaitingListShredRemovesAddresses | src/tests/base/test_shredders.py:132-137 | every waiting-list address and the comment of every voucher sent to the list become the marker, so they hold no `@`; no key or string value of that voucher's log data contains `@` |
| Shredders.InvoiceShredBlanks | src/tests/base/test_shredders.py:264-273 | every invoice keeps its number; its four free texts and every line description become the marker; its file is cleared |
| Shredders.EventStore.constructor | src/tests/base/test_shredders.py:60-68 | the store holds the given records |
| Shredders.EventStore.Shred | src/tests/base/test_shredders.py:97-311 | `shred_data` of any shredder leaves the records as `ShredData` says |
| Shredders.EventStore.RewriteLogEntries | src/tests/base/test_shredders.py:101-105 | each log entry is rewritten in place by the shredder's rule, and nothing else changes |
| Shredders.EventStore.ShredEmailAddresses | src/tests/base/test_shredders.py:97-105 | order and attendee addresses are nulled in place and the log rewritten |
| Shredders.EventStore.ShredAttendeeNames | src/tests/base/test_shredders.py:155-161 | attendee names are nulled in place and the log rewritten |
| Shredders.EventStore.ShredInvoiceAddresses | src/tests/base/test_shredders.py:194-202 | invoice addresses are deleted and the log rewritten |
| Shredders.EventStore.ShredQuestionAnswers | src/tests/base/test_shredders.py:239-246 | answers are deleted and the log rewritten |
| Shredders.EventStore.ShredInvoices | src/tests/base/test_shredders.py:264-273 | each invoice is blanked in place |
| Shredders.EventStore.ShredCachedTickets | src/tests/base/test_shredders.py:290-296 | all cached tickets and combined tickets are deleted |
| Shredders.EventStore.ShredPaymentInfo | src/tests/base/test_shredders.py:311-320 | each order's payment information is rewritten in place |
| Shredders.EventStore.ShredWaitingList | src/tests/base/test_shredders.py:132-137 | entry addresses, the comments of sent vouchers and the log of those vouchers are scrubbed in place |
| ShredderScenarios.EmailExportScenario | src/tests/base/test_shredders.py:89-96 | the export maps the order code to the order address and `{code}-1` to the attendee address |
| ShredderScenarios.ExpiredMailRedacted | src/tests/base/test_shredders.py:73-80 | the sent-mail entry keeps `recipient`, `message` and `subject`, each holding the marker |
| ShredderScenarios.ContactChangedRedacted | src/tests/base/test_shredders.py:81-87 | the contact-change entry keeps `old_email` and `new_email`, each holding the marker |
| ShredderScenarios.EmailShredScenario | src/tests/base/test_shredders.py:97-105 | both addresses become null; both log payloads hold only the marker and no `@` in any key or value |
| ShredderScenarios.AttendeeNameExportScenario | src/tests/base/test_shredders.py:150-154 | the export maps `{code}-1` to `Peter` |
| ShredderScenarios.PositionChangeNameRedacted | src/tests/base/test_shredders.py:145-161 | in the logged position data, `attendee_name` becomes the marker and `question_1: Test` stays |
| ShredderScenarios.AttendeeNameShredScenario | src/tests/base/test_shredders.py:155-161 | the name is nulled; the logged `attendee_name` is masked while `question_1` and `invoice_data.name` stay |
| ShredderScenarios.InvoiceAddressExportScenario | src/tests/base/test_shredders.py:173-193 | the export is keyed by order code and holds all eleven address fields with the test's values |
| ShredderScenarios.InvoiceAddressShredScenario | src/tests/base/test_shredders.py:194-202 | the address is gone and the log payload equals the expected one exactly |
| ShredderScenarios.PositionChangeHasNoInvoiceData | src/tests/base/test_shredders.py:198-199 | the logged position data has no `invoice_data` and is left as it is |
| ShredderScenarios.MaskedTestAddress | src/tests/base/test_shredders.py:200-201 | the test's `invoice_data` masks to the expected object |
| ShredderScenarios.AnswerExportScenario | src/tests/base/test_shredders.py:228-238 | the export maps `{code}-1` to the one answer with its question, text, identifier, option keys and option identifiers |
| ShredderScenarios.AnswerShredScenario | src/tests/base/test_shredders.py:239-246 | the answer is gone, and the log holds the marker under `question_<pk>` with `attendee_name` kept |
| ShredderScenarios.InvoiceExportScenario | src/tests/base/test_shredders.py:261-263 | one invoice gives exactly one exported file |
| ShredderScenarios.NoExportScenario | src/tests/base/test_shredders.py:289-310 | the cached-ticket and payment-info shredders export nothing; cached tickets of both kinds are deleted |
| ShredderScenarios.PaymentInfoShredScenario | src/tests/base/test_shredders.py:300-320 | the payment information becomes the expected object with `_shredded: true` |
| ShredderScenarios.WaitingListExportScenario | src/tests/base/test_shredders.py:118-131 | the export is a one-element list holding the eight fields of the entry |
| ShredderScenarios.WaitingListShredScenario | src/tests/base/test_shredders.py:132-137 | no `@` is left in the entry address or the voucher comment (which becomes the marker), nor in any key or value of the voucher's log data |
| Eligibility.AnyRecent | src/tests/base/test_shredders.py:344-358 | true iff some date of the series ended within the grace period |
| Eligibility.ShredConstraints | src/tests/base/test_shredders.py:323-327 | refusing because the shop is live only happens for a live event |
| Eligibility.ShredAllowedIff | src/tests/base/test_shredders.py:323-358 | shredding is allowed iff the shop is offline and every date that counts ended at least 60 days ago; in a series every date counts and the event's own dates do not |
| Eligibility.ShredAllowedLater | src/tests/base/test_shredders.py:330-341 | once allowed, shredding stays allowed at every later day |
| Eligibility.AddingDateNeverUnblocks | src/tests/base/test_shredders.py:344-358 | adding a date to a series never turns a refusal into a permission |
| Eligibility.OfflineScenario | src/tests/base/test_shredders.py:323-327 | a live shop is refused even a year after its event |
| Eligibility.SixtyDaysScenario | src/tests/base/test_shredders.py:330-341 | an event that ended 62 days ago is allowed; one ending 52 days ago, or running from 62 to 52 days ago, is refused |
| Eligibility.SixtyDaysSeriesScenario | src/tests/base/test_shredders.py:344-358 | a series whose only date ended 62 days ago is allowed; adding a date ending 52 days ago blocks it |
| Questions.KeyFunc | src/pretix/base/views/mixins.py:21-29 | the key carries the position's primary key; the penalty is 0 for a position and 1 for an add-on; the anchor is the position id of an order position and the primary key of a cart position, taken from the parent for an add-on |
| Questions.ParentSortsBeforeAddon | src/pretix/base/views/mixins.py:21-29 | a position's key is below each of its add-ons' keys, and both share the same anchor |
| Questions.NothingBetweenParentAndAddon | src/pretix/base/views/mixins.py:21-29 | any key between a position and one of its add-ons has the position's anchor |
| Questions.AddonsByPk | src/pretix/base/views/mixins.py:21-29 | add-ons of the same position are ordered by primary key |
| Questions.KeyLessTotal | src/pretix/base/views/mixins.py:21-29 | the key tuples compare as a strict total order |
| Questions.WithFields | src/pretix/base/views/mixins.py:42-55 | the result is no longer than the input and every form in it has at least one field |
| Questions.WithFieldsMembers | src/pretix/base/views/mixins.py:42-55 | a form is kept iff it has at least one field |
| Questions.WithFieldsAppend | src/pretix/base/views/mixins.py:42-55 | filtering keeps the position order |
| Questions.BuildForms | src/pretix/base/views/mixins.py:35-55 | the loop builds exactly `WithFields` of the position forms |
| Questions.Group | src/pretix/base/views/mixins.py:57-70 | a group holds exactly the forms whose position is, or is an add-on of, its key |
| Questions.GroupKeys | src/pretix/base/views/mixins.py:57-70 | group keys are distinct and are exactly the keys of the forms |
| Questions.FirstWith | src/pretix/base/views/mixins.py:57-70 | -1 when no form is listed under the key, otherwise the index of the first form listed under it |
| Questions.GroupKeysFirstOrder | src/pretix/base/views/mixins.py:57-70 | the group keys come in order of first insertion: a key listed before another has its first form earlier |
| Questions.BuildFormDict | src/pretix/base/views/mixins.py:57-70 | the loop's keys are the group keys in order of first insertion, and each key maps to its group |
| Questions.GroupsPartitionForms | src/pretix/base/views/mixins.py:57-70 | the group sizes add up to the number of forms: every form is listed exactly once |
| Questions.SaveToAnswer | src/pretix/base/views/mixins.py:121-142 | the answer keeps its key, question and position; a multiple choice stores the joined option texts and the set of option keys; a choice stores its option's text and key; both choice kinds keep the file flag; an upload stores `file://` plus its name and marks a file; any other file value leaves the answer alone; other kinds store the value |
| Questions.SaveToAnswerIdempotent | src/pretix/base/views/mixins.py:121-142 | storing the same value twice is the same as once |
| Questions.ApplyEntry | src/pretix/base/views/mixins.py:82-115 | storing an entry keeps the set of positions and allocates at most one new answer key |
| Questions.ApplyEntryKeyed | src/pretix/base/views/mixins.py:99-108 | storing an entry keeps every answer under its own, allocated key |
| Questions.ApplyEntryWrites | src/pretix/base/views/mixins.py:83-115 | an entry writes its slot as follows. `attendee_name_parts`: the value if truthy, else null. `attendee_email`: null for `''`, else the value. An answer: deleted for `''` or an unticked file, else updated. Other keys: saved form data removed for null, else set |
| Questions.ApplyEntryFrame | src/pretix/base/views/mixins.py:82-115 | an entry leaves every other slot and every other position alone |
| Questions.ApplyEntriesFrame | src/pretix/base/views/mixins.py:82-115 | entries none of which writes a slot leave it alone |
| Questions.ApplyEntries | src/pretix/base/views/mixins.py:82-115 | storing a form's entries keeps the set of positions and never lowers the next answer key |
| Questions.ApplyEntriesKeepOthers | src/pretix/base/views/mixins.py:82-115 | storing a form's entries leaves every other position as it was |
| Questions.SaveForm | src/pretix/base/views/mixins.py:77-115 | an invalid form stores nothing; a valid one keeps the set of positions, leaves every other position alone and never lowers the next answer key |
| Questions.SaveFormSplit | src/pretix/base/views/mixins.py:82-115 | storing a form's entries in order splits at any entry into those before it, that entry, and those after it |
| Questions.SaveFormWrites | src/pretix/base/views/mixins.py:74-115 | after a valid form is saved, every entry has left its own slot as `ApplyEntryWrites` says |
| Questions.NewAnswerIsFresh | src/pretix/base/views/mixins.py:101-108 | a question without an answer gets a new one under an unused key, for its question and position, unless the value is `''` |
| Questions.SaveAllInvalid | src/pretix/base/views/mixins.py:72-79 | when no form validates, `save` stores nothing |
| Questions.SaveAll | src/pretix/base/views/mixins.py:72-119 | saving the forms in order keeps the set of positions and leaves every position without a form alone |
| Questions.QuestionStore.constructor | src/pretix/base/views/mixins.py:72-75 | the store holds the given positions and answers |
| Questions.QuestionStore.SaveEntry | src/pretix/base/views/mixins.py:82-115 | one cleaned entry is stored in place, and answers stay keyed |
| Questions.QuestionStore.SaveValidForm | src/pretix/base/views/mixins.py:79-115 | a valid form's cleaned data is stored in order |
| Questions.QuestionStore.SaveFormAt | src/pretix/base/views/mixins.py:79-116 | one turn of the form loop stores a valid form's data, and answers stay keyed |
| Questions.QuestionStore.Save | src/pretix/base/views/mixins.py:72-119 | returns true iff every form is valid; the new state is the forms stored in order; answers stay keyed |
| Devices.MaxId | src/pretix/base/models/devices.py:83 | the largest of the organizer's device numbers, or 0 when there is none |
| Devices.NewDeviceIdFresh | src/pretix/base/models/devices.py:81-84 | the number handed out is positive and unused |
| Devices.Device.constructor | src/pretix/base/models/devices.py:81-84 | a new device has no number yet |
| Devices.Device.Save | src/pretix/base/models/devices.py:81-84 | an existing number is kept; an unset one becomes the maximum plus one, above every number in use |
| Devices.Device.EventPermissionSet | src/pretix/base/models/devices.py:86-103 | the result is the full set {`can_view_orders`, `can_change_orders`} or empty; it is non-empty iff the device is on all events of that organizer or the event is in its list |
| Devices.Device.OrganizerPermissionSet | src/pretix/base/models/devices.py:105-112 | the result is the full set or empty, and non-empty iff the organizer is the device's own |
| Devices.Device.HasEventPermission | src/pretix/base/models/devices.py:114-130 | true iff the event permission set is non-empty and grants the request: a list needs one listed name in the set; no name or `''` needs nothing more; a name must be in the set |
| Devices.Device.HasOrganizerPermission | src/pretix/base/models/devices.py:132-144 | the same rule against the organizer permission set |
| Devices.EventPermissionByName | src/pretix/base/models/devices.py:114-130 | for a non-empty name, the check agrees with membership in `EventPermissionSet` |
| Devices.LimitEventGrantsAccess | src/pretix/base/models/devices.py:100-103 | a listed event grants the full set even for a device not on all events |
| Devices.EmptyListNeverGranted | src/pretix/base/models/devices.py:128-129 | an empty list of names is never granted, for events or organizers |
| Devices.Device.EventsWithAnyPermission | src/pretix/base/models/devices.py:146-155 | every listed event is the organizer's or in the device's own list; when the device's own events belong to its organizer, it lists exactly the organizer's events on which it holds any permission |

## Left out

- The shredder implementation module is not part of this model. Behaviour comes only from what its test file asserts.
- Shredder workflow. These are not modelled:
  - the ZIP archive of exports;
  - the export-then-confirm workflow;
  - per-event locking and concurrency.
- Export file names and MIME types are not modelled, only the file contents.
- Files are a present/absent flag on their record. Deleting the file on disk and `os.path.exists` are not modelled.
- JSON text encoding is not modelled. Payloads are JSON trees, with objects as ordered member lists and lookups taking the first member with a key.
- Checks like `'@' not in l1.data` are read on the tree as "no key or string value contains `@`". `'Foo' not in l1.data` is stated as the exact redacted payload.
- Time is whole days. Timestamps are already-formatted strings and `today` is a parameter. Sub-day precision at the 60-day boundary is not modelled.
- An explicit override of the eligibility gate is not modelled, because neither the tests nor the modelled code show one.
- Fixture helpers (invoice and ticket generation, `send_voucher`) are not modelled. Their results are given directly as records.
- Questions.BuildForms: constructing a form for a position (`form_class`, request data and files) is outside the model. The forms are inputs, and so are each form's `is_valid()` result and its cleaned data.
- Queries and views are not modelled: the ORM query and prefetching in `positions`, `invoice_address`, `invoice_form` and `get_context_data`.
- Questions.SaveToAnswer: `_save_to_answer` updates the answer object in place. Here it returns the updated record, so there is no aliasing between `field.answer` and the stored row. Saving the option rows themselves is not modelled.
- Questions.QuestionStore.Save: re-serialising `meta_info` for every form is the identity here. Keys of `meta_info` other than `question_form_data` are not modelled.
- Questions.QuestionStore.Save: it requires that every form's position is stored and that its cleaned data fits its fields: distinct keys, answer keys among the fields, and values of the shape their field produces. It also requires the cached answers to have distinct, already allocated keys. These are taken as invariants of the data the forms are built from. In the original only a missing field or a value that does not fit its field's kind makes `save()` raise; two fields sharing a cached answer do not make it fail, and that case is not modelled.
- Devices.Device.Save: `orgDeviceIds` stands for the organizer's device numbers that the `Max` aggregate reads. Persisting the device is not modelled.
- Devices: random token and serial generators, field declarations and `__str__` are not modelled. The ignored `request` argument of the permission checks is dropped.
- Redaction.ShredPaymentInfo: the bank-transfer rule (`reference` and `payer` masked, `_shredded` set) is applied to every order's payment information, whatever its payment provider. Provider-specific shredding is not modelled.
- Redaction.ScrubChar: a key that contains `@` is replaced by the marker as well, so that no `@` is left anywhere in the payload. This generalises the test's check on the whole log text.
