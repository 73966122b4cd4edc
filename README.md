# Mentoring program backend, modelled in Dafny

This project models the server side of a university mentoring program: the
callable handlers of its Firebase backend, which keep every university's
data in a document store under the university's path. Mentors publish the
times they are available; mentees request or book meetings in those slots;
meetings move through the states pending, accepted, rejected and
cancelled, and cancelling or rejecting frees the slot again. Around this
booking workflow sit the helpers that build document ids, the role checks
on the caller's token, two-person conversations with per-user unread
counts, announcements, user records, the mentee acknowledgment, the sync of
role claims at login and registration, the setup of a university, and a
one-off migration of each user's old meeting and availability
subcollections into university-wide collections.

The model follows the program's own structure, one module per source file:

| module | file | what it holds |
|---|---|---|
| `Wrappers`, `Types`, `Store` | functions/src/types/index.ts | option and result values, the string unions of the records, the records themselves, and the store: a `Tenant` (one university's collections, one map each) and a `Platform` (the `universities` collection, university settings and markers, and the identity provider's accounts) |
| `Order`, `Text` | — | the store's order of document ids (by code point), the default `sort()` order (by UTF-16 code unit), and the JavaScript string operations the handlers use (`trim`, `split`, `padStart`, `parseInt`, `Number`, `.length` in UTF-16 code units, and ASCII-only lower-casing) |
| `Auth` | functions/src/utils/auth.ts | `verifyAuth` and the four role gates |
| `Database` | functions/src/utils/database.ts | university paths, name slugs, unique user ids, the document helpers and their result envelope |
| `MeetingHelpers` | functions/src/meetings/utils/meeting-helpers.ts | user lookup by login id, meeting and availability ids, old slot ids, dates and clock times |
| `MeetingCreation`, `MeetingRequests`, `MeetingStatusHandlers`, `MeetingUpdates`, `MeetingVisibility`, `AvailabilityManagement` | functions/src/meetings/*.ts | the modular meeting and availability handlers |
| `LegacyMeetings` | functions/src/meetings/management.ts | the older single-file meeting handlers, kept apart from the modular ones |
| `Conversations`, `Announcements`, `UserManagement`, `Acknowledgment`, `ClaimsSync`, `UniversitySetup`, `Migration` | the files named in their headers | the remaining handlers |

Each handler that writes is a method over the `Tenant` (and the
`Platform` where it touches them) with a `modifies` clause. Its contract
gives every error case with the store unchanged and, on success, the whole
new store as the old one with the changed entries. The decisions it makes
are functions (`Check...`, `...Patch`), and lemmas state what follows from
them across calls: round trips, idempotence, orderings, and what a second
call finds. Read-only handlers are functions. Loops in the source are
`while`/`for` loops proved against a specification function: the id
probing in `Database.GenerateUniqueUserId`, the slot loops, the batch of
read markers, and the migration, whose loops are proved to compute folds
over the store's id order.

Times are integers that the caller supplies (the store's server timestamp
and `new Date()` become a `now` parameter). Parsing a date string into epoch
seconds is an abstract function parameter `Epoch` that may fail, which
stands for JavaScript's NaN. Missing fields are `None`, and JavaScript
truthiness of a string is `Truthy` (present and non-empty).

Some behaviours of the code are kept exactly as they are written, and
the contracts and lemmas of the model state them:
- `createMeeting` overwrites an earlier meeting with the same id.
- `createMeeting` marks the slot booked without checking that it was free.
- `acceptMeeting` never books the slot that `requestMeeting` leaves free.
- Day documents and the top-level booked flag are two separate places the booking lives.
- The legacy booking update is keyed by the whole `docId_slot_N` reference.
- The name slug deletes underscores.
- Announcement audiences are declared as `mentors`/`mentees` but queried as `mentor`/`mentee`.
- `updateMeeting` can set any status.
- `updateUser` can blank a required field.

## Model

| member | source | states |
|---|---|---|
| Types.StatusText | functions/src/types/index.ts:36 | a meeting's status is stored as one of `pending`, `accepted`, `rejected`, `cancelled` |
| Types.StatusOf | functions/src/types/index.ts:36 | a text read back as a status is that status's stored text |
| Types.StatusTextRoundTrip | functions/src/types/index.ts:36 | each status reads back from its own text, so no two statuses share a text |
| Types.AcknowledgmentText | functions/src/types/index.ts:22 | the acknowledgment is stored as one of `yes`, `no`, `not_applicable` |
| Types.AcknowledgmentOf | functions/src/types/index.ts:22 | a text read back as an acknowledgment is that value's stored text |
| Types.AcknowledgmentTextRoundTrip | functions/src/types/index.ts:22 | each acknowledgment value reads back from its own text, so no two share a text |
| Types.AudienceText | functions/src/types/index.ts:55 | an announcement's audience is stored as one of `mentors`, `mentees`, `both` |
| Types.AudienceOf | functions/src/types/index.ts:55 | a text read back as an audience is that audience's stored text |
| Types.AudienceTextRoundTrip | functions/src/types/index.ts:55 | each audience reads back from its own text, so no two audiences share a text |
| MeetingStatusHandlers.LoadMeeting | functions/src/meetings/meeting-status.ts:20-48 | no token is unauthenticated, a missing meeting id invalid-argument, an unknown meeting not-found, and a caller who is neither staff nor one of the four party ids permission-denied; otherwise the caller's context and the stored meeting |
| MeetingStatusHandlers.CancelPatch | functions/src/meetings/meeting-status.ts:50-68 | a pending meeting becomes rejected with `rejected_by`; any other status becomes cancelled with `cancelled_by` and the reason or null; who, when and where stay |
| MeetingStatusHandlers.AcceptPatch | functions/src/meetings/meeting-status.ts:147-153 | status accepted, `accepted_by` and `updated_by` the caller; the arrangement and the other deciders stay |
| MeetingStatusHandlers.RejectPatch | functions/src/meetings/meeting-status.ts:213-220 | status rejected, `rejected_by` the caller, `rejection_reason` the reason or null; the arrangement stays |
| MeetingStatusHandlers.Unbooked | functions/src/meetings/meeting-status.ts:76-84 | the freed document is not booked and its booker, meeting and booking time are null; its slots, mentor and times stay |
| MeetingStatusHandlers.Unbooking | functions/src/meetings/meeting-status.ts:72-89 | only the meeting's availability document changes, and only when it exists; a missing one (the swallowed update failure) or no availability id changes nothing |
| MeetingStatusHandlers.CancelMeeting | functions/src/meetings/meeting-status.ts:20-106 | fails exactly when the shared checks fail, with the store unchanged; otherwise stores the cancel patch and frees the slot |
| MeetingStatusHandlers.AcceptMeeting | functions/src/meetings/meeting-status.ts:112-172 | the shared checks, then failed-precondition unless pending; on success only the meeting changes (no availability document is booked) |
| MeetingStatusHandlers.RejectMeeting | functions/src/meetings/meeting-status.ts:178-258 | the shared checks, then failed-precondition unless pending; on success the reject patch is stored and the slot freed |
| MeetingStatusHandlers.HandlersFollowStatusMachine | functions/src/meetings/meeting-status.ts:51-54 | every status change the three handlers make is pending to accepted or rejected, or a non-pending status to cancelled |
| MeetingStatusHandlers.NoStepToPending | functions/src/meetings/meeting-status.ts:51-54 | no handler step leads back to pending |
| MeetingStatusHandlers.CancelTwiceCancels | functions/src/meetings/meeting-status.ts:51-54 | cancelling twice always ends cancelled, since the first cancel of a pending meeting only rejects it |
| MeetingCreation.CheckCreate | functions/src/meetings/create-meeting.ts:24-72 | no token is unauthenticated; then a start time that is missing, empty or not a date is internal (the debug `toISOString` throws); a missing mentor or mentee is invalid-argument; a role outside the four creator roles, or a mentor or mentee creating a meeting they are not in, is permission-denied; an unknown party is not-found; an end that is not a date is internal; success exactly when every check passes |
| MeetingCreation.StoredMeeting | functions/src/meetings/create-meeting.ts:74-104 | the new document is pending and unhidden, carries both uids, both document ids, the start as a timestamp, an end exactly when one is given, topic and location defaulting to the empty string and the availability id or null |
| MeetingCreation.Booked | functions/src/meetings/create-meeting.ts:116-124 | the slot is booked by the mentee (uid, document id, name) for this meeting at this time; its slots, mentor and start stay |
| MeetingCreation.Booking | functions/src/meetings/create-meeting.ts:110-131 | only the named availability document changes, only when it exists; a missing document (the swallowed update failure) or no id changes nothing |
| MeetingCreation.FreeingUndoesBooking | functions/src/meetings/meeting-status.ts:76-84 | freeing a slot that creation booked gives the same document as freeing the unbooked slot |
| MeetingCreation.CreateMeeting | functions/src/meetings/create-meeting.ts:24-163 | fails exactly as the checks do with the store unchanged; otherwise writes the meeting under its generated id (overwriting any meeting there) and books the slot without checking it, and answers with the caller's own time strings |
| MeetingCreation.BadStartAnswersInternal | functions/src/meetings/create-meeting.ts:36-41 | a start that is not a date answers internal even when the mentor and mentee are missing too |
| MeetingCreation.CreateTwiceOverwrites | functions/src/meetings/create-meeting.ts:75-108 | the same request twice succeeds twice under one id: the meetings grow by one key and the second topic is the stored one |
| MeetingRequests.SlotProblem | functions/src/meetings/request-meeting.ts:61-79 | with no availability id nothing is checked; a missing slot is not-found, a booked one failed-precondition, one of another mentor invalid-argument |
| MeetingRequests.CheckRequest | functions/src/meetings/request-meeting.ts:23-79 | no token is unauthenticated; missing mentor, mentee, date, start or topic is invalid-argument; an empty uid is unauthenticated; a mentee requesting for another mentee is permission-denied; unknown parties not-found; then the slot's problem; a joined date that does not parse is internal; success exactly when all pass |
| MeetingRequests.RequestedMeeting | functions/src/meetings/request-meeting.ts:81-109 | the requested document is pending, records the mentee as requester, has no `mentor_id`/`mentee_id`, starts at `date`T`start_time`, and keeps topic, location and availability id as given |
| MeetingRequests.EndKey | functions/src/meetings/request-meeting.ts:47 | an end time exists exactly when `end_time` is given |
| MeetingRequests.RequestMeeting | functions/src/meetings/request-meeting.ts:23-148 | fails exactly as the checks do with the store unchanged; on success writes the requested meeting under its generated id and never touches availability |
| MeetingRequests.DayDocumentIsNotRequestable | functions/src/meetings/request-meeting.ts:76-78 | a free availability document without `mentor_uid` (a day document) is always refused as belonging to another mentor |
| MeetingRequests.RequestOpenToOtherRoles | functions/src/meetings/request-meeting.ts:41-43 | only a mentee caller is tied to the request's mentee |
| MeetingUpdates.UpdatePatch | functions/src/meetings/update-meeting.ts:53-73 | non-empty times replace the stored ones as timestamps, a given topic or location (even empty) replaces the stored one, a given status replaces the status, and who updated and when are set; nothing else changes |
| MeetingUpdates.UpdateMeeting | functions/src/meetings/update-meeting.ts:21-93 | the shared meeting checks (unauthenticated, invalid-argument, not-found, permission-denied), with the store unchanged on failure; on success only that meeting changes, by the patch |
| MeetingUpdates.EmptyUpdateTouchesOnlyMetadata | functions/src/meetings/update-meeting.ts:53-56 | an update with no fields changes only `updated_by` and `updated_at` |
| MeetingUpdates.EmptyStringsDiffer | functions/src/meetings/update-meeting.ts:59-70 | empty times are ignored while an empty topic or location is written |
| MeetingUpdates.UpdateBypassesStatusMachine | functions/src/meetings/update-meeting.ts:71-73 | any status can be written over a cancelled meeting, a step the status handlers never take |
| MeetingUpdates.UpdateIdempotent | functions/src/meetings/update-meeting.ts:53-73 | updating twice with the same fields is updating once at the later time |
| MeetingVisibility.HidePatch | functions/src/meetings/hide-meeting.ts:76-79 | the caller is added to `hidden_by` and `updated_at` is set; nothing else changes |
| MeetingVisibility.UnhidePatch | functions/src/meetings/hide-meeting.ts:123-126 | the caller is removed from `hidden_by` and `updated_at` is set; nothing else changes |
| MeetingVisibility.HideMeeting | functions/src/meetings/hide-meeting.ts:16-95 | the shared meeting checks including the party check, the store unchanged on failure; on success only the meeting changes, by the hide patch |
| MeetingVisibility.CheckUnhide | functions/src/meetings/hide-meeting.ts:101-121 | unauthenticated, invalid-argument for a missing id, not-found for an unknown meeting; success exactly otherwise, with no party check |
| MeetingVisibility.UnhideMeeting | functions/src/meetings/hide-meeting.ts:101-143 | fails as its check does with the store unchanged; otherwise only the meeting changes, by the unhide patch |
| MeetingVisibility.HideIdempotent | functions/src/meetings/hide-meeting.ts:76-79 | hiding twice is hiding once |
| MeetingVisibility.UnhideUndoesHide | functions/src/meetings/hide-meeting.ts:123-126 | unhiding after a first hide restores `hidden_by` |
| MeetingVisibility.VisibilityKeepsMeeting | functions/src/meetings/hide-meeting.ts:76-79 | neither patch changes the status or another user's hidden choice |
| MeetingVisibility.UnhideNeedsNoParty | functions/src/meetings/hide-meeting.ts:101-121 | a caller who is neither staff nor a party is refused hiding but allowed unhiding |
| AvailabilityManagement.StoredSlots | functions/src/meetings/availability-management.ts:66-71 | defined exactly when every slot's end can be worked out; one stored slot per input, in order, unbooked with no mentee, its start as given and its end `slot_end` or one hour after the start |
| AvailabilityManagement.DefaultSlotLastsAnHour | functions/src/meetings/availability-management.ts:68 | a slot without an end ends an hour after it starts, wrapping at midnight |
| AvailabilityManagement.DayDocument | functions/src/meetings/availability-management.ts:73-81 | the day document carries its id, `mentor_id`, day, the slots and `synced`, and no `mentor_uid` or booking |
| AvailabilityManagement.CheckSetAvailability | functions/src/meetings/availability-management.ts:29-97 | unauthenticated, then invalid-argument for a missing mentor, day or empty slots, permission-denied for a non-setter role or a mentor setting another's days, not-found for an unknown mentor, internal for an unreadable slot time, failed-precondition when the stored day holds a booked slot; success exactly when all pass, planning the document `<mentor doc id>_<day>` |
| AvailabilityManagement.SetMentorAvailability | functions/src/meetings/availability-management.ts:29-122 | fails as the checks do with the store unchanged; on success overwrites only the planned day document and answers its id and slot count |
| AvailabilityManagement.SetAgainAccepted | functions/src/meetings/availability-management.ts:83-100 | a day just set can be set again with the same arguments, planning the same write |
| AvailabilityManagement.TopLevelBookingIsNotGuarded | functions/src/meetings/availability-management.ts:86-97 | a document booked at the top level but with no booked slot does not stop an overwrite |
| AvailabilityManagement.DayQuery | functions/src/meetings/availability-management.ts:140-153 | every listed document is one of the mentor's with a day within the given bounds |
| AvailabilityManagement.DayQuerySpec | functions/src/meetings/availability-management.ts:140-153 | exactly the documents of the mentor whose day lies within the given bounds, each once, in day order |
| AvailabilityManagement.MentorDays | functions/src/meetings/availability-management.ts:155-165 | one view per queried document, in the query's order |
| AvailabilityManagement.GetMentorAvailability | functions/src/meetings/availability-management.ts:127-181 | unauthenticated, invalid-argument for a missing mentor id, otherwise the mentor's days |
| AvailabilityManagement.MentorAvailabilityListsMatches | functions/src/meetings/availability-management.ts:140-170 | a document is listed exactly when it is the mentor's and its day is in the bounds; days ascend; every view is synced |
| AvailabilityManagement.UnbookedSlotsSpec | functions/src/meetings/availability-management.ts:221 | keeps exactly the slots that are not booked |
| AvailabilityManagement.OpenDaysSpec | functions/src/meetings/availability-management.ts:217-233 | every answered day has free slots only and at least one, and every listed day with a free slot is answered with its free slots |
| AvailabilityManagement.CollectOpenDays | functions/src/meetings/availability-management.ts:214-233 | the `forEach` loop builds exactly the open days of the listed documents |
| AvailabilityManagement.GetAvailableSlots | functions/src/meetings/availability-management.ts:186-249 | unauthenticated, invalid-argument for a missing mentor id; success exactly for an authenticated call with a mentor id, answering the open days among the mentor's days |
| AvailabilityManagement.OpenDaysFromViews | functions/src/meetings/availability-management.ts:217-233 | every answered day is one of the listed days with its booked slots removed |
| AvailabilityManagement.CheckRemove | functions/src/meetings/availability-management.ts:254-287 | unauthenticated, invalid-argument, not-found, then permission-denied for a non-staff caller who is not the document's `mentor_uid`, then failed-precondition for a booked document; success exactly otherwise |
| AvailabilityManagement.RemoveAvailabilitySlot | functions/src/meetings/availability-management.ts:254-307 | fails as the checks do with the store unchanged; on success deletes that document and no other |
| AvailabilityManagement.DayBookingsDoNotStopRemoval | functions/src/meetings/availability-management.ts:284-287 | a day document whose slots are booked but which is not booked at the top level is removed |
| AvailabilityManagement.DayDocumentsOnlyStaffRemove | functions/src/meetings/availability-management.ts:277-282 | a day document has no `mentor_uid`, so only staff can remove it |
| LegacyMeetings.LegacySlotRefOfWellFormed | functions/src/meetings/management.ts:87-89 | a reference `<docId>_slot_<n>` splits into that document id and index |
| LegacyMeetings.LegacySlotRefWithoutSeparator | functions/src/meetings/management.ts:87-93 | a reference without `_slot_` gets index -1 and so is malformed |
| LegacyMeetings.CheckLegacySlot | functions/src/meetings/management.ts:84-115 | index -1 is invalid-argument; success exactly when the day document exists, the index is within its slots and that slot is free; failed-precondition only for a booked slot |
| LegacyMeetings.CheckLegacyCreate | functions/src/meetings/management.ts:59-115 | unauthenticated, invalid-argument for a missing mentor, mentee or start, permission-denied as in the later revision, then the slot's check when an availability id is given; success exactly when all pass |
| LegacyMeetings.LegacyMeeting | functions/src/meetings/management.ts:118-128 | the added meeting holds the caller's strings as plain text, is pending, has no uids and no id field |
| LegacyMeetings.LegacyBooked | functions/src/meetings/management.ts:136-141 | the booked document has `is_booked`, the mentee, the meeting and the time; its slots stay |
| LegacyMeetings.LegacyBooking | functions/src/meetings/management.ts:134-142 | the booking is keyed by the whole reference string: only a document with that id changes, and none when it is missing |
| LegacyMeetings.LegacyCreateMeeting | functions/src/meetings/management.ts:59-159 | fails exactly as the checks do with the store unchanged; otherwise adds the meeting under a fresh id and applies the booking by reference |
| LegacyMeetings.AddMeeting | functions/src/meetings/management.ts:130-142 | the meeting goes under a fresh store id and only the booking by reference follows |
| LegacyMeetings.LegacyBookingMissesCheckedSlot | functions/src/meetings/management.ts:87-142 | for a well-formed reference that names no document itself, the checked slot stays free after creation |
| LegacyMeetings.FindMeeting | functions/src/meetings/management.ts:164-183 | unauthenticated, invalid-argument for a missing id, not-found for an unknown meeting; otherwise the caller and the meeting |
| LegacyMeetings.LoadForChange | functions/src/meetings/management.ts:185-190 | after the lookup, staff or a caller equal to `mentor_id` or `mentee_id` passes, anyone else is permission-denied |
| LegacyMeetings.LoadForMentor | functions/src/meetings/management.ts:312-315 | after the lookup, only the caller equal to `mentor_id` passes; staff are not exempt |
| LegacyMeetings.LegacyUpdatePatch | functions/src/meetings/management.ts:192-195 | every given field, even empty, replaces the stored one as plain text, `updated_at` is set and `updated_by` is not |
| LegacyMeetings.LegacyUpdateMeeting | functions/src/meetings/management.ts:164-212 | fails as the party check does with the store unchanged; otherwise only that meeting changes, by the patch |
| LegacyMeetings.LegacyWritesEmptyStart | functions/src/meetings/management.ts:192-195 | an empty start time is written by the legacy update but ignored by the later one |
| LegacyMeetings.LegacyFreed | functions/src/meetings/management.ts:260-265 | the freed document is not booked, has no mentee or meeting, and keeps its slots |
| LegacyMeetings.LegacyFreeing | functions/src/meetings/management.ts:258-266 | only the document keyed by the meeting's reference changes, and none when it is missing |
| LegacyMeetings.LegacyCancelPatch | functions/src/meetings/management.ts:250-255 | status cancelled with the caller, time and reason, whatever the status was |
| LegacyMeetings.LegacyAcceptPatch | functions/src/meetings/management.ts:317-321 | status accepted with the caller and time |
| LegacyMeetings.LegacyRejectPatch | functions/src/meetings/management.ts:373-378 | status rejected with the caller, time and reason |
| LegacyMeetings.LegacyCancelMeeting | functions/src/meetings/management.ts:217-283 | fails as the party check does with the store unchanged; otherwise the meeting is cancelled and its reference freed |
| LegacyMeetings.LegacyAcceptMeeting | functions/src/meetings/management.ts:288-338 | fails unless the caller is the mentor, with the store unchanged; otherwise only the meeting changes, to accepted |
| LegacyMeetings.LegacyRejectMeeting | functions/src/meetings/management.ts:343-406 | fails unless the caller is the mentor, with the store unchanged; otherwise the meeting is rejected and its reference freed |
| LegacyMeetings.LegacyIgnoresStatus | functions/src/meetings/management.ts:313-378 | a cancelled meeting can be accepted or rejected, steps the later status handlers never take |
| LegacyMeetings.StaffCannotAccept | functions/src/meetings/management.ts:243-247 | a coordinator who is not the mentor may cancel but not accept or reject |
| LegacyMeetings.UnderscoreSpaces | functions/src/meetings/management.ts:537 | same length, every whitespace character becomes `_` and no whitespace is left |
| LegacyMeetings.LegacySlots | functions/src/meetings/management.ts:527-531 | one free slot per input with start and end as given |
| LegacyMeetings.LegacyDayDocument | functions/src/meetings/management.ts:524-534 | mentor, day and the slots as given, creation and update time set, no booked slot |
| LegacyMeetings.FirstUserWithUid | functions/src/meetings/management.ts:438-445 | none exactly when no user has that login id; otherwise the least such document |
| LegacyMeetings.ScanDay | functions/src/meetings/management.ts:496-514 | the flag is set exactly when a scanned document holds a booked slot, and the queued deletes are exactly the other scanned documents |
| LegacyMeetings.CheckLegacySet | functions/src/meetings/management.ts:413-442 | unauthenticated, invalid-argument for a missing mentor, day or slots, permission-denied unless a mentor sets their own uid, not-found without a user document; otherwise that document |
| LegacyMeetings.LegacySetMentorAvailability | functions/src/meetings/management.ts:413-585 | fails as the checks do, or failed-precondition when either collection's documents for the day hold a booked slot, the store unchanged each time; otherwise those documents are deleted and one day document is written to both collections |
| LegacyMeetings.BookedFlagMeansAnyBooked | functions/src/meetings/management.ts:496-514 | the scan's flag over a day's documents is whether any holds a booked slot |
| LegacyMeetings.NoBookedDeletesAll | functions/src/meetings/management.ts:496-514 | with no booked document, every one of the day's documents is deleted |
| LegacyMeetings.LegacyAvailableSlots | functions/src/meetings/management.ts:660-726 | invalid-argument for a missing mentor id and nothing else fails; the days in the bounds from the subcollection named by the mentor id, or from the shared collection when that is empty, with booked slots kept |
| LegacyMeetings.LegacyReadFallsBackToShared | functions/src/meetings/management.ts:674-704 | for a mentor id that names no user subcollection, every shared day of the mentor in the bounds is answered |
| LegacyMeetings.RequestTopic | functions/src/meetings/management.ts:764-774 | a custom time without a topic gets `Custom time request`; otherwise the topic as given |
| LegacyMeetings.LegacyRequestMeeting | functions/src/meetings/management.ts:731-798 | unauthenticated, permission-denied unless the caller is the mentee, the store unchanged; otherwise a pending meeting is added under a fresh id and availability is untouched |
| MeetingHelpers.UidMatches | functions/src/meetings/utils/meeting-helpers.ts:29-32 | exactly the user documents whose `firebase_uid` is the uid |
| MeetingHelpers.GetUserDocByUid | functions/src/meetings/utils/meeting-helpers.ts:12-40 | the document whose id is the uid when it exists; otherwise none exactly when no document has the uid as login id, else the least such document by id |
| MeetingHelpers.GetUserDocByUidFinds | functions/src/meetings/utils/meeting-helpers.ts:12-40 | a user is found exactly when some document has the uid as its id or its login id, and the one found does |
| MeetingHelpers.SecondsTextInjective | functions/src/meetings/utils/meeting-helpers.ts:51-53 | different start instants, or an instant and an invalid date, print differently |
| MeetingHelpers.SeparatorSafeOf | functions/src/meetings/utils/meeting-helpers.ts:55 | a segment with no doubled and no trailing underscore cannot merge with a following `__` |
| MeetingHelpers.GeneratedUserIdsAreSeparatorSafe | functions/src/utils/database.ts:44-65 | every document id built from a name is such a segment |
| MeetingHelpers.MeetingIdSplits | functions/src/meetings/utils/meeting-helpers.ts:46-56 | a meeting id splits at `__` back into the two document ids and the start seconds |
| MeetingHelpers.MeetingIdInjective | functions/src/meetings/utils/meeting-helpers.ts:46-56 | equal meeting ids have equal parties and equal start seconds |
| MeetingHelpers.AvailabilityIdSplits | functions/src/meetings/utils/meeting-helpers.ts:62-69 | an availability id splits at `__` back into the mentor's document id and the seconds of `date`T`slotStart` |
| MeetingHelpers.OldAvailabilityIdRoundTrip | functions/src/meetings/utils/meeting-helpers.ts:75-88 | `<docId>_slot_<n>` reads back as that document and index |
| MeetingHelpers.OldAvailabilityIdSound | functions/src/meetings/utils/meeting-helpers.ts:75-88 | a reference is read only from an id with exactly one `_slot_`, the document id before it and a number after it |
| MeetingHelpers.OldAvailabilityIdWithoutSeparator | functions/src/meetings/utils/meeting-helpers.ts:79-80 | an id without `_slot_` is refused |
| MeetingHelpers.FormatDateExtendsMonthYear | functions/src/meetings/utils/meeting-helpers.ts:113-127 | a date's `YYYY-MM-DD` label is its `YYYY-MM` label followed by the two-digit day |
| MeetingHelpers.FormatDateSplits | functions/src/meetings/utils/meeting-helpers.ts:113-118 | the label splits at `-` into the year and the two-digit month (counted from 1) and day |
| MeetingHelpers.FormatDateDecodes | functions/src/meetings/utils/meeting-helpers.ts:113-118 | the three parts read back as year, month and day |
| MeetingHelpers.FormatDateInjective | functions/src/meetings/utils/meeting-helpers.ts:113-118 | different dates of the common era get different labels |
| MeetingHelpers.AddHoursOfNumbers | functions/src/meetings/utils/meeting-helpers.ts:132-136 | on a time whose fields read as numbers, the hour advances by JavaScript's remainder modulo 24 and both fields are padded to two digits |
| MeetingHelpers.AddHoursClock | functions/src/meetings/utils/meeting-helpers.ts:132-136 | on `HH:MM`, adding hours moves the hour round the day and keeps the minutes |
| MeetingHelpers.AddHoursWrapsAtMidnight | functions/src/meetings/utils/meeting-helpers.ts:134 | the hour after 23 is 00 |
| MeetingHelpers.AddHoursNeedsMinutes | functions/src/meetings/utils/meeting-helpers.ts:133-135 | a time without `:` has no minutes and makes the helper throw |
| Database.UniversityPath | functions/src/utils/database.ts:29-31 | the path has no whitespace and no ASCII upper-case letter |
| Database.UniversityPathOfCleanNames | functions/src/utils/database.ts:29-31 | names already lower-case and free of whitespace are joined with `_` unchanged |
| Database.KeepAllowed | functions/src/utils/database.ts:54 | only ASCII letters and digits, whitespace, `-` and `'` are left |
| Database.DashesToUnderscores | functions/src/utils/database.ts:55 | same length, `-` and `'` become `_` and nothing else changes |
| Database.GenerateUserDocumentId | functions/src/utils/database.ts:44-65 | a produced id is non-empty, made of letters, digits and single underscores, with none at either end |
| Database.SlugAlnums | functions/src/utils/database.ts:52-58 | the cleaning keeps exactly the name's ASCII letters and digits, in order |
| Database.GenerateUserDocumentIdFails | functions/src/utils/database.ts:45-62 | the helper throws exactly when the name has no ASCII letter or digit, and otherwise keeps all of them |
| Database.SlugOfSpacedWords | functions/src/utils/database.ts:49-58 | words of letters and digits separated by single spaces are joined by `_` ("John Smith" gives "John_Smith") |
| Database.SlugDeletesUnderscores | functions/src/utils/database.ts:54 | underscores in a name are removed by the first filter ("Mary_Jane" gives "MaryJane") |
| Database.OnlyAlnumsKept | functions/src/utils/database.ts:55-58 | the stages after the first filter leave letters and digits alone |
| Database.Suffixed | functions/src/utils/database.ts:84 | every candidate `<base>_<n>` extends the base |
| Database.SuffixedInjective | functions/src/utils/database.ts:84 | different counters give different candidates |
| Database.GenerateUniqueUserId | functions/src/utils/database.ts:70-87 | fails exactly when the base id cannot be built; the id is never taken; it is the base id when free, else `<base>_<k>` for the smallest k from 2 whose id is free |
| Database.GetDocument | functions/src/utils/database.ts:184-208 | succeeds exactly for an existing non-empty id, returning its id and data; "Document not found" for an absent one |
| Database.CreateDocumentWithCustomId | functions/src/utils/database.ts:92-111 | succeeds for a non-empty id, storing the data under it (replacing any document there) and keeping every other document |
| Database.FreshKey | functions/src/utils/database.ts:121 | the store's automatic id is non-empty and unused |
| Database.CreateDocument | functions/src/utils/database.ts:116-134 | always succeeds, under an id no document had, adding exactly that document |
| Database.CreateDocumentGrowsByOne | functions/src/utils/database.ts:116-134 | the collection grows by exactly one |
| Database.UpdateDocument | functions/src/utils/database.ts:139-157 | succeeds exactly for an existing non-empty id, applying the patch to it alone; otherwise nothing changes and the failure is returned |
| Database.DeleteDocument | functions/src/utils/database.ts:162-179 | succeeds for any non-empty id, present or not, removing only that document |
| Database.DeleteIdempotent | functions/src/utils/database.ts:162-179 | deleting twice is deleting once |
| Database.SubcollectionMarkerFor | functions/src/utils/database.ts:272-279 | the marker is initialized, names the user and the subcollection, and has version 1 |
| Database.MarkersFor | functions/src/utils/database.ts:266-286 | exactly one marker per listed subcollection |
| Database.PrepareMarkers | functions/src/utils/database.ts:262-286 | the loop reports every listed subcollection as created and batches its marker |
| Database.SixSubcollections | functions/src/utils/database.ts:253-260 | six subcollections are prepared |
| Database.InitializeUserSubcollections | functions/src/utils/database.ts:243-311 | an empty path or user id fails with nothing written; otherwise all six are reported created with none failed, the message counts 6/6, and the six markers are merged over the user's existing ones |
| Auth.VerifyAuth | functions/src/utils/auth.ts:8-33 | a call without auth is unauthenticated; otherwise the caller's uid, email, role and university path from the token |
| Auth.Gate | functions/src/utils/auth.ts:41-95 | a gate admits only an authenticated caller whose role is non-empty and in its list |
| Auth.VerifySuperAdmin | functions/src/utils/auth.ts:38-46 | admits exactly a super admin; otherwise unauthenticated without auth and permission-denied with it |
| Auth.VerifyCoordinator | functions/src/utils/auth.ts:51-63 | admits exactly a super admin, or a coordinator whose token names the same university |
| Auth.VerifyMentor | functions/src/utils/auth.ts:68-82 | admits exactly a mentor, coordinator or super admin |
| Auth.VerifyMentee | functions/src/utils/auth.ts:87-95 | admits exactly a mentee, mentor, coordinator or super admin |
| Auth.RoleHierarchy | functions/src/utils/auth.ts:38-95 | each gate admits every caller a stricter gate admits, with the same identity |
| Auth.NoRoleNoAccess | functions/src/utils/auth.ts:41-90 | a token without a role, or with an empty one, passes none of the four gates |
| Auth.SuperAdminPassesAll | functions/src/utils/auth.ts:38-95 | a super admin passes all four gates, for any university |
| Auth.MenteeOnlyMenteeGate | functions/src/utils/auth.ts:38-95 | a mentee passes only the mentee gate |
| Auth.SetUserClaims | functions/src/utils/auth.ts:100-107 | the account's claims are replaced; an unknown account or a provider failure is internal with nothing changed |
| Conversations.CallerWithPath | functions/src/messaging/conversations.ts:78-84 | an unauthenticated caller is refused first, then a caller whose token has no non-empty university path; every other caller passes with its own context |
| Conversations.UserByUid | functions/src/messaging/conversations.ts:696-706 | the caller's user document is found exactly when some document carries the caller's login id; the one found carries it and is the first such by id; otherwise not-found |
| Order.SortLtTotal | functions/src/messaging/conversations.ts:179 | the default `sort()` order is a strict total order on strings: irreflexive, asymmetric, and any two different strings are ordered |
| Order.SortOrderIsNotCodePointOrder | functions/src/messaging/conversations.ts:179 | the default `sort()` order differs from code point order: an emoji sorts before a full-width `!` by code units and after it by code points |
| Order.SortOrderBelowSurrogates | functions/src/messaging/conversations.ts:179 | on strings of characters below U+D800 the default `sort()` order is code point order |
| Text.Utf16Injective | functions/src/messaging/conversations.ts:179 | different strings have different UTF-16 encodings |
| Conversations.SortedPair | functions/src/messaging/conversations.ts:179 | the two ids are returned as a pair in non-decreasing order of UTF-16 code units, as the default `sort()` orders them, and the pair is the same two ids |
| Conversations.ConversationIdSymmetric | functions/src/messaging/conversations.ts:179-180 | both users get the same conversation id, whichever of them is named first |
| Conversations.ConversationIdDeterminesPair | functions/src/messaging/conversations.ts:179-180 | for ids with no `__` inside and no trailing `_`, equal conversation ids mean the same pair of users |
| Conversations.SeparatorInIdsCollides | functions/src/messaging/conversations.ts:179-180 | ids that contain `__` let two different pairs of users share one conversation id |
| Conversations.CheckCreate | functions/src/messaging/conversations.ts:64-173 | createConversation passes exactly when the caller has a university path, both user ids are given and exist, and the caller's login id is one of the two users'; each failure gives its own error in that order |
| Conversations.CheckCreateSymmetric | functions/src/messaging/conversations.ts:89-173 | naming the two users in the other order gives the same outcome |
| Conversations.NewConversation | functions/src/messaging/conversations.ts:243-283 | the new conversation has the two users sorted, a name (default empty) and user type (default mentee) for each, fresh settings for each (nothing unread, notifications on, not archived or pinned, no nickname), no last message, type direct, and a mentorship and academic year only when a mentorship id is given |
| Conversations.NewConversationSymmetric | functions/src/messaging/conversations.ts:179-283 | for two different users the stored conversation does not depend on the order they are named |
| Conversations.CreateConversation | functions/src/messaging/conversations.ts:47-390 | a failed check is returned with nothing written; an existing conversation under the pair's id is reported as already existing and left alone; otherwise the new conversation is written under that id and reported as created |
| Conversations.EmailMatches | functions/src/messaging/conversations.ts:496-499 | exactly the user documents whose email is the given one |
| Conversations.FindSender | functions/src/messaging/conversations.ts:467-508 | the sender is the first document with the caller's login id; failing that, the document named by the login id; failing that, the first with the caller's email; not-found when none, and an internal error when the login id is empty or the email missing |
| Conversations.CheckSend | functions/src/messaging/conversations.ts:413-518 | sendMessage passes only for a caller with a university path, a conversation id and a message of at most 5000 UTF-16 code units, an existing conversation, and a sender who takes part in it; a sender outside it is refused |
| Conversations.LongestMessageAccepted | functions/src/messaging/conversations.ts:437-440 | a message of exactly 5000 UTF-16 code units passes the length check |
| Conversations.FirstOther | functions/src/messaging/conversations.ts:557 | the position of the first participant who is not the sender; every earlier one is the sender |
| Conversations.Recipient | functions/src/messaging/conversations.ts:557 | the recipient is a participant other than the sender, and there is none exactly when every participant is the sender |
| Conversations.Bumped | functions/src/messaging/conversations.ts:571-574 | the recipient's unread count goes up by one, a missing count starting at 0; every other participant's settings are unchanged |
| Conversations.NewMessage | functions/src/messaging/conversations.ts:523-544 | the message carries the sender, the text, the time, status sent, read by the sender alone, type text by default, and media only on a message whose type is not text |
| Conversations.AfterSend | functions/src/messaging/conversations.ts:556-577 | the conversation gets the last message and the time, and the recipient, when there is a non-empty one, has one more unread message; nothing else changes |
| Conversations.SendMessage | functions/src/messaging/conversations.ts:395-616 | a failed check is returned with nothing written; otherwise the message is stored under a fresh id that is returned, and the conversation is updated as AfterSend says, in the same write |
| Conversations.SendCountsForTheOther | functions/src/messaging/conversations.ts:557-574 | in a conversation of two, a message adds one to the other user's unread count and leaves the sender's settings as they were |
| Conversations.SendSkipsLaterParticipants | functions/src/messaging/conversations.ts:557 | with three participants, only the first one other than the sender is counted; the third's settings do not change |
| Conversations.SendToSelfCountsNothing | functions/src/messaging/conversations.ts:557-574 | when every participant is the sender, no unread count changes |
| Conversations.ReadBy | functions/src/messaging/conversations.ts:729-732 | a read message has status read and the reader in its read-by map at the given time; the other readers are kept |
| Conversations.ReadByIdempotent | functions/src/messaging/conversations.ts:724-733 | marking a message read twice at the same time is the same as marking it once |
| Conversations.CheckMarkRead | functions/src/messaging/conversations.ts:639-716 | markMessagesRead passes only for a caller with a university path, a conversation id and a non-empty list of message ids, an existing conversation, and a caller found by login id who takes part in it |
| Conversations.Participant | functions/src/messaging/conversations.ts:681-716 | the conversation and the caller's user document must exist, giving not-found otherwise; a caller who does not take part is refused |
| Conversations.MarkEach | functions/src/messaging/conversations.ts:724-733 | every listed message is read by the caller, and every other message is unchanged |
| Conversations.Cleared | functions/src/messaging/conversations.ts:739-742 | the reader's unread count becomes 0 and their last read the current time; every other participant's settings are unchanged |
| Conversations.MarkMessagesRead | functions/src/messaging/conversations.ts:622-779 | a failed check, or a listed message that does not exist, writes nothing; otherwise every listed message is read by the caller, the caller's unread count is cleared, and the answer counts the listed ids |
| Conversations.ReadAfterSendClears | functions/src/messaging/conversations.ts:571-572 | after a send followed by a read, the reader has nothing unread, and the sender's settings are untouched by the read |
| Conversations.Applied | functions/src/messaging/conversations.ts:881-899 | each supplied setting replaces the stored one, a nickname given as null clears it, and the unread count and last read are never touched |
| Conversations.AppliedIdempotent | functions/src/messaging/conversations.ts:881-913 | applying the same settings twice is the same as applying them once |
| Conversations.AppliedNothing | functions/src/messaging/conversations.ts:881-899 | a change with no field leaves the settings as they are |
| Conversations.CheckSettings | functions/src/messaging/conversations.ts:800-913 | updateConversationSettings passes only for a caller with a university path, a conversation id, settings, and a caller who takes part; a change with no field is refused by the store's update as an internal error |
| Conversations.UpdateConversationSettings | functions/src/messaging/conversations.ts:784-947 | a failed check writes nothing; otherwise only the caller's own settings entry in the conversation changes, as Applied says |
| Conversations.ViewFor | functions/src/messaging/conversations.ts:1052-1070 | the listed conversation shows the caller's unread count (0 when missing), archived and pinned only when stored as true, and notifications on unless stored as false |
| Conversations.NewConversationView | functions/src/messaging/conversations.ts:243-283 | a new conversation shows both users nothing unread, not archived or pinned, notifications on and no nickname |
| Conversations.Candidates | functions/src/messaging/conversations.ts:1015-1042 | the conversations the query can return are exactly those the caller takes part in that lie past the cursor, when there is one |
| Conversations.ListConversationsSpec | functions/src/messaging/conversations.ts:1015-1045 | the listing holds at most the limit of the caller's conversations past the cursor, newest first; any conversation left out is older than every listed one and only when the page is full |
| Conversations.ListedInOrder | functions/src/messaging/conversations.ts:1015-1021 | every conversation on the page is one the caller takes part in, past the cursor |
| Conversations.ListedOmitsOnlyOlder | functions/src/messaging/conversations.ts:1015-1021 | a conversation the query could return is left out only when the page is full and every listed one is newer |
| Conversations.GetUserConversations | functions/src/messaging/conversations.ts:952-1102 | a caller without a university path or a user document is refused; otherwise the page lists the caller's conversations (20 by default, continuing after the named one when it exists) with the caller's settings, and says there may be more exactly when the page is full |
| Conversations.ShortPageIsComplete | functions/src/messaging/conversations.ts:1075-1078 | a page that is not full holds every conversation of the caller past the cursor |
| Conversations.SentConversationComesFirst | functions/src/messaging/conversations.ts:561-568 | a message sent after every conversation was last updated brings its conversation to the top of each participant's first page |
| Announcements.CheckCreate | functions/src/announcements/management.ts:41-57 | createAnnouncement passes exactly for a mentor, coordinator or super admin who gives a title, content, priority and audience with a title of at most 200 and content of at most 2000 UTF-16 code units; the gate's error comes first, then invalid-argument |
| Announcements.NewAnnouncement | functions/src/announcements/management.ts:60-68 | the stored announcement has the trimmed title and content, the given time or else the current one, the given priority and audience, and the caller as author |
| Announcements.CreateAnnouncement | functions/src/announcements/management.ts:28-91 | a failed check writes nothing; otherwise the new announcement is stored under a fresh id that is returned; every stored announcement stays within both caps |
| Announcements.CheckOwner | functions/src/announcements/management.ts:99-120 | update and delete pass exactly for a mentor-gate caller naming an existing announcement that they may edit (a mentor only their own); missing id, unknown announcement and a foreign one give invalid-argument, not-found and permission-denied |
| Announcements.CheckUpdate | functions/src/announcements/management.ts:99-129 | an update passes exactly when the owner checks pass and neither a given title nor a given content is over its cap |
| Announcements.TrimmedText | functions/src/announcements/management.ts:132-135 | a given text is stored trimmed (an empty one stays empty); a text left out keeps the stored one |
| Announcements.UpdatePatch | functions/src/announcements/management.ts:132-138 | every given field of the declared `UpdateAnnouncementData` replaces the stored one, texts trimmed; the editor and time are recorded, and the author and creation time, which are not among those fields, stay |
| Announcements.PatchWithinLimits | functions/src/announcements/management.ts:122-138 | a merge whose given texts pass the caps keeps a stored announcement within them, since trimming never lengthens a text |
| Announcements.UpdateAnnouncement | functions/src/announcements/management.ts:96-157 | a failed check writes nothing; otherwise the announcement is replaced by its patched version, and every stored announcement stays within both caps |
| Announcements.DeleteAnnouncement | functions/src/announcements/management.ts:162-208 | a failed owner check writes nothing; otherwise exactly that announcement is removed |
| Announcements.Candidates | functions/src/announcements/management.ts:227-228 | the announcements the query can return are exactly those whose audience is `both` or the reader's user type |
| Announcements.ListAnnouncementsSpec | functions/src/announcements/management.ts:227-231 | the listing holds at most the limit of announcements meant for the reader, newest first; one left out is older than every listed one, and then the listing is full |
| Announcements.GetAnnouncements | functions/src/announcements/management.ts:213-249 | an unauthenticated caller is refused and a request without a user type fails; otherwise the answer lists the matching announcements with their ids, 20 by default |
| Announcements.LengthBoundaries | functions/src/announcements/management.ts:51-57 | the caps are inclusive: a title of 200 and content of 2000 UTF-16 code units pass, and one more code unit fails |
| Announcements.AstralCharactersCountTwice | functions/src/announcements/management.ts:51-53 | the caps count UTF-16 code units: a title of 101 emoji, 202 code units, is refused |
| Announcements.LimitCheckedBeforeTrim | functions/src/announcements/management.ts:51-62 | the length is measured before trimming: a one-letter title padded with 200 blanks is refused |
| Announcements.OwnerOnlyForMentors | functions/src/announcements/management.ts:117-120 | a mentor may act on an announcement exactly when they wrote it; a coordinator or super admin on any; a mentee on none |
| Announcements.AudienceMismatch | functions/src/announcements/management.ts:227-228 | for audiences within the declared union `mentors`, `mentees` or `both`, readers asking as `mentor` or `mentee` see only announcements meant for both |
| Announcements.StoredTextsTrimmed | functions/src/announcements/management.ts:61-62 | a stored title and content are already trimmed |
| Announcements.UpdateIdempotent | functions/src/announcements/management.ts:132-140 | applying the same update twice stores what applying it once does, apart from the time |
| Announcements.TrimmedTextIdempotent | functions/src/announcements/management.ts:134-135 | storing the same given text twice is the same as storing it once |
| UserManagement.NewUser | functions/src/users/management.ts:43-56 | the new user has the given name, email and user type, no mentees and no mentor, acknowledgment `not_applicable` unless given, the optional fields only when non-empty, and the creation time |
| UserManagement.CreateUser | functions/src/users/management.ts:30-86 | a request missing a name, email or user type is refused with nothing written; otherwise the new user is stored under a fresh id that is returned, and it has all three fields |
| UserManagement.Merge | functions/src/users/management.ts:108-111 | a given field replaces the stored one; a field left out keeps it |
| UserManagement.UserPatch | functions/src/users/management.ts:108-111 | every given field of an update replaces the stored one and the update time is set; no other field changes |
| UserManagement.UpdateUser | functions/src/users/management.ts:91-128 | the update succeeds exactly for an existing user id, and then only that user changes, as UserPatch says; otherwise nothing is written |
| UserManagement.DeleteUser | functions/src/users/management.ts:133-162 | a request without a user id is refused; otherwise exactly that user is removed, and the delete reports success even for an unknown id |
| UserManagement.ById | functions/src/users/management.ts:181-186 | the listing has one entry per stored user, each with its id and record, in strictly increasing id order |
| UserManagement.ByIdComplete | functions/src/users/management.ts:181-186 | every stored user appears in the listing |
| UserManagement.GetAllUsers | functions/src/users/management.ts:167-204 | a request without a university path is refused; otherwise every user is listed with its id |
| UserManagement.AssignMentor | functions/src/users/management.ts:209-258 | a request missing either id is refused; otherwise the mentee, when it exists, gets the mentor and an update time, and a mentorship with progress 0 assigned by `test-admin` is added under a fresh id even when the mentee does not exist |
| UserManagement.CreatedUserListed | functions/src/users/management.ts:30-204 | after createUser the listing grows by one and holds the new user under its new id |
| UserManagement.UpdateCanBlankRequiredField | functions/src/users/management.ts:108-111 | an update may set the name to empty, which createUser would have refused |
| UserManagement.UpdateIdempotent | functions/src/users/management.ts:108-111 | repeating an update stores what one update does, apart from the update time |
| UserManagement.UpdateKeepsIdentity | functions/src/users/management.ts:108-111 | an update made of the declared `UpdateUserData` fields never changes the mentor, the mentees, the login id, the creation time or the user type |
| UserManagement.DeletedUserNotListed | functions/src/users/management.ts:133-204 | after a delete the user is no longer listed, and deleting again changes nothing |
| Acknowledgment.ClaimedRole | functions/src/users/acknowledgment.ts:28 | the caller's role is the token's `role` when non-empty, else its `userType` |
| Acknowledgment.FindUser | functions/src/users/acknowledgment.ts:46-63 | the user document is the first by id whose login id is the caller's; when there is none and the caller has an email, the first whose email it is; none exactly when neither lookup finds one |
| Acknowledgment.SignedStatus | functions/src/users/acknowledgment.ts:80 | the stored acknowledgment, `no` when the field is missing |
| Acknowledgment.CheckMenteeAcknowledgment | functions/src/users/acknowledgment.ts:9-109 | an unauthenticated caller is refused; a caller whose role is not mentee never needs to acknowledge; a mentee without a user document does; otherwise the stored status is reported and an acknowledgment is needed exactly when it is not `yes` |
| Acknowledgment.SignPatch | functions/src/users/acknowledgment.ts:197-201 | signing sets the acknowledgment to `yes`, the date to now and the name to the trimmed full name; nothing else of the user changes |
| Acknowledgment.SubmitMenteeAcknowledgment | functions/src/users/acknowledgment.ts:115-259 | an unauthenticated caller, a full name shorter than three UTF-16 code units after trimming, and a caller without a user document are refused in that order with nothing written; otherwise the document is signed, and the mentee claims are set when the identity provider accepts them, which the answer reports without failing |
| Acknowledgment.FindUserStable | functions/src/users/acknowledgment.ts:46-63 | a change that keeps every document's login id and email finds the same user document |
| Acknowledgment.SubmitSettlesCheck | functions/src/users/acknowledgment.ts:197-201 | after a successful submission the same caller is reported signed and no longer needs to acknowledge |
| Acknowledgment.OnlyUnsignedMenteesNeedAcknowledgment | functions/src/users/acknowledgment.ts:28-83 | only a caller whose role is mentee and whose document is missing or unsigned is asked to acknowledge |
| Acknowledgment.TwoEmojiNameValid | functions/src/users/acknowledgment.ts:140 | the name length counts UTF-16 code units: two emoji are a valid name and one is not |
| Acknowledgment.StoredNameTrimmed | functions/src/users/acknowledgment.ts:200 | the stored name is the trimmed one, at least three UTF-16 code units long (so at least two characters), and trimming it again changes nothing |
| ClaimsSync.GrantedClaims | functions/src/auth/triggers.ts:109-112 | the granted claims are the user's type as role and the fixed university as path |
| ClaimsSync.LoginPatch | functions/src/auth/triggers.ts:115-126 | a login records the login id only when the document has none, and always the login time; nothing else changes |
| ClaimsSync.RegistrationPatch | functions/src/auth/triggers.ts:307-326 | a registration stamps as a login does, and records the account creation time only when the login id was missing; nothing else changes |
| ClaimsSync.SyncClaimsOnLogin | functions/src/auth/triggers.ts:27-150 | an unauthenticated caller is refused and an unknown account is an internal error; settled claims (a super admin's, or a role and a university) are returned with nothing written; otherwise a missing user document, a missing user type and a refused claims write fail with nothing written, and on success the claims are set and the document stamped |
| ClaimsSync.SetClaimsOnRegistration | functions/src/auth/triggers.ts:156-379 | a missing login id and an unknown account are refused; the user document is found by login id, else by the account's email; a missing document, a missing user type and a refused claims write fail with nothing written; on success the claims are set and the document stamped, and the claims are then settled |
| ClaimsSync.GrantedClaimsSettled | functions/src/auth/triggers.ts:48-64 | claims granted for a non-empty user type are settled, so the next login returns them without a write |
| ClaimsSync.LoginLookupStable | functions/src/auth/triggers.ts:115-126 | after the login stamp the lookup finds the same document, and a document found by email now carries the login id |
| ClaimsSync.LoginKeepsForeignUid | functions/src/auth/triggers.ts:115-126 | a document found by email that already carries another login id keeps it |
| UniversitySetup.CheckInitialize | functions/src/university/initialization.ts:23-43 | setup passes exactly for a super admin who gives all four fields for a path with no university record yet; the gate's error comes first, then invalid-argument, then already-exists; the answer is the university path |
| UniversitySetup.MarkerFor | functions/src/university/initialization.ts:80-85 | a collection's marker names the collection, the creator and the time, at version 1 |
| UniversitySetup.CollectionMarkers | functions/src/university/initialization.ts:63-86 | there is a marker for exactly the listed collections, each the one MarkerFor gives |
| UniversitySetup.BatchMarkers | functions/src/university/initialization.ts:78-86 | the loop over the collections adds exactly the markers CollectionMarkers describes |
| UniversitySetup.DefaultSettings | functions/src/university/initialization.ts:89-96 | the default settings carry the name and the current year, with the program active and registration open |
| UniversitySetup.InitializeUniversity | functions/src/university/initialization.ts:17-120 | a failed check writes nothing; otherwise the record, the eleven markers and the default settings are written together, and the answer names the path, the eleven collections and the success message |
| UniversitySetup.DeleteUniversity | functions/src/university/initialization.ts:157-190 | only a super admin naming a path may delete, and then exactly the university record is removed |
| UniversitySetup.GetUniversities | functions/src/university/initialization.ts:125-152 | only a super admin may list, and the gate's error is the answer; otherwise the answer is the records in id order |
| UniversitySetup.RecordsSpec | functions/src/university/initialization.ts:131-136 | the listing has one entry per record: the i-th is the record of the i-th id, ids strictly increasing, and every record appears |
| UniversitySetup.MergedMarkers | functions/src/university/initialization.ts:77-86 | after setup each of the eleven collections has a fresh version-1 marker, a marker of any other collection under the path survives, and no other marker appears |
| UniversitySetup.InitializeOnce | functions/src/university/initialization.ts:37-43 | once a university is set up, the same request is refused as already existing |
| UniversitySetup.DeleteThenInitializeAgain | functions/src/university/initialization.ts:170-172 | deleting leaves the university's data behind: the same setup request is accepted again and finds the old settings in place |
| UniversitySetup.PathNotEmpty | functions/src/university/initialization.ts:28-32 | a request with all four fields never yields an empty path |
| Migration.SourceName | functions/src/migrations/meetings-availability-migration.ts:123-125 | the three old subcollections are named `meetings`, `availability` and `requestedMeetings` |
| Migration.Interpolated | functions/src/migrations/meetings-availability-migration.ts:225 | a present string is rendered as itself in a template literal |
| Migration.StartSeconds | functions/src/migrations/meetings-availability-migration.ts:152-153 | a start stored as a string gives the seconds of its parsed date; a missing start gives none, which the id prints as NaN |
| Migration.MigrateMeeting | functions/src/migrations/meetings-availability-migration.ts:128-192 | a moved meeting gets its new id, the migration time, its origin path and the start it had; a requested meeting becomes pending; both parties' document ids are set; an error entry names the subcollection and the document |
| Migration.MeetingStep | functions/src/migrations/meetings-availability-migration.ts:173-191 | an old meeting is counted on a dry run and written nowhere; a real run writes and counts it only when its new id is free; nothing is ever replaced, and a meeting already moved changes only the error list |
| Migration.MeetingsFold | functions/src/migrations/meetings-availability-migration.ts:128-193 | the loop over one user's old meetings never replaces a meeting, touches no availability, lowers no counter, and writes nothing on a dry run |
| Migration.SlotEnd | functions/src/migrations/meetings-availability-migration.ts:358-362 | a slot ends at its own end when set, else an hour after its start; a slot without start or end fails |
| Migration.MigrateSlot | functions/src/migrations/meetings-availability-migration.ts:222-250 | a slot becomes a document exactly when its day is a valid date and its end can be computed; the document has the generated id, the mentor, the day, the start and end, the booked flag and the mentor-date key |
| Migration.SlotStep | functions/src/migrations/meetings-availability-migration.ts:221-265 | once a slot has failed the later slots change nothing; a built slot is counted, and written unless the run is dry; meetings are never touched |
| Migration.SlotsFold | functions/src/migrations/meetings-availability-migration.ts:221-261 | the loop over one document's slots touches no meeting and no other counter, and writes nothing on a dry run |
| Migration.AvailabilityStep | functions/src/migrations/meetings-availability-migration.ts:213-266 | one old availability document adds its slots and an error entry when one of them failed; the meetings and their counters are untouched |
| Migration.AvailabilityFold | functions/src/migrations/meetings-availability-migration.ts:211-267 | the loop over one user's old availability touches no meeting, and writes nothing on a dry run |
| Migration.MoverOf | functions/src/migrations/meetings-availability-migration.ts:57-59 | the user moving their own documents is named by their document id and login id |
| Migration.UserStep | functions/src/migrations/meetings-availability-migration.ts:56-86 | a user without a login id is logged and skipped; otherwise their meetings, availability and requested meetings are moved in that order; nothing is replaced, and a dry run writes nothing |
| Migration.UsersFold | functions/src/migrations/meetings-availability-migration.ts:56-86 | the loop over the users never replaces a meeting or loses an error entry, and writes nothing on a dry run |
| Migration.MigrationStats.constructor | functions/src/migrations/meetings-availability-migration.ts:37-43 | the run starts with every counter at 0 and no errors |
| Migration.Count | functions/src/migrations/meetings-availability-migration.ts:183-187 | a moved requested meeting bumps its own counter, any other meeting the meetings counter |
| Migration.ApplyMeeting | functions/src/migrations/meetings-availability-migration.ts:143-191 | applying an old meeting to the store and the statistics does what MeetingStep says, and changes nothing else in the store |
| Migration.MigrateMeetingsForUser | functions/src/migrations/meetings-availability-migration.ts:114-194 | the loop over one user's old meetings or requested meetings, in id order, leaves the store and the statistics as MeetingsFold says |
| Migration.ApplySlot | functions/src/migrations/meetings-availability-migration.ts:252-260 | applying a built slot does what SlotStep says, and changes nothing else in the store |
| Migration.MigrateSlots | functions/src/migrations/meetings-availability-migration.ts:218-261 | the slot loop of one document, stopping at the first slot that fails, leaves the store and the statistics as SlotsFold says |
| Migration.SlotsFoldStopped | functions/src/migrations/meetings-availability-migration.ts:216-265 | once a slot has failed, the remaining slots change nothing |
| Migration.MigrateAvailabilityForUser | functions/src/migrations/meetings-availability-migration.ts:199-267 | the loop over one user's old availability, in id order, leaves the store and the statistics as AvailabilityFold says |
| Migration.MigrateUser | functions/src/migrations/meetings-availability-migration.ts:57-85 | one user's step on the store and the statistics is the one UserStep says; only the two target collections change |
| Migration.MigrateUsers | functions/src/migrations/meetings-availability-migration.ts:56-86 | the loop over the users, in order, leaves the store and the statistics as UsersFold says |
| Migration.MigrateAll | functions/src/migrations/meetings-availability-migration.ts:37-86 | the whole run, with one statistics object, leaves the target collections and the tally as the migration over all users says, and nothing else changes |
| Migration.DryRun | functions/src/migrations/meetings-availability-migration.ts:28 | a run whose dry flag is left out is a dry run |
| Migration.MigrateMeetingsAndAvailability | functions/src/migrations/meetings-availability-migration.ts:17-109 | a caller without an admin token, then a request without a university path, is refused with nothing written; otherwise the migration runs and reports its tally and message, and a dry run changes nothing |
| Migration.OldDocumentsOf | functions/src/migrations/meetings-availability-migration.ts:403-444 | the cleanup count is the number of old documents over the users, `_metadata` markers of the three subcollections included, 0 for none |
| Migration.Cleared | functions/src/migrations/meetings-availability-migration.ts:403-444 | clearing changes nothing but the three old subcollections |
| Migration.ClearedEmpties | functions/src/migrations/meetings-availability-migration.ts:403-444 | after clearing, the given users hold no old documents, and every other user keeps theirs |
| Migration.ClearedKeepsOtherMarkers | functions/src/migrations/meetings-availability-migration.ts:406-443 | a cleared user loses exactly the markers of `meetings`, `availability` and `requestedMeetings`; other markers, and every marker of a user not cleared, stay |
| Migration.ClearedUserEmpty | functions/src/migrations/meetings-availability-migration.ts:406-443 | a cleared user holds no old document and no marker in the three subcollections |
| Migration.ClearUser | functions/src/migrations/meetings-availability-migration.ts:404-443 | one user's old documents, the `_metadata` markers of the three subcollections included, are counted, and deleted unless the run is dry |
| Migration.ClearUsers | functions/src/migrations/meetings-availability-migration.ts:403-444 | the loop over the users counts their old documents and markers, and unless dry deletes exactly those users' three old subcollections with their markers, keeping the markers of their other subcollections |
| Migration.CleanupOldMeetingSubcollections | functions/src/migrations/meetings-availability-migration.ts:375-461 | a caller without an admin token, then a request without a university path, is refused with nothing written; otherwise every user's old documents and the markers of those subcollections are counted and reported, and deleted unless the run is dry |
| Migration.MovedMeetingLinksParties | functions/src/migrations/meetings-availability-migration.ts:133-168 | a moved meeting links two stored users whose login ids are its mentor and mentee uids, and the moving user is one of them |
| Migration.MovedMeetingIdIsGenerated | functions/src/migrations/meetings-availability-migration.ts:152-157 | for a start stored as a string, a moved meeting's id is the one the booking code generates for the same parties and start |
| Migration.SlotIdIsGenerated | functions/src/migrations/meetings-availability-migration.ts:225-226 | a slot's new id is the one the availability code generates for its mentor, day and start |
| Migration.DryRunWritesNothing | functions/src/migrations/meetings-availability-migration.ts:173-188 | a dry run leaves both target collections as they were |
| Migration.OutcomeIgnoresTime | functions/src/migrations/meetings-availability-migration.ts:151-171 | whether a meeting moves, and to which id, does not depend on when the run happens |
| Migration.MeetingsFoldMoves | functions/src/migrations/meetings-availability-migration.ts:173-184 | after a real run over a user's old meetings, every one that can be moved has its new id taken |
| Migration.MeetingsFoldSettled | functions/src/migrations/meetings-availability-migration.ts:174-184 | a real run over old meetings that are all moved already changes nothing but the error list |
| Migration.UserStepMoves | functions/src/migrations/meetings-availability-migration.ts:66-80 | after one user's real step, all their meetings and requested meetings that can be moved are moved |
| Migration.UserStepSettled | functions/src/migrations/meetings-availability-migration.ts:66-80 | one user's real step over meetings already moved writes no meeting and counts none |
| Migration.UsersFoldMoves | functions/src/migrations/meetings-availability-migration.ts:56-86 | after a real run over the users, every one of them has all movable meetings moved |
| Migration.UsersFoldSettled | functions/src/migrations/meetings-availability-migration.ts:56-86 | a real run over users who are all moved already writes no meeting and counts none |
| Migration.RerunMovesNoMeetings | functions/src/migrations/meetings-availability-migration.ts:173-184 | a second real migration over the result of the first writes no meeting and reports none moved |
| Migration.NothingLeftToCount | functions/src/migrations/meetings-availability-migration.ts:403-444 | users without old documents add nothing to the cleanup count |
| Migration.CleanupTwiceCountsNothing | functions/src/migrations/meetings-availability-migration.ts:403-452 | after a real cleanup, a second one finds no old document left |
| Migration.CleanupKeepsMigratedData | functions/src/migrations/meetings-availability-migration.ts:403-444 | the cleanup keeps the migrated meetings and availability, and the old documents of an id that is not a user |

## Left out

- Store mechanics: `serverTimestamp`, `increment`, `arrayUnion` and `arrayRemove` are modelled by their effect on the stored value, not as objects. Batches are applied as one step; their atomicity is the store's.
- Store failures: reads and writes of the store are taken to succeed except where the code itself makes a write fail (an update of a missing document, an update with no field). The store's rejection of `undefined` field values is not modelled; a field the caller leaves out is simply absent.
- Client fields spread into a record (`...updateData`, `...meetingData`) are limited to the fields the record declarations name; unknown extra fields are not carried. The real handlers copy whatever the caller sends, so a caller can overwrite fields the declarations leave out; the two identity properties below hold only for the declared fields.
- UserManagement.UpdateKeepsIdentity: holds for updates made of the declared `UpdateUserData` fields; the real `updateUser` spreads every field the caller sends, so a caller may overwrite `mentor`, `mentee`, `firebase_uid`, `created_at` or `userType`.
- Announcements.UpdatePatch: the author and creation time stay only for updates made of the declared `UpdateAnnouncementData` fields; the real `updateAnnouncement` spreads every field the caller sends, so a caller may overwrite `created_by` or `created_at`.
- University paths: a handler's `Tenant` stands for the university named by the request's `universityPath` (for conversations, by the caller's token), which the handler passes to `getUniversityCollection`. A missing, empty or malformed path makes building the store reference throw, and the handler then answers `internal`. This is not modelled: a handler that takes a `Tenant` receives it already resolved; only the handlers whose model takes the path itself (the conversation handlers, `getAllUsers` and the two migration handlers) check it. For example, `createUser` without a `universityPath` answers `internal`, where `UserManagement.CreateUser` succeeds.
- Declared string unions: request fields that are declared as TypeScript string unions (`target_audience`, `priority` and the `status` that `updateMeeting` spreads) are modelled as closed enumerations. Callable request data is not checked at run time, so a client may send any other string.
- Announcements.AudienceMismatch: holds only for audiences within the declared union `mentors`, `mentees` or `both`; an announcement created with `target_audience: "mentor"` would be listed for a `mentor` reader.
- Listing limits: the `limit` of `getUserConversations` and `getAnnouncements` is a natural number. A negative limit, which makes the store's `limit()` throw and the handler answer `internal`, cannot be represented.
- The identity provider (`getUser`, `setCustomUserClaims`) is a map of accounts with their claims; a provider failure is a boolean parameter.
- Dates: parsing a date string is the `Epoch` parameter, and `Timestamp.fromDate` throwing on an invalid date is modelled as `internal` wherever `Epoch` gives no value. `toLocaleDateString` and both `getWeekNumber` functions are not modelled. The migrated availability's `day_of_week`, `week_number` and `month_year` fields are therefore not produced.
- Database.UniversityPath: lower-casing is modelled on the ASCII letters `A`-`Z` only; JavaScript's `toLowerCase` also lower-cases letters of other scripts (`É`, `Σ`), which the model keeps unchanged, because the Unicode case-mapping tables are not modelled.
- Strings are sequences of Unicode scalar values; a JavaScript string holding a lone surrogate code unit cannot be represented. Lengths (`.length`) and the default `sort()` order are computed on the UTF-16 encoding (`Text.Utf16`), and the store's own id order on code points.
- `Number` and `parseInt` are modelled on decimal digit strings only; fractional and exponent forms are not.
- Pagination: `startAfter` is modelled as "strictly after the cursor's position in the listing order"; the store's index internals are not.
- Error values are the error kind alone; the message texts of `HttpsError` and the migration's error strings become structured values.
- Logging (`console.*`), timing and the debug listing of users in `setClaimsOnRegistration`, and its re-read of the account after setting claims, are left out because they change no state and no answer. The one logging line that can throw, `createMeeting`'s `toISOString` of the start time, is modelled (`MeetingCreation.StartParses`).
- `setClaimsOnLogin` (functions/src/auth/triggers.ts:11-21) does nothing and is not modelled.
- The `_metadata` documents are kept in maps of their own (`userMarkers` for a user's subcollections, `collectionMarkers` for a university's collections) rather than among the collection's documents. The cleanup counts and deletes the markers of the three subcollections it empties; the consequences elsewhere are listed below.
- Migration.MigrateMeetingsAndAvailability: the migration reads a user's subcollections without their `_metadata` markers, so the error entry that a `meetings` or `requestedMeetings` marker would add (its missing `mentor_id` makes the user lookup fail) is not produced; an `availability` marker has no slots and adds nothing. Likewise the `users/_metadata` marker, which the migration's user listing also returns, would add a "missing firebase_uid" error entry that the model does not produce.
- UserManagement.GetAllUsers: the listing holds the user documents only; the `users/_metadata` marker that `getAllUsers` also returns as an entry is not listed.
- Migration.MigrateUser: the per-user `catch` of the migration is not modelled, since every failure inside the per-user helpers is caught by their own per-document `catch`.
- Migration.DryRun: `dryRun` is an optional boolean; a `null` sent by a client, which JavaScript would treat as a real run, is not distinguished from a given `false`.
- Legacy `getMentorAvailability` (functions/src/meetings/management.ts:590-655) is not part of this model; the modular `getMentorAvailability` is.
- `queryCollection` (functions/src/utils/database.ts:213-238) is a generic filtered read that no modelled handler calls; it is not part of this model.
- Concurrency: each handler is one sequential step; races between concurrent calls are not modelled.
