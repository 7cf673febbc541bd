# CebuSafeTour core, modelled in Dafny

CebuSafeTour is a single-page tourist-safety app for Cebu with four roles. Tourists browse attractions, keep
favourites and personal contacts, and raise an SOS. Responders work through the incident queue. Staff curate
attractions, facilities and advisories. Administrators manage accounts.

Everything the app decides lives in a few in-memory stores and the screen handlers that drive them. This
project models that logic:

- the incident registry;
- the simulated call and its overlay;
- sign-in and roles;
- the advisory, facility and attraction stores;
- the SOS countdown;
- the responder, staff and admin dashboards;
- the tourist shell (contacts, favourites, explore filter, settings, screen choice);
- the simulated weather forecast.

Each store is a class whose methods replace a `seq` field. Every method is specified by a pure function of
the old state, and the store's properties are proved as lemmas about that function. Handlers that only
compute a value are functions. Handlers that reassign locals or loop are methods with their loop
invariants. Generated ids, clock readings, locale time strings and parsed dates are parameters.

Files, one module each:

| file | module | models |
|---|---|---|
| common.dfy | Common, Seqs | `Option`; `filter`, `map`, `find` with their laws |
| text.dfy | Text | `toLowerCase`, `indexOf`/`includes`, `replace`, `trim`, `toString`, `padStart` |
| domain.dfy | Domain | the records of types.ts and the seed lists of constants.ts |
| incidents.dfy | Incidents | contexts/IncidentContext.tsx |
| calls.dfy | Calls | contexts/CallContext.tsx |
| auth.dfy | Auth | contexts/AuthContext.tsx |
| advisories.dfy | Advisories | contexts/AdvisoryContext.tsx and the shared advisory form |
| facilities.dfy | Facilities | contexts/FacilityContext.tsx and the shared facility form |
| attractions.dfy | Attractions | contexts/AttractionContext.tsx |
| sos.dfy | Sos | components/SOSOverlay.tsx |
| responder.dfy | ResponderView | components/ResponderDashboard.tsx |
| call_ui.dfy | CallView | components/GlobalCallUI.tsx |
| staff.dfy | StaffView | components/StaffDashboard.tsx |
| admin.dfy | AdminView | components/AdminDashboard.tsx |
| tourist_app.dfy | MainApp | App.tsx |
| weather.dfy | Weather | services/weatherService.ts |

## Model

| member | source | states |
|---|---|---|
| Seqs.Filter | contexts/AdvisoryContext.tsx:26 | `filter` keeps exactly the elements that pass, and nothing else: everything kept passes and comes from the list, and everything that passes is kept |
| Seqs.Map | contexts/IncidentContext.tsx:39-41 | `map` keeps the length and puts each element's image in its place |
| Seqs.Find | contexts/AuthContext.tsx:34 | `find` gives nothing exactly when no element passes; otherwise it gives the first element that passes |
| Seqs.FilterAppend | contexts/AdvisoryContext.tsx:26 | filtering keeps order: filtering a concatenation is concatenating the filtered parts |
| Seqs.FilterAllKept | contexts/FacilityContext.tsx:25 | filtering a list whose every element passes returns it unchanged |
| Seqs.FilterIdempotent | contexts/FacilityContext.tsx:25 | filtering twice by the same test is filtering once |
| Seqs.FilterDropsRejectedHead | contexts/AdvisoryContext.tsx:22-26 | an element in front that fails the test is dropped again |
| Seqs.FilterPartition | components/ResponderDashboard.tsx:14 | a test and its negation split a list into two parts whose multisets and lengths add up to the whole |
| Seqs.FilterHeadIsFind | components/ResponderDashboard.tsx:19-21 | the first element of a filtered list is what `find` with the same test returns |
| Seqs.RemoveByKey | contexts/AdvisoryContext.tsx:25-27 | the delete-by-id of the advisory, facility and contact lists: no element with the id remains and every other one does |
| Seqs.RemoveByKeyAppend | contexts/AdvisoryContext.tsx:25-27 | deleting by id keeps the survivors in order: it distributes over concatenation |
| Seqs.RemoveByKeyIdempotent | contexts/FacilityContext.tsx:24-26 | deleting the same id twice is deleting it once |
| Seqs.RemoveByKeyAbsent | contexts/FacilityContext.tsx:24-26 | deleting an id no element carries changes nothing |
| Seqs.RemoveByKeyFreshHead | contexts/AdvisoryContext.tsx:16-27 | an element prepended under a fresh id is deleted again, and nothing else is |
| Seqs.RemoveByKeyFreshLast | App.tsx:71-89 | an element appended under a fresh id is deleted again, and nothing else is |
| Seqs.FilterKeepsDistinct | App.tsx:473 | filtering a list without repeats leaves a list without repeats |
| Text.ToLower | contexts/AuthContext.tsx:34 | lowering keeps the length and lowers each character in place |
| Text.IndexOf | components/ResponderDashboard.tsx:40 | the result is -1 when the pattern occurs nowhere; otherwise the pattern occurs there and at no earlier position |
| Text.ContainsIff | contexts/AuthContext.tsx:45-51 | `includes` holds exactly when the pattern occurs at some position |
| Text.ContainsEmpty | components/AdminDashboard.tsx:110-111 | every string includes the empty string |
| Text.ReplaceFirst | components/ResponderDashboard.tsx:40 | a string pattern replaces only its first occurrence; a string without the pattern is returned as is |
| Text.Trim | components/ResponderDashboard.tsx:40 | `trim` returns a slice with no blank at either end, and everything cut away is blank |
| Text.NatToString | components/GlobalCallUI.tsx:24 | a natural number is written as a non-empty string of digits, one digit exactly when it is below ten |
| Text.DecimalRoundTrip | components/GlobalCallUI.tsx:22-24 | reading back the written digits gives the number again |
| Text.PadStart2 | components/GlobalCallUI.tsx:24 | a string of two or more characters is kept; a shorter one is padded to two with leading zeros |
| Incidents.Filed | contexts/IncidentContext.tsx:29-33 | a filed incident carries every reporter field unchanged; only the id and the PENDING status are set by the store |
| Incidents.WithStatus | contexts/IncidentContext.tsx:38-48 | the status change keeps length, order, ids and reported fields; it sets the new status on exactly the entries with the id, whatever their old status |
| Incidents.WithStatusIdempotent | contexts/IncidentContext.tsx:38-42 | resolving the same id twice is resolving it once |
| Incidents.WithStatusAbsentId | contexts/IncidentContext.tsx:38-42 | resolving an id no incident has changes nothing |
| Incidents.AssignReopensResolved | contexts/IncidentContext.tsx:44-48 | assigning a responder has no guard on the prior status, so it re-opens a RESOLVED incident |
| Incidents.NothingRemoved | contexts/IncidentContext.tsx:28-48 | after any run of store operations the list has grown by exactly the number of reports, and the old ids follow the new entries in their old order |
| Incidents.Ids | contexts/IncidentContext.tsx:28-48 | the id list has one id per incident, in list order |
| Incidents.Unresolved | components/ResponderDashboard.tsx:14 | the active list holds exactly the incidents that are not RESOLVED, taken from the registry; the admin active-SOS list (components/AdminDashboard.tsx:118) is the same filter |
| Incidents.ResolvedLog | components/ResponderDashboard.tsx:221-224 | the incident log holds exactly the RESOLVED incidents |
| Incidents.ActiveAndLogPartition | components/ResponderDashboard.tsx:14 | the active list and the log together hold every incident once, as multisets and in length |
| Incidents.IncidentRegistry.constructor | contexts/IncidentContext.tsx:15-26 | the registry starts with the one mock incident, IN_PROGRESS |
| Incidents.IncidentRegistry.ReportIncident | contexts/IncidentContext.tsx:28-36 | one PENDING incident goes on top and the previous list follows unchanged |
| Incidents.IncidentRegistry.ResolveIncident | contexts/IncidentContext.tsx:38-42 | the list becomes the status change to RESOLVED for the id |
| Incidents.IncidentRegistry.AssignResponder | contexts/IncidentContext.tsx:44-48 | the list becomes the status change to IN_PROGRESS for the id |
| Calls.Initiate | contexts/CallContext.tsx:32-41 | without a signed-in user the call is unchanged; with one it is an active RINGING call from that user to the given role, with no start time |
| Calls.Answer | contexts/CallContext.tsx:43-49 | answering sets CONNECTED and the start time, and keeps activity, caller and recipient role |
| Calls.End | contexts/CallContext.tsx:51-52 | ending sets ENDED and leaves every other field as it was |
| Calls.StartTimeOnlyAfterAnswer | contexts/CallContext.tsx:39-59 | a start time is recorded exactly when an answer came after the last initiate by a signed-in user or the last reset |
| Calls.StartTimeFromIdle | contexts/CallContext.tsx:24-30 | from the provider's initial record, a start time exists only after an answer |
| Calls.StepKeepsReachable | contexts/CallContext.tsx:32-62 | every event keeps the call invariant: active exactly when there is a caller and a recipient, IDLE only on the idle record, RINGING active and unanswered, CONNECTED with a start time |
| Calls.RunKeepsReachable | contexts/CallContext.tsx:24-62 | every record reachable from the initial one satisfies the call invariant |
| Calls.EndThenResetIsIdle | contexts/CallContext.tsx:51-61 | ending followed by the delayed reset restores exactly the initial idle record |
| Calls.InitiateForgetsPrevious | contexts/CallContext.tsx:34-40 | a signed-in user's call replaces whatever call was there before |
| Calls.CallSession.constructor | contexts/CallContext.tsx:24-30 | the call starts inactive and IDLE with no caller, recipient or start time |
| Calls.CallSession.InitiateCall | contexts/CallContext.tsx:32-41 | the record becomes the initiated call |
| Calls.CallSession.AnswerCall | contexts/CallContext.tsx:43-49 | the record becomes the answered call |
| Calls.CallSession.EndCall | contexts/CallContext.tsx:51-52 | the record becomes the ended call |
| Calls.CallSession.ResetAfterEnd | contexts/CallContext.tsx:53-61 | the delayed reset restores the idle record |
| Auth.LookupByEmail | contexts/AuthContext.tsx:34 | the first account whose e-mail equals the given one ignoring case, and nothing exactly when there is none |
| Auth.SelfSignupRole | contexts/AuthContext.tsx:42-54 | ADMIN exactly when the lowered e-mail includes the admin marker; RESPONDER exactly for the rescue marker without the admin marker; STAFF for the staff marker without the other two; otherwise TOURIST |
| Auth.GrantedRoles | contexts/AuthContext.tsx:72-82 | the allowed roles start with the role, include TOURIST, repeat nothing, and are all four roles for ADMIN and just the role and TOURIST otherwise |
| Auth.BuildAllowedRoles | contexts/AuthContext.tsx:72-82 | the push-and-widen computation yields exactly the granted roles |
| Auth.SelfRegistered | contexts/AuthContext.tsx:56-63 | a self-registered account is Active, named 'User' when no name is given, and gets the role from its e-mail and that role's granted roles |
| Auth.SelfRegisteredRoles | contexts/AuthContext.tsx:43-63 | a self-registered account's role and TOURIST are both among its allowed roles |
| Auth.Enrolled | contexts/AuthContext.tsx:84-89 | an account added by an administrator keeps every field of the draft, gets the granted roles, and is Active unless a status is given |
| Auth.AuthSession.constructor | contexts/AuthContext.tsx:26-27 | nobody is signed in and the accounts are the five initial users |
| Auth.AuthSession.Login | contexts/AuthContext.tsx:29-68 | a known e-mail signs in that account and leaves the list alone; an unknown one appends exactly one self-registered account and signs it in; every account keeps its role among its allowed roles |
| Auth.AuthSession.AddUser | contexts/AuthContext.tsx:70-92 | one enrolled account is appended and the signed-in user does not change |
| Auth.AuthSession.Logout | contexts/AuthContext.tsx:94-96 | nobody is signed in afterwards and the account list is untouched |
| Auth.AuthSession.SwitchRole | contexts/AuthContext.tsx:98-102 | only the signed-in user's role changes, and only to one of its allowed roles; otherwise nothing changes; the account list is never touched |
| Advisories.Stamped | contexts/AdvisoryContext.tsx:17-21 | a published advisory carries the publisher's fields; only id and timestamp are generated |
| Advisories.Publish | contexts/AdvisoryContext.tsx:16-23 | publishing adds exactly one advisory, first, in front of the unchanged list |
| Advisories.Withdraw | contexts/AdvisoryContext.tsx:25-27 | no advisory with the id remains, and every other one does |
| Advisories.WithdrawKeepsOrder | contexts/AdvisoryContext.tsx:25-27 | the advisories that remain keep their order |
| Advisories.WithdrawIdempotent | contexts/AdvisoryContext.tsx:25-27 | withdrawing twice is withdrawing once |
| Advisories.WithdrawAbsentId | contexts/AdvisoryContext.tsx:25-27 | withdrawing an id no advisory has changes nothing |
| Advisories.PublishThenWithdraw | contexts/AdvisoryContext.tsx:16-27 | publishing under a fresh id and then withdrawing that id restores the list |
| Advisories.AlertDraftOf | components/StaffDashboard.tsx:110-115 | publishing from the form forwards title, severity, details and location |
| Advisories.AdvisoryBoard.constructor | contexts/AdvisoryContext.tsx:14 | the board starts with the seed advisories |
| Advisories.AdvisoryBoard.AddAlert | contexts/AdvisoryContext.tsx:16-23 | the list becomes the published list |
| Advisories.AdvisoryBoard.RemoveAlert | contexts/AdvisoryContext.tsx:25-27 | the list becomes the withdrawn list |
| Facilities.Listed | contexts/FacilityContext.tsx:17-20 | an added facility keeps the editor's fields; only the id is generated |
| Facilities.Add | contexts/FacilityContext.tsx:16-22 | adding puts exactly one facility first, in front of the unchanged list |
| Facilities.Remove | contexts/FacilityContext.tsx:24-26 | no facility with the id remains, and every other one does |
| Facilities.RemoveKeepsOrder | contexts/FacilityContext.tsx:24-26 | the remaining facilities keep their order |
| Facilities.RemoveIdempotent | contexts/FacilityContext.tsx:24-26 | removing twice is removing once |
| Facilities.RemoveAbsentId | contexts/FacilityContext.tsx:24-26 | removing an id no facility has changes nothing |
| Facilities.AddThenRemove | contexts/FacilityContext.tsx:16-26 | adding under a fresh id and then removing it restores the list |
| Facilities.Submission | components/StaffDashboard.tsx:40-45 | the form is passed on as typed, except that a blank distance becomes 'Unknown'; the distance is never empty |
| Facilities.FacilityDirectory.constructor | contexts/FacilityContext.tsx:14 | the directory starts with the seed emergency contacts |
| Facilities.FacilityDirectory.AddFacility | contexts/FacilityContext.tsx:16-22 | the list becomes the list with the facility added |
| Facilities.FacilityDirectory.RemoveFacility | contexts/FacilityContext.tsx:24-26 | the list becomes the list with the id removed |
| Attractions.Prepend | contexts/AttractionContext.tsx:16-18 | the given record goes first, unchanged and unchecked, in front of the unchanged list |
| Attractions.Update | contexts/AttractionContext.tsx:20-22 | same length and order; entries with the record's id become the record, all others stay identical |
| Attractions.UpdateAbsentId | contexts/AttractionContext.tsx:21 | updating with an id no entry has changes nothing |
| Attractions.UpdateIdempotent | contexts/AttractionContext.tsx:21 | applying the same update twice is applying it once |
| Attractions.UpdateThenLookup | contexts/AttractionContext.tsx:21 | after an update, an entry carries the updated id exactly when it did before |
| Attractions.AttractionCatalogue.constructor | contexts/AttractionContext.tsx:14 | the catalogue starts with the seed attractions |
| Attractions.AttractionCatalogue.AddAttraction | contexts/AttractionContext.tsx:16-18 | the list becomes the list with the record prepended |
| Attractions.AttractionCatalogue.UpdateAttraction | contexts/AttractionContext.tsx:20-22 | the list becomes the updated list |
| Sos.SosReport | components/SOSOverlay.tsx:36-43 | the SOS report is an 'SOS Distress Signal' at the simulated location, 0.1 km away, with the user's name as caller and e-mail as contact |
| Sos.CountdownReportsOnce | components/SOSOverlay.tsx:22-46 | from a count of n, the first n-1 ticks report nothing, the n-th reports exactly once and clears the countdown, and later ticks report nothing more |
| Sos.NoneStays | components/SOSOverlay.tsx:24-29 | with no countdown, ticks do nothing |
| Sos.BroadcastReportsAfterFiveTicks | components/SOSOverlay.tsx:147 | after the broadcast button, four ticks report nothing and the fifth reports exactly once |
| Sos.SignedOutNeverReports | components/SOSOverlay.tsx:26-34 | with nobody signed in the countdown never reports and stops at zero |
| Sos.ZeroStays | components/SOSOverlay.tsx:26-34 | a countdown stuck at zero with nobody signed in stays there and reports nothing |
| Sos.SosOverlay.constructor | components/SOSOverlay.tsx:16 | there is no countdown at first |
| Sos.SosOverlay.Open | App.tsx:873 | opening shows the overlay and leaves the countdown alone |
| Sos.SosOverlay.PressBroadcast | components/SOSOverlay.tsx:147 | the countdown is set to five, even while one is running |
| Sos.SosOverlay.HandleSos | components/SOSOverlay.tsx:33-49 | without a user nothing happens; with one, exactly one SOS incident is filed on top of the registry, the countdown is cleared and the overlay closes |
| Sos.SosOverlay.Tick | components/SOSOverlay.tsx:22-31 | a positive countdown drops by one, and reaching zero with a user files one report and closes; otherwise nothing else changes |
| Sos.SosOverlay.Close | components/SOSOverlay.tsx:61-65 | closing clears the countdown, so no report follows |
| Sos.SosOverlay.CallCommandCenter | components/SOSOverlay.tsx:51-54 | a call to the ADMIN role is initiated and the overlay closes; the countdown is not touched |
| ResponderView.CurrentIncident | components/ResponderDashboard.tsx:19-21 | with a selected id, the first incident in list order with that id (ids need not be unique), or none when no incident has it; without one, the first incident that is not RESOLVED, or none when all are resolved |
| ResponderView.ShowsIncomingAlerts | components/ResponderDashboard.tsx:90 | the picker appears exactly when more than one incident is active and nothing is selected, and then the card shows an active incident |
| ResponderView.PlaceText | components/ResponderDashboard.tsx:40-41 | the place query is the location with its first '(Simulated)' removed and trimmed, followed by ', Cebu' |
| ResponderView.SimulatedPlaceQuery | components/ResponderDashboard.tsx:40-41 | a place name without '(' and without blank ends, followed by ' (Simulated)', is searched as that name followed by ', Cebu' |
| ResponderView.BlankEndTrimmed | components/ResponderDashboard.tsx:40 | trimming a name with non-blank ends plus one trailing blank gives back the name |
| ResponderView.SosIncidentQuery | components/ResponderDashboard.tsx:35-41 | every incident filed from an SOS report has no coordinates and is searched as 'Current GPS Location, Cebu' |
| ResponderView.ResolvedLeavesActiveList | components/ResponderDashboard.tsx:14-28 | after resolving an id, no incident with that id is on the active list |
| ResponderView.ResponderDashboard.constructor | components/ResponderDashboard.tsx:15 | nothing is selected at first |
| ResponderView.ResponderDashboard.SelectIncident | components/ResponderDashboard.tsx:90-100 | tapping an entry selects its id |
| ResponderView.ResponderDashboard.HandleResolve | components/ResponderDashboard.tsx:23-28 | when the card shows an incident, its id is resolved in the registry and the selection is cleared; otherwise nothing changes |
| ResponderView.ResponderDashboard.HandleNavigate | components/ResponderDashboard.tsx:30-46 | no query without a current incident; otherwise its coordinates when it has them, else its place text |
| CallView.JsRem | components/GlobalCallUI.tsx:23 | the remainder agrees with the mathematical one for non-negative numbers and is always smaller in size than the divisor |
| CallView.FormatTimeReadsBack | components/GlobalCallUI.tsx:21-25 | for a non-negative duration the text is digits, a colon and exactly two digits of seconds below 60, and minutes times 60 plus seconds is the duration |
| CallView.CallerSeesOwnCall | components/GlobalCallUI.tsx:27-37 | the caller always sees the call they placed, and nobody sees the idle record |
| CallView.OnlyCallerOrRecipientSees | components/GlobalCallUI.tsx:27-37 | on any reachable call, a user other than the caller sees the overlay only when the call is for their role, and an IDLE call is shown to nobody |
| CallView.ControlsExclusive | components/GlobalCallUI.tsx:69-94 | Accept/Decline and hang-up never show together, the caller never gets Accept/Decline, and an ENDED call shows no controls |
| CallView.Duration | components/GlobalCallUI.tsx:15 | the duration is the whole number of seconds elapsed: 1000 times it is at most the elapsed milliseconds, which are less than 1000 times one more |
| CallView.CallTimer.constructor | components/GlobalCallUI.tsx:9 | the duration starts at zero |
| CallView.CallTimer.Tick | components/GlobalCallUI.tsx:11-19 | the duration is recomputed only while the call is CONNECTED with a non-zero start time; otherwise it is kept |
| StaffView.Edited | components/StaffDashboard.tsx:87-89 | an edit saves the form as it stands, under the id being edited |
| StaffView.Created | components/StaffDashboard.tsx:90-101 | a create saves the form with a generated id, an empty name, image or description replaced by its default, and the rating copied; name, image and description are never empty |
| StaffView.EditRoundTrip | components/StaffDashboard.tsx:78-89 | loading an attraction into the form and saving it unchanged gives the same record |
| StaffView.CreateKeepsFilledForm | components/StaffDashboard.tsx:92-100 | a fully filled-in form is created exactly as typed |
| StaffView.UnchangedEditKeepsCatalogue | components/StaffDashboard.tsx:78-89 | saving an unchanged edit of an entry of a catalogue with distinct ids leaves the catalogue as it was |
| StaffView.StaffPortal.constructor | components/StaffDashboard.tsx:18-55 | the forms start blank, with no edit and the attraction form hidden |
| StaffView.StaffPortal.ResetForm | components/StaffDashboard.tsx:66-70 | blank attraction form, no edit, form hidden; other forms untouched |
| StaffView.StaffPortal.HandleCreateClick | components/StaffDashboard.tsx:72-76 | blank attraction form, no edit, form shown |
| StaffView.StaffPortal.HandleEditClick | components/StaffDashboard.tsx:78-82 | the attraction's fields fill the form, its id is under edit, the form is shown |
| StaffView.StaffPortal.HandleSaveAttraction | components/StaffDashboard.tsx:84-105 | during an edit the entries with the edited id are replaced and nothing is added; otherwise exactly one created attraction is prepended; then the form resets |
| StaffView.StaffPortal.HandleAddFacility | components/StaffDashboard.tsx:38-47 | the submitted facility is added and the facility form is cleared |
| StaffView.StaffPortal.HandlePublishAlert | components/StaffDashboard.tsx:108-118 | the form's advisory is published and the form is reset to medium severity |
| AdminView.AgeFor | components/AdminDashboard.tsx:39-49 | no age for an empty birthdate; otherwise the age is the last anniversary of the birth date reached by today |
| AdminView.AnniversariesInOrder | components/AdminDashboard.tsx:44-48 | reaching a later anniversary means every earlier one was reached |
| AdminView.AgeUnique | components/AdminDashboard.tsx:44-48 | only one number is the last anniversary reached, so the age is determined by the two dates |
| AdminView.FilteredUsers | components/AdminDashboard.tsx:109-116 | the listed accounts are exactly those whose lowered name or e-mail contains the lowered query and that pass the role and status filters ('ALL' passes everything) |
| AdminView.NoFiltersListsEveryone | components/AdminDashboard.tsx:109-116 | an empty query with both filters on 'ALL' lists every account in order |
| AdminView.FilteredUsersKeepOrder | components/AdminDashboard.tsx:109-116 | the listed accounts keep their list order |
| AdminView.DraftOf | components/AdminDashboard.tsx:51-61 | every field of the create-user form and the computed age are passed to the account store |
| AdminView.AdminConsole.constructor | components/AdminDashboard.tsx:16-94 | the forms start blank, the user form on STAFF and Active |
| AdminView.AdminConsole.HandleCreateUser | components/AdminDashboard.tsx:36-68 | one account is enrolled from the form with the age for its birthdate, the dialog closes, and the form resets to STAFF and Active |
| AdminView.AdminConsole.HandleAddFacility | components/AdminDashboard.tsx:78-87 | the submitted facility, with a blank distance as 'Unknown', is added and the form cleared |
| AdminView.AdminConsole.HandleCreateAlert | components/AdminDashboard.tsx:96-106 | the form's advisory is published, the dialog closes and the form resets to medium severity |
| MainApp.ScreenFor | App.tsx:505-536 | signed out gives the sign-in screen; ADMIN, RESPONDER and STAFF get their dashboards; TOURIST gets the tourist app |
| MainApp.TouristHomeThrowsAsMounted | App.tsx:950-964 | under the providers as mounted, a signed-in TOURIST's screen cannot render, while every other screen can |
| MainApp.EveryScreenRendersCorrected | contexts/CallContext.tsx:22-23 | with the call provider mounted inside the auth provider, every screen renders |
| MainApp.Saved | App.tsx:75-80 | a saved contact carries the form's name and number and relation 'Friend' when none is given |
| MainApp.AddContact | App.tsx:71-85 | an incomplete form changes nothing; a complete one appends exactly one contact at the end |
| MainApp.DeleteContact | App.tsx:87-89 | no contact with the id remains and every other one does |
| MainApp.AddThenDeleteContact | App.tsx:71-89 | adding under a fresh id and then deleting it restores the list |
| MainApp.DeleteContactIdempotent | App.tsx:87-89 | deleting twice is deleting once |
| MainApp.LoadContacts | App.tsx:451-459 | a missing, empty or unreadable saved entry loads as the empty list; a readable non-empty entry loads as exactly the list parsed from it |
| MainApp.ContactBook.constructor | App.tsx:451-459 | the contacts start as loaded, with a blank form |
| MainApp.ContactBook.HandleAddContact | App.tsx:71-85 | the list becomes the list with the contact added; a complete form is then cleared and closed, an incomplete one left as it is |
| MainApp.ContactBook.HandleDeleteContact | App.tsx:87-89 | the list becomes the list with the id deleted |
| MainApp.ToggledFavorite | App.tsx:470-475 | the id's membership flips and no other id's membership changes |
| MainApp.ToggleFavoriteTwice | App.tsx:470-475 | toggling twice restores every id's membership, and restores the list exactly when the id was absent |
| MainApp.ToggleFavoriteKeepsDistinct | App.tsx:470-475 | toggling never creates a repeated id |
| MainApp.FavoriteList.constructor | App.tsx:447 | favourites start empty |
| MainApp.FavoriteList.ToggleFavorite | App.tsx:470-475 | the list becomes the toggled list |
| MainApp.Explore | App.tsx:725-734 | the explore list holds exactly the attractions whose lowered name contains the lowered query and that match the chip: any for 'All', a favourite for 'Favorites', the category otherwise |
| MainApp.ExploreEverything | App.tsx:725-734 | an empty search on 'All' lists the whole catalogue in order |
| MainApp.ExploreKeepsOrder | App.tsx:725-734 | the explore list keeps catalogue order |
| MainApp.Toggled | App.tsx:58-60 | toggling flips the named switch and leaves the other five unchanged |
| MainApp.SettingsExtensional | App.tsx:49-56 | the settings are determined by their six switches |
| MainApp.ToggleTwiceRestores | App.tsx:58-60 | toggling a switch twice restores the settings |
| MainApp.SettingsPanel.constructor | App.tsx:49-56 | push, emergency and location on; e-mail, data collection and public profile off |
| MainApp.SettingsPanel.Toggle | App.tsx:58-60 | the settings become the toggled settings |
| Weather.CodeSumAppend | services/weatherService.ts:15-19 | the seed of a concatenation is the sum of the seeds of the parts |
| Weather.RiskFor | services/weatherService.ts:26-28 | High exactly for Stormy, Moderate exactly for Rainy, Low otherwise |
| Weather.DayForecast | services/weatherService.ts:15-36 | each day's condition is one of the five listed, picked by the seed modulo five; its temperature lies between 27 and 32; its risk is that condition's; the first day is labelled 'Today' |
| Weather.SameDateSameWeather | services/weatherService.ts:15-28 | the same date text gives the same condition, temperature and risk at any position |
| Weather.GetWeatherForecast | services/weatherService.ts:3-39 | exactly seven entries, the first labelled 'Today', each the forecast of its day with the seed summed over the date text |

## Left out

- Rendering is not modelled: JSX, styling, icons, tabs and the static mock panels (notification history, system health).
- Real time is not modelled. Each timer becomes an explicit event: the countdown timer becomes `Tick`, the reset after a call ends becomes `ResetAfterEnd`, and the call-duration interval becomes `CallTimer.Tick`. The simulated sign-in delay and the toast timer are dropped. The same goes for `Date.now()`, so ids, clock readings and locale time strings are parameters, and nothing is claimed about id uniqueness.
- Browser storage and JSON are reduced to `MainApp.LoadContacts`. Its input is the stored text and what parsing it gave. Writing contacts back to storage is left out, and so is a readable entry that is not a list.
- Dates are not parsed: no date parsing, no time zones, no locale formatting. `AdminView.AgeFor` takes the birth date and today's date as numeric triples. `Weather.GetWeatherForecast` takes the seven calendar days with their date text and labels. An unparsable birthdate, which gives an age of NaN, is not modelled.
- `Text.ToLower` lowers ASCII letters only, and `Text.Trim` removes the ASCII blanks, the no-break space and the byte-order mark only. Full Unicode case mapping and white space are not modelled.
- Ratings are exact reals, and the `|| 0` fallback in `StaffView.Created` is modelled as copying the rating. The fallback only changes a NaN or missing rating, and the form always holds a number.
- `window.open`, `tel:` links, the map URLs and `encodeURIComponent` are left out. `ResponderView.ResponderDashboard.HandleNavigate` returns the query instead of opening a URL.
- `alert()` dialogs, the sign-in screen's form checks, the AI chat and its service are left out.
- ResponderView: `assignResponder` is taken from the store but no handler calls it. It is modelled in the store only.
- CallView: the call overlay is not rendered anywhere in App.tsx. Its rules are modelled on their own, over any call record.
- CallView.FormatTimeReadsBack: the read-back property is proved only for durations of zero or more. A negative duration, which would need the clock to go backwards, is formatted as written, with the truncating remainder, but nothing is proved about it.
- MainApp.Renders: it models only whether each store a screen asks for has a provider above it. Render order and the rest of the component tree are not modelled.
- MainApp: there is no lemma that two settings toggles commute. It follows from `MainApp.Toggled` but is not proved here.

## Findings

| source | as written | input that shows it | evidently intended | confidence | as-written member | corrected member |
|---|---|---|---|---|---|---|
| App.tsx:950-964 | `App` mounts the auth, advisory, attraction, incident and facility providers but no call provider. The tourist screen always mounts the SOS overlay, which asks for the call store (components/SOSOverlay.tsx:20). Outside a provider, `useCall` throws (contexts/CallContext.tsx:71-76). | sign in as any TOURIST account, e.g. tourist1@email.com | a call provider mounted inside the auth provider it reads from, so that the SOS overlay and the call overlay can reach the call store | high (not executed) | MainApp.TouristHomeThrowsAsMounted | MainApp.EveryScreenRendersCorrected |
