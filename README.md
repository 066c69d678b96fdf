# ShowPro real-estate app: verified model of its list and record logic

ShowPro is a React/TypeScript app for real-estate agents and their clients. Agents publish
properties, lay out showing time slots on a month calendar, run open houses, and are ranked
by follower count. Clients search for properties and agents and follow agents. Once the
Supabase calls are treated as given results, what remains is a set of deterministic list
and record transformations. This project models those in Dafny and proves what each
promises.

One Dafny module per source file of the core:

| module | file | form |
|---|---|---|
| `AgentCalendar` | `agent_calendar.dfy` | 42-cell month grid (a method with three loops), month navigation, per-cell slots, slot edit/append/delete, the calendar's state as a class |
| `TimeSlotModal` | `time_slot_modal.dfy` | the initial form record, the per-field `onChange` updates, submit |
| `PropertyShowings` | `property_showings.dfy` | the showing list as a class, with append / replace-by-id / filter-by-id and two queries |
| `CalendarSync` | `calendar_sync.dfy` | the `reduce` grouping by property and date (imperative, proved against a reference function), agent-id stamping, add/update with the "Property not found" path |
| `Rankings` | `rankings.dfy` | the ranking pipeline: map, stable descending sort (insertion sort), re-rank, per-city rankings |
| `PropertySearch` | `property_search.dfy` | the property filter, the type table, the selection state |
| `AgentSearch` | `agent_search.dfy` | area selection of the agent list and the name/username search |
| `Properties` | `properties.dfy` | the UUID test for the agent filter, and the property list updates with their unauthenticated guard |
| `ProfileService` | `profile_service.dfy` | role to table, create-or-ensure decision, the default record, the missing-field update map (imperative, proved against a reference function) |
| `OpenHouseService` | `open_house_service.dfy` | optional query filters (a reassigned query), row-to-listing mapping, the insert row |
| `Following` | `following.dfy` | the following list as a class: follow, unfollow, queries |
| `OpenHouses` | `open_houses.dfy` | the sample list and `deleteOpenHouse` |
| `AuthStore` | `auth_store.dfy` | `{user, isAuthenticated}` as a class with its invariant |

Shared modules:
- `Wrappers`: `Option` and `Result`.
- `Seqs`: `filter`, `slice(0, n)`, `map`, `findIndex`, order-preserving subsequence.
- `Text`: ASCII `toLowerCase` and `includes`.
- `Gregorian`: proleptic Gregorian dates, with 0-based months as in `getMonth()` and weekday 0 = Sunday. It also has the normalising `new Date(y, m, d)` and the `YYYY-MM-DD` date key.
- `ShowingTypes`: the showing and time-slot records.
- `PropertyTypes`: the fields of a property that the core reads.

Behaviour worth noting, as the code has it:
- **Area rankings keep the global rank.** An area's `agents` is the first 10 of the globally ranked list filtered by area, and each keeps its global `rank`. They are not re-numbered 1..k (`src/hooks/useRankings.ts:51-57`; `Rankings.AreaRankingOf`).
- **Padding cells receive slots.** The per-cell filter at `src/components/calendar/AgentCalendar.tsx:150` does not check `isPadding`. So a slot dated in the previous or next month shows in the padding cell for that date (`AgentCalendar.DaySlots`, `AgentCalendar.SlotInOneCell`).
- **A new client profile is incomplete.** The default client record has no client columns. `ensureProfileFields` would therefore add both `preferred_areas` and `preferred_contact` to it (`ProfileService.ClientDefaultIncomplete`).

## Model

| member | source | states |
|---|---|---|
| `AgentCalendar.GetDaysInMonth` | src/components/calendar/AgentCalendar.tsx:22-47 | The three loops build exactly the reference grid: `firstDay.getDay()` leading cells built by `unshift`, one cell per day of the month, and then `42 - days.length` trailing cells |
| `AgentCalendar.LastDayOfMonth` | src/components/calendar/AgentCalendar.tsx:26 | `new Date(y, m + 1, 0)` is the last day of month `m`, with `getDate()` equal to the Gregorian month length |
| `AgentCalendar.GridCells` | src/components/calendar/AgentCalendar.tsx:22-47 | The grid has 42 cells whatever the month. Cell `i` is the 1st of the month shifted by `i - weekday(1st)` days. Cell `i` is padding iff it lies outside `[weekday(1st), weekday(1st) + month length)` |
| `AgentCalendar.GridWeekdays` | src/components/calendar/AgentCalendar.tsx:22-47 | Cell `i` falls on weekday `i % 7`, so each column of the 6×7 grid is one weekday |
| `AgentCalendar.GridConsecutive` | src/components/calendar/AgentCalendar.tsx:22-47 | Neighbouring cells are consecutive calendar days |
| `AgentCalendar.GridPrecedingEnd` | src/components/calendar/AgentCalendar.tsx:30-33 | When the 1st is not a Sunday, the last leading cell is the last day of the previous month, across a year boundary too |
| `AgentCalendar.GridMonthDay` | src/components/calendar/AgentCalendar.tsx:36-38 | The non-padding cell at position `i` is day `i - weekday(1st) + 1` of the month |
| `AgentCalendar.GridFollowingDay` | src/components/calendar/AgentCalendar.tsx:41-44 | Trailing cells are days 1, 2, … of the next month, with December rolling into January |
| `AgentCalendar.FilterPadding` | src/components/calendar/AgentCalendar.tsx:36-38 | With the padding cells dropped, the grid is exactly the month loop's cells |
| `AgentCalendar.MonthDays` | src/components/calendar/AgentCalendar.tsx:36-38 | The non-padding cells are days 1..L of the month in order, where L is the Gregorian month length (29 for a leap February) |
| `AgentCalendar.AprilGrid` | src/components/calendar/AgentCalendar.tsx:22-47 | April 2024 (starting on a Monday) gets 1 leading cell (31 March), then April 1..30, then 11 trailing cells (May 1..11) |
| `AgentCalendar.GridKeysDistinct` | src/components/calendar/AgentCalendar.tsx:149 | Distinct cells have distinct `YYYY-MM-DD` date strings |
| `AgentCalendar.DaySlots` | src/components/calendar/AgentCalendar.tsx:150 | A cell's slots are exactly the current showing's slots dated with the cell's date string, in order and each as often as in the showing. With no current showing there are none. Padding cells are not excluded |
| `AgentCalendar.SlotInOneCell` | src/components/calendar/AgentCalendar.tsx:148-150 | A slot dated with a cell's date string is listed in that cell and in no other cell of the grid |
| `AgentCalendar.NavigationSteps` | src/components/calendar/AgentCalendar.tsx:49-55 | Next and previous month go to the 1st of the adjacent month, rolling the year at December and January |
| `AgentCalendar.NavigationRoundTrip` | src/components/calendar/AgentCalendar.tsx:49-55 | Next then previous, or previous then next, returns to the same month, with the day reset to 1 |
| `AgentCalendar.EditSlots` | src/components/calendar/AgentCalendar.tsx:76-78 | Editing keeps the length. The slot with the edited id keeps that id and takes the form's fields. Every other slot is unchanged |
| `AgentCalendar.DeleteSlots` | src/components/calendar/AgentCalendar.tsx:100 | Deleting keeps, in order and each as often as before, exactly the slots whose id differs from the given one |
| `AgentCalendar.CalendarView.constructor` | src/components/calendar/AgentCalendar.tsx:17-20 | The calendar starts on the given "today", on the first property if there is one, with the modal closed and no slot being edited |
| `AgentCalendar.CalendarView.HandlePrevMonth` | src/components/calendar/AgentCalendar.tsx:49-51 | Previous month replaces the current date and leaves all other state unchanged |
| `AgentCalendar.CalendarView.HandleNextMonth` | src/components/calendar/AgentCalendar.tsx:53-55 | Next month replaces the current date and leaves all other state unchanged |
| `AgentCalendar.CalendarView.HandleAddTimeSlot` | src/components/calendar/AgentCalendar.tsx:57-61 | With no selected property nothing changes. Otherwise the modal opens for a new slot |
| `AgentCalendar.CalendarView.HandleEditTimeSlot` | src/components/calendar/AgentCalendar.tsx:63-66 | The modal opens on the given slot |
| `AgentCalendar.CalendarView.HandleSaveTimeSlot` | src/components/calendar/AgentCalendar.tsx:68-93 | With no selected property nothing changes. Otherwise the cases are: edit inside the first showing of the property (no change if there is none); append a slot with the fresh id to it; or create a showing when none exists. The modal then closes |
| `AgentCalendar.CalendarView.HandleDeleteTimeSlot` | src/components/calendar/AgentCalendar.tsx:95-103 | With a selected property and a current showing, that showing's slots lose the given id. Otherwise the showings are unchanged |
| `Gregorian.DateKeyInjective` | src/components/calendar/AgentCalendar.tsx:149 | Two valid dates with the same `YYYY-MM-DD` text are the same date |
| `Gregorian.KnownWeekdays` | src/components/calendar/AgentCalendar.tsx:30 | The weekday numbering matches `getDay()`: 1970-01-01 is a Thursday (4) and 2024-04-01 a Monday (1) |
| `Gregorian.AddDaysWeekday` | src/components/calendar/AgentCalendar.tsx:30 | Moving `n` days moves the weekday by `n` modulo 7 |
| `Gregorian.DayOfMonth` | src/components/calendar/AgentCalendar.tsx:37 | `new Date(y, m, k + 1)` within the month is day `k + 1` of month `m` |
| `Gregorian.StartOfMonth` | src/components/calendar/AgentCalendar.tsx:31 | The day before the 1st is the last day of the previous month |
| `Gregorian.EndOfMonth` | src/components/calendar/AgentCalendar.tsx:43 | The day after the month's last day is the 1st of the next month |
| `Gregorian.FirstOfAdjacentMonths` | src/components/calendar/AgentCalendar.tsx:49-55 | `new Date(y, m ± 1)` normalises to the 1st of the adjacent month, rolling the year |
| `TimeSlotModal.AttendeesOrOne` | src/components/calendar/TimeSlotModal.tsx:28 | `n || 1`: a non-zero count is kept and 0 becomes 1 |
| `TimeSlotModal.InitialForm` | src/components/calendar/TimeSlotModal.tsx:22-29 | The property id is always the modal's property. A new slot gets today's date, '09:00', '10:00', not booked and 1 attendee. An edited slot's `isBooked` is copied. Its date, start, end and limit are copied when truthy; when falsy they become today's date, '09:00', '10:00' and 1 |
| `TimeSlotModal.DateKeyNonEmpty` | src/components/calendar/TimeSlotModal.tsx:24 | Today's date text is never empty, so the form's date is always filled |
| `TimeSlotModal.EditWithoutChange` | src/components/calendar/TimeSlotModal.tsx:22-29 | Opening a filled-in slot, then saving it unchanged under its own id, gives back the slot without the agent id and attendee count the form omits |
| `TimeSlotModal.SlotForm.constructor` | src/components/calendar/TimeSlotModal.tsx:22-29 | The form state starts as the initial form record |
| `TimeSlotModal.SlotForm.SetDate` | src/components/calendar/TimeSlotModal.tsx:62 | Only the date changes |
| `TimeSlotModal.SlotForm.SetStartTime` | src/components/calendar/TimeSlotModal.tsx:75 | Only the start time changes |
| `TimeSlotModal.SlotForm.SetEndTime` | src/components/calendar/TimeSlotModal.tsx:87 | Only the end time changes |
| `TimeSlotModal.SlotForm.SetMaxAttendees` | src/components/calendar/TimeSlotModal.tsx:103 | Only the attendee limit changes |
| `TimeSlotModal.SlotForm.Submit` | src/components/calendar/TimeSlotModal.tsx:31-34 | The record handed to `onSave` is the current form, unchanged |
| `PropertyShowings.NewShowing` | src/hooks/usePropertyShowings.ts:9-19 | A new showing has the fresh id and the property's id. It has one slot per draft, each with its fresh id, not booked, 0 attendees and otherwise the draft's fields |
| `PropertyShowings.ReplaceTimeSlots` | src/hooks/usePropertyShowings.ts:25-29 | The length is kept. Every showing keeps its id and property. The slots are replaced only on showings with the given id |
| `PropertyShowings.ReplaceAbsentId` | src/hooks/usePropertyShowings.ts:25-29 | Replacing under an id no showing has changes nothing |
| `PropertyShowings.RemoveShowing` | src/hooks/usePropertyShowings.ts:33 | A showing remains iff it was there and its id differs from the given one |
| `PropertyShowings.RemoveShowingKeepsOthers` | src/hooks/usePropertyShowings.ts:33 | Removal is an order-preserving subsequence. Every other showing remains as often as before, and none with the id is left |
| `PropertyShowings.FindByProperty` | src/hooks/usePropertyShowings.ts:36-38 | The result is the first showing for the property, and none iff no showing has that property |
| `PropertyShowings.AvailableTimeSlots` | src/hooks/usePropertyShowings.ts:40-45 | The result holds, in order and each as often as in the showing, the first showing's slots with the date that are not booked. It is empty when the property has no showing |
| `PropertyShowings.ShowingStore.constructor` | src/hooks/usePropertyShowings.ts:6 | The store starts with no showings |
| `PropertyShowings.ShowingStore.AddPropertyShowing` | src/hooks/usePropertyShowings.ts:8-22 | Exactly one new showing is appended and returned |
| `PropertyShowings.ShowingStore.UpdateShowingTimeSlots` | src/hooks/usePropertyShowings.ts:24-30 | The showings become the replaced list |
| `PropertyShowings.ShowingStore.RemovePropertyShowing` | src/hooks/usePropertyShowings.ts:32-34 | The showings become the filtered list |
| `CalendarSync.Stamp` | src/hooks/useCalendarSync.ts:23-26 | A stamped slot carries the hook's agent id, or '' without one, and is otherwise the slot unchanged |
| `CalendarSync.Push` | src/hooks/useCalendarSync.ts:19-27 | Pushing keeps the property keys and never leaves an empty bucket |
| `CalendarSync.PushGet` | src/hooks/useCalendarSync.ts:19-27 | Pushing a slot appends it to its own property-and-date bucket and no other |
| `CalendarSync.OpenProperty` | src/hooks/useCalendarSync.ts:14-16 | Opening a new property key adds no bucket |
| `CalendarSync.PushSlots` | src/hooks/useCalendarSync.ts:18-28 | The `forEach` pushes every slot of the showing, stamped, in order, into its date's bucket, and keeps the keys |
| `CalendarSync.GroupTimeSlots` | src/hooks/useCalendarSync.ts:13-31 | The keys are exactly the showings' property ids, including showings without slots. Every bucket equals the reference bucket (stamped slots with that property and date, in showing order and then slot order). No bucket is empty |
| `CalendarSync.DateSlotsStamped` | src/hooks/useCalendarSync.ts:18-28 | Every slot in a date's part of a showing carries that date and the stamped agent id |
| `CalendarSync.BucketStamped` | src/hooks/useCalendarSync.ts:13-31 | Every grouped slot carries its bucket's date and the hook's agent id |
| `CalendarSync.BucketContains` | src/hooks/useCalendarSync.ts:13-31 | Every slot of every showing, stamped, is in the reference bucket of its property and date |
| `CalendarSync.GroupingContains` | src/hooks/useCalendarSync.ts:13-31 | In the grouping, every slot of every showing is found, stamped, under `[propertyId][slot.date]` |
| `CalendarSync.FindProperty` | src/hooks/useCalendarSync.ts:37 | The result is none iff no property has the id. Otherwise it is the first listed property with that id, as `find` returns |
| `CalendarSync.StampDrafts` | src/hooks/useCalendarSync.ts:41-44 | Every new slot gets the hook's agent id, or ''. Nothing else changes and the length is kept |
| `CalendarSync.KeepAgents` | src/hooks/useCalendarSync.ts:59-62 | A slot with its own non-empty agent id is kept as is. A slot without one takes the hook's agent id, or ''. Nothing else changes |
| `CalendarSync.KeepAgentsIdempotent` | src/hooks/useCalendarSync.ts:59-62 | Applying the update's agent-id rule twice is applying it once |
| `Text.OrElse` | src/hooks/useCalendarSync.ts:61 | `s || fallback` on strings: a non-empty string is kept and the empty one replaced |
| `CalendarSync.Sync.constructor` | src/hooks/useCalendarSync.ts:6-10 | The hook starts with its agent id and properties and shares the showing store, with no error |
| `CalendarSync.Sync.AddTimeSlots` | src/hooks/useCalendarSync.ts:34-52 | For an unknown property: false, error 'Property not found', showings unchanged. Otherwise: true, error cleared, and one showing of the stamped drafts appended |
| `CalendarSync.Sync.UpdateTimeSlots` | src/hooks/useCalendarSync.ts:55-69 | Returns true with the error cleared, and replaces the showing's slots by the agent-kept slots |
| `Rankings.Username` | src/hooks/useRankings.ts:39 | 'agent' followed by the first 8 characters of the user id (all of it when shorter) |
| `Rankings.Candidates` | src/hooks/useRankings.ts:34-43 | One entry per fetched row, in order, carrying the row's id, name and photo, the derived username, areas defaulting to [], the follower count from the given function and rank `index + 1` |
| `Rankings.InsertSorted` | src/hooks/useRankings.ts:44 | Inserting into a list sorted by non-increasing follower count keeps it sorted |
| `Rankings.SortSorted` | src/hooks/useRankings.ts:44 | The sorted list has non-increasing follower counts |
| `Rankings.SortPermutes` | src/hooks/useRankings.ts:44 | The sort is a permutation: the same entries, each as often |
| `Rankings.SortStable` | src/hooks/useRankings.ts:44 | The sort is stable: the entries with any one follower count keep their fetched order |
| `Rankings.Rerank` | src/hooks/useRankings.ts:45 | The length is kept, and each entry is unchanged except that its rank becomes position + 1 |
| `Rankings.TopAgentsRanked` | src/hooks/useRankings.ts:34-45 | The global list has one entry per row and ranks exactly 1..N. Its follower counts are non-increasing. It is a stable permutation of the candidates |
| `Rankings.TieScenario` | src/hooks/useRankings.ts:44-45 | With counts 120, 120, 80 for agents a, b, c fetched in that order, the ranking is a 1, b 2, c 3 |
| `Rankings.AreaRankingOf` | src/hooks/useRankings.ts:51-62 | An area's agents are the first 10 of the globally ranked agents serving it, with their global ranks. `agentCount` is the full count and `clientCount` the number of clients interested in the area |
| `Rankings.AreaRankings` | src/hooks/useRankings.ts:50-65 | There is one area ranking per city, in the city list's order, including cities with no agents |
| `Rankings.AreaRankingBounds` | src/hooks/useRankings.ts:51-62 | An area lists at most 10 agents and at most `agentCount` of them, and all of them when there are at most 10. They form a subsequence of the global list, all serving the area. `clientCount` is at most the number of clients |
| `Rankings.EmptyArea` | src/hooks/useRankings.ts:51-62 | An area no agent serves and no client wants gets no agents and zero counts |
| `PropertySearch.TypesOf` | src/components/search/PropertySearch.tsx:14-17 | Each category offers four property types |
| `PropertySearch.TypeTablesDisjoint` | src/components/search/PropertySearch.tsx:14-17 | No type appears under both categories |
| `PropertySearch.FilteredProperties` | src/components/search/PropertySearch.tsx:27-36 | A property is kept iff the query (case-insensitive, title or address), area, category, type and inclusive price selections all hold. The result is an order-preserving subsequence that keeps every kept property as often as it occurs |
| `PropertySearch.EmptySelectionsKeepCategory` | src/components/search/PropertySearch.tsx:27-36 | With empty query, area, type and price, exactly the properties of the selected category remain |
| `PropertySearch.PriceBoundInclusive` | src/components/search/PropertySearch.tsx:33 | The price bound is inclusive: a price equal to the limit passes |
| `Text.EmptyQueryMatches` | src/components/search/PropertySearch.tsx:28-29 | An empty query is contained in every text, ignoring case |
| `Text.IncludesIff` | src/components/search/PropertySearch.tsx:28 | `includes` holds iff the needle occurs at some position |
| `Properties.UuidIgnoresCase` | src/hooks/useProperties.ts:23 | The UUID pattern's `i` flag: lower-casing never changes whether a text matches |
| `PropertySearch.SearchForm.constructor` | src/components/search/PropertySearch.tsx:20-24 | The page starts with empty query, area, type and price, and the residential category |
| `PropertySearch.SearchForm.ChangeCategory` | src/components/search/PropertySearch.tsx:61-64 | Choosing a category resets the type to empty. Nothing else changes |
| `PropertySearch.SearchForm.ChangeType` | src/components/search/PropertySearch.tsx:74 | Only the type changes |
| `PropertySearch.SearchForm.ChangeQuery` | src/components/search/PropertySearch.tsx:47 | Only the query changes |
| `PropertySearch.SearchForm.ChangeArea` | src/components/search/PropertySearch.tsx:55 | Only the area changes |
| `PropertySearch.SearchForm.ChangePrice` | src/components/search/PropertySearch.tsx:87-94 | Only the price limit changes, to "Any Price" or one of the four listed limits |
| `AgentSearch.FindArea` | src/components/search/AgentSearch.tsx:17 | The result is the first area ranking with that area name, and none iff there is none |
| `AgentSearch.AreaCandidates` | src/components/search/AgentSearch.tsx:16-18 | With no area the candidates are the top agents. Otherwise they are that area's agents, or none when no ranking has the area |
| `AgentSearch.SelectedCityCandidates` | src/components/search/AgentSearch.tsx:16-18 | For rankings built from the city list, a listed city's candidates are the first 10 agents serving it, and an unlisted one's are none |
| `AgentSearch.SearchResults` | src/components/search/AgentSearch.tsx:20-23 | An agent is kept iff its name or username contains the query, ignoring case. The result is an order-preserving subsequence that keeps every kept agent as often as it occurs |
| `AgentSearch.EmptySearchKeepsAll` | src/components/search/AgentSearch.tsx:20-23 | An empty query keeps every candidate in order |
| `AgentSearch.AreaOptions` | src/components/search/AgentSearch.tsx:58 | The area options are the rankings' areas in their order |
| `AgentSearch.SearchPage.constructor` | src/components/search/AgentSearch.tsx:12-13 | The page starts with an empty query and no area |
| `AgentSearch.SearchPage.SetSearchQuery` | src/components/search/AgentSearch.tsx:52 | Only the query changes |
| `AgentSearch.SearchPage.SetSelectedArea` | src/components/search/AgentSearch.tsx:60 | Only the area changes |
| `Properties.AgentFilter` | src/hooks/useProperties.ts:23-25 | The `agent_id` filter is applied iff an agent id is given and matches the 8-4-4-4-12 hex pattern, and it filters by that id |
| `Properties.AgentFilterExamples` | src/hooks/useProperties.ts:23-25 | A mixed-case UUID is used as the filter. 'agent1', '' and no id all query every property |
| `Properties.ErrorText` | src/hooks/useProperties.ts:32 | An `Error` reports its own message. Anything else reports the operation's fallback text |
| `Properties.ReplaceById` | src/hooks/useProperties.ts:73 | Every property with the id is replaced by the returned record. The length and all other properties are unchanged |
| `Properties.ReplaceByIdFacts` | src/hooks/useProperties.ts:73 | Replacing under an absent id changes nothing, and replacing twice with a record of that id is replacing once |
| `Properties.RemoveById` | src/hooks/useProperties.ts:93 | Exactly the properties with other ids remain, in order and each as often as before |
| `Properties.RemoveByIdFacts` | src/hooks/useProperties.ts:93 | Deleting an absent id changes nothing, and deleting twice is deleting once |
| `Properties.PropertyStore.constructor` | src/hooks/useProperties.ts:7-9 | The hook starts with no properties and no error |
| `Properties.PropertyStore.FetchProperties` | src/hooks/useProperties.ts:18-36 | A success sets the list to the data, or [] when there is none. A failure keeps the list and sets the error message or 'Failed to fetch properties' |
| `Properties.PropertyStore.AddProperty` | src/hooks/useProperties.ts:38-57 | With no user: fails with 'User not authenticated', sends nothing, keeps the list. Otherwise it sends the data with `agent_id` = the user's id and passes the response through. On success the record is appended; on failure the list is kept and the error set |
| `Properties.PropertyStore.UpdateProperty` | src/hooks/useProperties.ts:59-79 | With no user: fails with 'User not authenticated' and keeps the list. Otherwise it passes the response through. On success it replaces by id; on failure it keeps the list and sets the error |
| `Properties.PropertyStore.DeleteProperty` | src/hooks/useProperties.ts:81-98 | With no user: fails with 'User not authenticated' and keeps the list. Otherwise a success removes by id, and a failure is passed on with the list kept and the error set |
| `ProfileService.FieldDefaults` | src/services/auth/profileService.ts:59-70 | An agent's checked columns are areas, languages, certifications, subscription_status and subscription_tier. A client's are preferred_areas and preferred_contact |
| `ProfileService.MissingDefaults` | src/services/auth/profileService.ts:59-70 | A column is in the update map iff it is one of the role's columns and is absent or falsy in the profile, and it gets that column's default |
| `ProfileService.Fill` | src/services/auth/profileService.ts:61-69 | One `if (!profile.x) updates.x = v`: it sets the key iff the profile's value is falsy |
| `ProfileService.AgentMissingInTurn` | src/services/auth/profileService.ts:59-65 | The five agent assignments in turn give exactly the agent's missing defaults |
| `ProfileService.ClientMissingInTurn` | src/services/auth/profileService.ts:66-70 | The two client assignments in turn give exactly the client's missing defaults |
| `ProfileService.EnsureUpdates` | src/services/auth/profileService.ts:56-70 | The conditional assignments build exactly the missing-defaults map for the role |
| `ProfileService.ExistingListKept` | src/services/auth/profileService.ts:61-63 | A column already holding a list, even an empty one, is never overwritten |
| `ProfileService.EnsureIdempotent` | src/services/auth/profileService.ts:56-86 | Once the update map is applied, nothing is missing any more |
| `ProfileService.DefaultProfile` | src/services/auth/profileService.ts:34-44 | The default record has the user id and the name 'New Agent' or 'New Client'. Only an agent also gets the five agent columns with their defaults |
| `ProfileService.AgentDefaultComplete` | src/services/auth/profileService.ts:34-65 | A freshly created agent profile is missing nothing |
| `ProfileService.ClientDefaultIncomplete` | src/services/auth/profileService.ts:34-70 | A freshly created client profile misses both client columns |
| `ProfileService.NextStep` | src/services/auth/profileService.ts:5-26 | An error other than 'PGRST116' fails. No profile creates the default in the role's table. A profile with nothing missing is returned as it is. Otherwise exactly the missing columns are written, keyed by the profile's user id |
| `ProfileService.GetUserProfile` | src/services/auth/profileService.ts:5-31 | Failures are passed on, a complete profile is returned, and a create or update returns what the write returned |
| `ProfileService.CompleteProfileReturned` | src/services/auth/profileService.ts:73-85 | A profile with every column truthy is returned unchanged without any write |
| `OpenHouseService.QueryFilters` | src/services/openHouse/OpenHouseService.ts:15-20 | The city filter and then the date filter are added, each only when given and non-empty |
| `OpenHouseService.AgentName` | src/services/openHouse/OpenHouseService.ts:32 | The joined agent's name, or '' when it is missing |
| `OpenHouseService.AttendeesOrZero` | src/services/openHouse/OpenHouseService.ts:38 | The current attendee count, or 0 when it is missing |
| `OpenHouseService.ToListing` | src/services/openHouse/OpenHouseService.ts:25-43 | Each snake_case column goes to its camelCase field. The fallbacks are '' for the agent name, 0 attendees and [] images |
| `OpenHouseService.GetOpenHouses` | src/services/openHouse/OpenHouseService.ts:22-43 | A query error is passed on. Otherwise the rows are mapped one to one, in order |
| `OpenHouseService.MaxOrDefault` | src/services/openHouse/OpenHouseService.ts:60 | The attendee limit becomes 20 when absent or 0, and is kept otherwise |
| `OpenHouseService.InsertRowOf` | src/services/openHouse/OpenHouseService.ts:54-66 | The insert row copies the fields, starts with 0 attendees and has the defaulted limit |
| `OpenHouseService.CreateThenList` | src/services/openHouse/OpenHouseService.ts:25-66 | Listing a created open house gives back its own fields, 0 attendees and a limit of 20 when none or 0 was given |
| `OpenHouseService.CreateOpenHouse` | src/services/openHouse/OpenHouseService.ts:50-80 | The insert row is built from the data, and the stored row or the error is passed on |
| `Following.Unfollowed` | src/hooks/useFollowing.ts:22 | Exactly the entries for other agents remain, in order |
| `Following.FollowedAgents` | src/hooks/useFollowing.ts:30 | The agent id of every entry, in order, with the same length |
| `Following.FollowedAgentsIffFollows` | src/hooks/useFollowing.ts:25-31 | An agent is among the followed agents iff `isFollowing` holds for it |
| `Following.FollowThenFollows` | src/hooks/useFollowing.ts:18 | After appending an entry, its agent is followed |
| `Following.UnfollowThenNotFollows` | src/hooks/useFollowing.ts:22 | After unfollowing an agent, it is not followed |
| `Following.UnfollowKeepsOthers` | src/hooks/useFollowing.ts:22 | Unfollowing one agent keeps every other agent's entries, in order |
| `Following.UnfollowAbsent` | src/hooks/useFollowing.ts:22 | Unfollowing an agent not followed changes nothing |
| `Following.FollowList.constructor` | src/hooks/useFollowing.ts:9-10 | The hook starts with the user id and no entries |
| `Following.FollowList.FollowAgent` | src/hooks/useFollowing.ts:12-19 | One entry with the hook's user id, the agent and the timestamp is appended, with no de-duplication. The agent is then followed |
| `Following.FollowList.UnfollowAgent` | src/hooks/useFollowing.ts:21-23 | Every entry for the agent is removed, and the agent is then not followed |
| `Following.FollowList.GetFollowedAgents` | src/hooks/useFollowing.ts:29-31 | One agent id per entry |
| `OpenHouses.WithoutId` | src/hooks/useOpenHouses.ts:27 | Exactly the open houses with other ids remain, in order |
| `OpenHouses.DeleteAbsent` | src/hooks/useOpenHouses.ts:27 | Deleting an absent id changes nothing |
| `OpenHouses.DeleteIdempotent` | src/hooks/useOpenHouses.ts:27 | Deleting twice is deleting once |
| `OpenHouses.DeleteCount` | src/hooks/useOpenHouses.ts:27 | The list shrinks by exactly the number of open houses with the id |
| `OpenHouses.InitialDeletes` | src/hooks/useOpenHouses.ts:4-27 | From the sample list, deleting '1' empties it and any other id keeps it |
| `OpenHouses.OpenHouseList.constructor` | src/hooks/useOpenHouses.ts:24 | The state starts as the single sample open house with id '1' |
| `OpenHouses.OpenHouseList.DeleteOpenHouse` | src/hooks/useOpenHouses.ts:26-28 | The list becomes the filtered list |
| `AuthStore.Merge` | src/store/authStore.ts:21 | `{ ...user, ...updates }`: every field the update sets wins, and every other field is kept |
| `AuthStore.MergeNeutralAndIdempotent` | src/store/authStore.ts:20-22 | An empty update keeps the user, and repeating an update changes nothing more |
| `AuthStore.MergeThen` | src/store/authStore.ts:20-22 | Two updates in turn are their combination, with the later one winning |
| `AuthStore.Store.constructor` | src/store/authStore.ts:16-17 | The store starts with no user and not authenticated, so the invariant holds |
| `AuthStore.Store.SetUser` | src/store/authStore.ts:18 | Sets the user and `isAuthenticated` to true, keeping the invariant |
| `AuthStore.Store.ClearUser` | src/store/authStore.ts:19 | Clears the user and sets `isAuthenticated` to false, keeping the invariant |
| `AuthStore.Store.UpdateUser` | src/store/authStore.ts:20-22 | Merges into a signed-in user and leaves a missing user missing. It never touches `isAuthenticated` and keeps the invariant |

## Left out

- Supabase queries, `await`, the loading flags and the `useEffect` triggers are not modelled. Each backend call is a parameter holding its result or its failure.
- The `fetchAgents` wrapper of the ranking is not modelled: its `subscription_status = 'active'` filter, its `created_at` ordering, the `try/catch` that sets 'Failed to fetch rankings', and the `setTopAgents` / `setAreaRankings` writes. The model starts from the fetched rows in their fetched order.
- `getFollowerCount` returns a random number, so the follower count is a function parameter of the ranking.
- Random record ids from `Math.random().toString(36)` are parameters (fresh showing and slot ids).
- The clock: "today" (`new Date()` in the calendar, the modal and the follow timestamp) is a parameter.
- The time of day is not modelled: a date is year, month and day.
- `toISOString()` works in UTC. The model reads the grid's dates in local time and formats them as `YYYY-MM-DD`, so the time-zone shift of the date text is not modelled.
- The two-digit-year rule of `new Date(y, m, d)` (years 0–99 mean 1900–1999) is not modelled. Dates are proleptic Gregorian for every year.
- `toLowerCase` is modelled on ASCII letters only. Unicode case mapping is not modelled.
- `parseInt`: the attendee input's `parseInt` (including its NaN) is not modelled, and `SetMaxAttendees` takes an integer. The price selection is held as its parsed limit.
- `toLocaleString` / `toLocaleDateString` formatting, all rendering, `OpenHouseList.tsx`, `PropertySelector`, `AreaSelector` and the icons are not modelled.
- The zustand `persist` middleware (localStorage) is not modelled.
- `useProfile.ts` is not modelled: it is a simulated delay followed by `updateUser`.
- `useAgentSearch.ts` is not modelled: it wraps a search function outside the core.
- `useOpenHouse.ts` is not modelled: it wraps the open-house service.
- The showing's `property` and `notes` fields are not modelled, and neither is the sample open house's `listingUrl` (not a field of its type). A property carries only the fields the core reads.
- The `console.error` calls and the rethrow in `getUserProfile`, `getOpenHouses` and `createOpenHouse` are modelled as passing the `Err` result on.
- src/types/property.ts is not part of this model; the property record holds the fields the core reads.
- src/constants/locations.ts is not part of this model; the city list `BC_CITIES` is a parameter.
- src/hooks/useClients.ts is not part of this model; the client list that `useRankings` takes from it is the `clients` parameter of `Rankings.AreaRankingOf` and `Rankings.AreaRankings`.
- The time-slot modal's close and delete buttons are not modelled: they only call back into the calendar, whose delete is `HandleDeleteTimeSlot`.
- `AuthStore.Merge`: does not model an update that sets a field explicitly to `undefined`, because `Partial<AuthUser>` is modelled with `None` meaning "not set".
- `CalendarSync.GroupTimeSlots`: does not state that the grouping holds as many slots as the showings. It states every bucket's exact contents and that every slot is grouped, but the count over all buckets is not proved.
- `AgentCalendar.CalendarView.CurrentShowing`, `AgentCalendar.CalendarView.CellSlots`, `PropertyShowings.ShowingStore.GetShowingsByProperty`, `PropertyShowings.ShowingStore.GetAvailableTimeSlots`, `Following.FollowList.IsFollowing`, `PropertySearch.SearchForm.Selection`, `PropertySearch.SearchForm.OfferedTypes` and `AgentSearch.SearchPage.Results`: these read the state and apply the specification functions above, so their properties are stated on those functions.
