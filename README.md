# Campusise client state, modelled in Dafny

Campusise is a single-page app for a university-student social network:
posts on boards, reactions, comments, messages, notifications, profiles and a
class timetable. A hosted Postgres backend stores all of this and pushes
row-change events. This project models the client-side logic that the
React hooks and pages wrap around that backend. Three kinds of logic are
covered:

- **Realtime reducers.** A hook seeds a local list or counter from one bulk
  read, then patches it from INSERT and UPDATE events. These are modelled
  as classes with `seq` fields. The reads and events are inputs to the
  methods that consume them.
- **Reaction decisions.** Two hooks decide how a toggle becomes a write
  against the `post_reactions` table. The table is modelled as a map keyed
  by the (post, user) pair, and each write is an intent value applied to
  that map.
- **Selection and derivation rules.** These are pure functions over records
  and strings: board tab to query filters, the popular sort, the conversation
  predicate, timetable slot lookup, badge rules, the default profile, and
  schedule-form validation.

Modules, one per source file:

| module | file | source |
|---|---|---|
| `Common`, `ReactionTable` | common.dfy | shared enums (`board_type`, `message_type`, reaction kind), JavaScript truthiness, `split(sep)[0]`, `parseInt`; the `post_reactions` table |
| `PostReactions` | post_reactions.dfy | src/hooks/useRealtimePostReactions.tsx |
| `Posts` | posts.dfy | src/hooks/usePosts.tsx |
| `Notifications` | notifications.dfy | src/hooks/useNotifications.tsx |
| `Messages` | messages.dfy | src/hooks/useRealtimeMessages.tsx |
| `Comments` | comments.dfy | src/hooks/useRealtimeComments.tsx |
| `SchedulePage` | schedule.dfy | src/pages/Schedule.tsx |
| `Boards` | boards.dfy | src/pages/Boards.tsx |
| `NotificationBell` | notification_bell.dfy | src/components/NotificationBell.tsx |
| `Profiles` | profile.dfy | src/hooks/useProfile.tsx |
| `AddScheduleDialog` | add_schedule_dialog.dfy | src/components/AddScheduleDialog.tsx |
| `CommentSection` | comment_section.dfy | src/components/CommentSection.tsx |

Behaviour of the code as written that the model keeps:

- **No optimistic update.** `toggleReaction` changes no local state. The
  viewer's reaction moves only when a change event for the viewer's own row
  arrives.
- **A DELETE event never clears the viewer's reaction.** Its new-row image
  is empty, so the ownership test fails. After toggling the same kind twice,
  the table holds no row but the hook still shows that kind.
  `DeleteLeavesViewBehind` and `RepeatedToggleAfterDeleteIsSilent` state
  this.
- **Realtime INSERT handlers do not deduplicate by id.** Comments and
  messages have no UPDATE-to-insert path and no DELETE handling.
- **No rollback and no late-event guard.** A failed write is not undone
  locally, and the handlers do not check whether their hook is still
  mounted.
- **Notification UPDATE events can lower the unread counter wrongly.** The
  counter drops whenever the new row is read and the old image does not say
  it was read. It can therefore undercount, which
  `RepeatedReadWithoutOldImageUndercounts` states.

## Model

| member | source | states |
|---|---|---|
| `Common.ParseBoardType` | src/hooks/usePosts.tsx:43-44 | a string selects a board type exactly when it is one of the three enum spellings |
| `Common.ParseInt` | src/pages/Schedule.tsx:19-20 | `parseInt`: NaN unless a digit is present; a leading digit gives a non-negative number |
| `Common.ParseIntValue` | src/pages/Schedule.tsx:19-20 | a text starting with a digit parses to the decimal value of its leading digit run; what follows is ignored |
| `Common.ParseIntNegativeValue` | src/components/AddScheduleDialog.tsx:39 | after a '-' sign, the leading digit run is read and negated |
| `Common.ParseIntOfNatToString` | src/components/AddScheduleDialog.tsx:19-39 | `parseInt` reads back the decimal rendering of every natural number, such as a year written with `toString()` |
| `Common.TwoDigitValue` | src/pages/Schedule.tsx:19 | a two-digit text parses to its decimal value |
| `Common.BeforeFirst` | src/pages/Schedule.tsx:19-20 | `split(sep)[0]` is the prefix before the first separator, or the whole text |
| `Common.BeforeFirstOfJoin` | src/hooks/useProfile.tsx:72 | the part before the separator of `head + sep + tail` is `head` |
| `Common.OrZero` | src/hooks/useRealtimePostReactions.tsx:24-25 | a null counter reads as 0, any other value as itself |
| `Common.EmptyAsAbsent` | src/components/AddScheduleDialog.tsx:32-33 | an empty field is sent as absent, any other as itself |
| `Common.NatToString` | src/components/NotificationBell.tsx:22 | the decimal rendering of a count is non-empty, all digits, without a leading zero, and reads back as the count |
| `ReactionTable.Toggled` | src/hooks/usePosts.tsx:121-149 | choosing the held kind clears it; any other choice selects it |
| `ReactionTable.ToggledAllLast` | src/hooks/usePosts.tsx:113-149 | after a sequence of toggles the selection is the last kind, unless that toggle hit the active kind, which clears it |
| `ReactionTable.ToggleTwiceClears` | src/hooks/usePosts.tsx:121-129 | toggling one kind twice from none ends at none |
| `ReactionTable.SwitchKeepsLatest` | src/hooks/usePosts.tsx:130-138 | toggling one kind and then the other ends on the second |
| `PostReactions.ReactionAfterEvent` | src/hooks/useRealtimePostReactions.tsx:75-79 | only an event whose new row belongs to the viewer sets the viewer's reaction, to that row's kind; every other event leaves it |
| `PostReactions.ToggleWrite` | src/hooks/useRealtimePostReactions.tsx:89-110 | no write without a user; delete iff the shown reaction is the chosen kind; otherwise upsert (post, user, kind) |
| `PostReactions.ApplyWrite` | src/hooks/useRealtimePostReactions.tsx:96-109 | the upsert sets the pair's kind, the delete removes the pair, and no other pair changes |
| `PostReactions.EventOf` | src/hooks/useRealtimePostReactions.tsx:64-81 | an upsert echoes INSERT (new pair) or UPDATE (existing pair), never DELETE, with the row; deleting an existing row echoes DELETE with an empty image; otherwise no event |
| `PostReactions.UpsertRoundTrip` | src/hooks/useRealtimePostReactions.tsx:75-110 | toggling a kind not held: table and hook both reach `Toggled`, and stay in step |
| `PostReactions.DeleteLeavesViewBehind` | src/hooks/useRealtimePostReactions.tsx:75-100 | toggling the held kind empties the table's row, but the hook keeps showing the kind |
| `PostReactions.RepeatedToggleAfterDeleteIsSilent` | src/hooks/useRealtimePostReactions.tsx:94-100 | with the row gone but still shown, toggling again deletes nothing and echoes nothing |
| `PostReactions.AgreesWithReactionMutation` | src/hooks/useRealtimePostReactions.tsx:94-110 | with the hook in step, its write leaves the table as the three-way reaction mutation does |
| `PostReactions.ForeignEventsIgnored` | src/hooks/useRealtimePostReactions.tsx:75-79 | any sequence of events about other users' rows leaves the viewer's reaction unchanged |
| `PostReactions.PostReactionsHook.constructor` | src/hooks/useRealtimePostReactions.tsx:8-10 | counters start at 0 and the reaction starts at null |
| `PostReactions.PostReactionsHook.Mount` | src/hooks/useRealtimePostReactions.tsx:12-43 | an empty post id changes nothing and opens nothing; the read sets the counters (null as 0); the reaction is set only when the viewer has a row |
| `PostReactions.PostReactionsHook.ApplyPostUpdate` | src/hooks/useRealtimePostReactions.tsx:56-60 | a post UPDATE overwrites both counters with the event's values (null as 0) |
| `PostReactions.PostReactionsHook.ApplyReactionEvent` | src/hooks/useRealtimePostReactions.tsx:75-79 | the reaction becomes `ReactionAfterEvent` of the old one; events not owned by the viewer leave it |
| `PostReactions.PostReactionsHook.ToggleReaction` | src/hooks/useRealtimePostReactions.tsx:89-114 | returns `ToggleWrite` of the shown reaction and modifies no state |
| `PostReactions.SwitchScenario` | src/hooks/useRealtimePostReactions.tsx:56-110 | like then dislike from no row, then an update carrying 5/3: the hook shows dislike with counters exactly 5 and 3 |
| `Posts.QueryFor` | src/hooks/usePosts.tsx:31-51 | newest first; a board filter iff the argument is an enum name; university and department filters iff non-empty |
| `Posts.BuildPostQuery` | src/hooks/usePosts.tsx:31-51 | the step-by-step reassignment of `query` yields `QueryFor` |
| `Posts.UnknownBoardAddsNoFilter` | src/hooks/usePosts.tsx:42-45 | a board name outside the enum, such as 'popular', adds no board filter |
| `Posts.QuerySelects` | src/hooks/usePosts.tsx:42-51 | a post is selected iff its board has the given enum name and its university and department equal the non-empty arguments; absent, empty or unknown arguments select everything |
| `Posts.CreatePostRow` | src/hooks/usePosts.tsx:74-81 | no user: authentication error; otherwise the payload with `author_id` forced to the user's id |
| `Posts.DecideMutation` | src/hooks/usePosts.tsx:111-149 | no user: authentication error; same kind: delete; other kind: update; no row: insert |
| `Posts.ReactOnceToggles` | src/hooks/usePosts.tsx:113-149 | one mutation leaves the pair on `Toggled(existing, k)` and every other pair unchanged |
| `Posts.ReactAllToggles` | src/hooks/usePosts.tsx:113-149 | any sequence of mutations leaves the pair on `ToggledAll` and every other pair unchanged |
| `Posts.SameKindTwiceLeavesNoRow` | src/hooks/usePosts.tsx:121-149 | the same kind twice from no row ends with no row |
| `Notifications.SeedQuery` | src/hooks/useNotifications.tsx:27-32 | no read without a viewer; otherwise the viewer's rows, `created_at` descending, at most 50 |
| `Notifications.SeededCounterBounded` | src/hooks/useNotifications.tsx:27-38 | the seeded counter counts only the fetched rows, so it starts at no more than 50 |
| `Notifications.CountUnread` | src/hooks/useNotifications.tsx:38 | the unread count is at most the length, and is zero iff every notification is read |
| `Notifications.MergeById` | src/hooks/useNotifications.tsx:70-76 | same length; the notification with the row's id becomes the row; all others unchanged |
| `Notifications.MergeUnknownIdIsIdentity` | src/hooks/useNotifications.tsx:70-76 | an update for an id not in the list changes nothing |
| `Notifications.CountUnreadAfterMerge` | src/hooks/useNotifications.tsx:70-81 | merging into the single notification with that id moves the unread count by that one notification's change |
| `Notifications.UnreadAfterUpdate` | src/hooks/useNotifications.tsx:79-81 | the counter drops by exactly 1 iff the new row is read and the old image does not say it was read; otherwise unchanged |
| `Notifications.AfterEventsCounts` | src/hooks/useNotifications.tsx:55-81 | replaying events adds one notification per INSERT; the counter moves up by at most the INSERTs and down by at most the UPDATEs |
| `Notifications.AfterEventsKeepsTail` | src/hooks/useNotifications.tsx:55-59 | replaying events only prepends: after one new id per INSERT, the ids held before follow in the same order |
| `Notifications.NotificationsHook.constructor` | src/hooks/useNotifications.tsx:19-20 | empty list, counter 0 |
| `Notifications.NotificationsHook.Mount` | src/hooks/useNotifications.tsx:22-42 | no user: nothing; a good read sets the list and the counter to its unread count; a failed read leaves both |
| `Notifications.NotificationsHook.ApplyInsert` | src/hooks/useNotifications.tsx:55-59 | the new row goes first and the counter goes up by exactly 1, whatever its read flag |
| `Notifications.NotificationsHook.ApplyUpdate` | src/hooks/useNotifications.tsx:69-81 | the list becomes `MergeById`, with length kept; the counter follows `UnreadAfterUpdate` |
| `Notifications.UpdateKeepsCounterExact` | src/hooks/useNotifications.tsx:70-81 | with unique ids, a true old image and no read-to-unread flip, an update keeps the counter equal to the unread count |
| `Notifications.RepeatedReadWithoutOldImageUndercounts` | src/hooks/useNotifications.tsx:79-81 | re-reporting a read notification without an old `is_read` leaves the counter one below the true count |
| `Notifications.ReadToUnreadFlipUndercounts` | src/hooks/useNotifications.tsx:79-81 | an update turning a read notification back to unread leaves the counter one below the true count, since it is never incremented |
| `Notifications.MarkAllAsRead` | src/hooks/useNotifications.tsx:102-109 | no user: no write; otherwise exactly the mark-all write for that user |
| `Notifications.MarkAsRead` | src/hooks/useNotifications.tsx:91-95 | always writes `is_read` for the given id |
| `Messages.InScope` | src/hooks/useRealtimeMessages.tsx:67-70 | the channel's filter text, read as a PostgREST expression, denotes messages that involve the viewer, and with a partner also the partner |
| `Messages.SeedQuery` | src/hooks/useRealtimeMessages.tsx:31-45 | no read without a viewer; otherwise the viewer's messages, narrowed to the partner when one is given, `created_at` ascending |
| `Messages.SeedFilterIsScope` | src/hooks/useRealtimeMessages.tsx:40-45 | the seed query's two `or` filters select exactly the messages the channel's filter text denotes |
| `Messages.ScopeIsSymmetric` | src/hooks/useRealtimeMessages.tsx:43-44 | the conversation between two users is the same from either side |
| `Messages.Merge` | src/hooks/useRealtimeMessages.tsx:102 | columns come from the event row; the hydrated sender fields stay |
| `Messages.MergeById` | src/hooks/useRealtimeMessages.tsx:98-106 | same length; the message with the row's id is merged; all others unchanged |
| `Messages.MergeKeepsIds` | src/hooks/useRealtimeMessages.tsx:98-106 | an update keeps every position's id, so the order is unchanged |
| `Messages.AfterEventsKeepsPositions` | src/hooks/useRealtimeMessages.tsx:72-106 | replaying events grows the list by one per INSERT, and every message already held keeps its position and id |
| `Messages.MessagesHook.constructor` | src/hooks/useRealtimeMessages.tsx:23-24 | empty list, loading |
| `Messages.MessagesHook.Mount` | src/hooks/useRealtimeMessages.tsx:26-57 | no user: nothing; otherwise loading ends whether or not the read failed, and a good read sets the list |
| `Messages.MessagesHook.ApplyInsert` | src/hooks/useRealtimeMessages.tsx:72-85 | exactly one message is appended at the end, without deduplication |
| `Messages.MessagesHook.ApplyUpdate` | src/hooks/useRealtimeMessages.tsx:98-106 | the list becomes `MergeById` of the old one |
| `Messages.SendMessageRow` | src/hooks/useRealtimeMessages.tsx:115-125 | no user: nothing; otherwise sender is the user, with the given receiver and content; an absent type is 'dm' |
| `Messages.SentMessageInScope` | src/hooks/useRealtimeMessages.tsx:115-125 | a message sent to the partner lies in that conversation's scope |
| `Comments.SeedQuery` | src/hooks/useRealtimeComments.tsx:25-39 | no read for an empty post id; otherwise this post's rows by `created_at` ascending |
| `Comments.AfterInsertsAppends` | src/hooks/useRealtimeComments.tsx:62-76 | INSERT events only append: the old list is a prefix, and each event adds exactly its comment in order |
| `Comments.CommentsHook.constructor` | src/hooks/useRealtimeComments.tsx:21-22 | empty list, loading |
| `Comments.CommentsHook.Mount` | src/hooks/useRealtimeComments.tsx:24-48 | an empty post id does nothing; otherwise loading ends even on a failed read, which leaves the list |
| `Comments.CommentsHook.ApplyInsert` | src/hooks/useRealtimeComments.tsx:62-76 | exactly one comment is appended at the end |
| `Comments.AddCommentRow` | src/hooks/useRealtimeComments.tsx:85-95 | no user: nothing; otherwise this post, the user as author, the content; anonymous unless told otherwise |
| `Comments.AddCommentRoundTrip` | src/hooks/useRealtimeComments.tsx:75-95 | a comment added to an empty post and echoed back is the only comment, with that content, author and flag |
| `SchedulePage.HourIgnoresMinutes` | src/pages/Schedule.tsx:19-20 | only the text before ':' counts, so minutes never change the hour |
| `SchedulePage.TwoDigitHour` | src/pages/Schedule.tsx:19-20 | an "HH:MM" time reads as hour HH |
| `SchedulePage.HourOfWithoutColon` | src/pages/Schedule.tsx:19-20 | `HourOf`: a time without ':' is parsed whole; a time starting with ':' has no hour (NaN) |
| `SchedulePage.EmptyRangeOccupiesNothing` | src/pages/Schedule.tsx:19-21 | `Occupies`: an entry ending no later than it starts occupies no cell, so an occupied cell needs start < end |
| `SchedulePage.FirstOccupant` | src/pages/Schedule.tsx:17-22 | the index of an occupying entry with no earlier occupying entry, or none when no entry occupies the cell |
| `SchedulePage.ScheduleForTimeSlot` | src/pages/Schedule.tsx:17-22 | an entry of the list that is on the day with start <= hour < end; none iff no entry is |
| `SchedulePage.EarlierEntryWins` | src/pages/Schedule.tsx:18 | when several entries match, the first in list order is returned |
| `SchedulePage.Grid` | src/pages/Schedule.tsx:76-82 | ten rows (hours 9..18) of five cells (days 1..5); each cell is the timetable lookup of its weekday and hour |
| `SchedulePage.GridCellsInRange` | src/pages/Schedule.tsx:25-82 | a filled cell holds an entry on days 1..5 occupying an hour in 9..18 |
| `SchedulePage.OccupiedSlotIsShown` | src/pages/Schedule.tsx:76-82 | a slot some entry occupies shows the first such entry in list order |
| `SchedulePage.DayLabel` | src/pages/Schedule.tsx:124 | a label exists exactly for days 1..5, taken from `days[day - 1]` |
| `Boards.FiltersFor` | src/pages/Boards.tsx:27-45 | 'all' and 'popular': no filters; 'campus' with profile: board and university; 'department' with profile: board and department, never university; 'international': board only |
| `Boards.DeriveFilters` | src/pages/Boards.tsx:27-45 | the if-chain over the three `let` variables yields `FiltersFor` |
| `Boards.UnscopedTabsMatchEverything` | src/pages/Boards.tsx:31-45 | the 'all' and 'popular' tabs fetch every post |
| `Boards.CampusTabScope` | src/pages/Boards.tsx:32-34 | the campus tab fetches exactly the campus posts of the profile's university (any, if it is empty) |
| `Boards.DepartmentTabScope` | src/pages/Boards.tsx:35-39 | the department tab fetches the department posts of the profile's department at any university |
| `Boards.BoardTitle` | src/pages/Boards.tsx:173-185 | fixed titles for the known boards, profile-qualified for campus and department, '전체 게시판' otherwise |
| `Boards.InsertByLikes` | src/pages/Boards.tsx:190 | inserting into a likes-sorted list keeps it sorted and adds exactly that post |
| `Boards.SortByLikes` | src/pages/Boards.tsx:189-191 | the copy is sorted by likes descending (null as 0) and is a permutation of the input |
| `Boards.DisplayedPosts` | src/pages/Boards.tsx:189-191 | popular: a sorted permutation; any other tab: the fetched list itself |
| `Boards.DisplayedCountIsFetchedCount` | src/pages/Boards.tsx:219-222 | the displayed count equals the number of fetched posts |
| `NotificationBell.BadgeText` | src/components/NotificationBell.tsx:20-22 | '9+' above nine; otherwise the single digit of the count |
| `NotificationBell.ListFor` | src/components/NotificationBell.tsx:40-46 | the empty-state message iff there are no notifications; otherwise the first min(n, 10) in order |
| `NotificationBell.OnClick` | src/components/NotificationBell.tsx:52-56 | marks the notification read iff it is unread; a read one issues nothing |
| `NotificationBell.BadgeAfterSeed` | src/components/NotificationBell.tsx:20 | after seeding, the badge (`BadgeShown`) shows iff some fetched notification is unread |
| `NotificationBell.MarkAllShownWithBadge` | src/components/NotificationBell.tsx:20-32 | the mark-all button (`MarkAllShown`) shows exactly when the badge does, so iff some seeded notification is unread |
| `Profiles.ProfileReadFor` | src/hooks/useProfile.tsx:27-33 | no user: no query (null); otherwise the user's row is read |
| `Profiles.EmailName` | src/hooks/useProfile.tsx:72 | no e-mail: 'user'; otherwise the part before the first '@' (the whole address without '@'), or 'user' when that part is empty |
| `Profiles.EmailNameIsLocalPart` | src/hooks/useProfile.tsx:72 | `local@domain` gives `local` |
| `Profiles.EmailWithoutLocalPart` | src/hooks/useProfile.tsx:72 | an address with nothing before '@' gives 'user' |
| `Profiles.Spread` | src/hooks/useProfile.tsx:78 | a key present in the patch wins over the default |
| `Profiles.NewProfile` | src/hooks/useProfile.tsx:70-79 | every present patch key overrides, `id` included; absent keys get the account id, the e-mail name or the fixed defaults |
| `Profiles.EmptyPatchGivesDefaults` | src/hooks/useProfile.tsx:70-79 | an empty patch yields the default profile |
| `Profiles.EmptyDisplayNameIsKept` | src/hooks/useProfile.tsx:73-78 | a display name given as "" survives, since the spread comes after the `||` default |
| `Profiles.UpdateProfile` | src/hooks/useProfile.tsx:47-89 | no user: authentication error; an existing row is updated; a missing one gets `NewProfile` inserted |
| `AddScheduleDialog.DayChoicesParse` | src/components/AddScheduleDialog.tsx:55-61 | the weekday choices '1'..'5' parse to 1..5 |
| `AddScheduleDialog.SubmitPayload` | src/components/AddScheduleDialog.tsx:24-40 | no mutation iff a required field is empty; each optional is sent as typed when non-empty and absent when empty; day and year go through `parseInt` |
| `AddScheduleDialog.ScheduleDialog.constructor` | src/components/AddScheduleDialog.tsx:12-20 | closed, every field empty, year the current year |
| `AddScheduleDialog.ScheduleDialog.HandleSubmit` | src/components/AddScheduleDialog.tsx:24-40 | returns `SubmitPayload` of the fields and modifies nothing |
| `AddScheduleDialog.ScheduleDialog.ClickSubmit` | src/components/AddScheduleDialog.tsx:172 | the button sends a payload iff the mutation is not pending (`SubmitEnabled`) and every required field is filled |
| `AddScheduleDialog.ScheduleDialog.OnSuccess` | src/components/AddScheduleDialog.tsx:41-51 | the dialog closes and every field is cleared, with the year reset to the current year |
| `AddScheduleDialog.SubmittedYearIsCurrentYear` | src/components/AddScheduleDialog.tsx:19-39 | a filled form with the default year sends that year as a number and the empty optionals as absent |
| `CommentSection.TrimStart` | src/components/CommentSection.tsx:43 | a suffix of the text whose dropped prefix is all white space, and which is empty or starts with a visible character |
| `CommentSection.TrimEnd` | src/components/CommentSection.tsx:43 | a prefix of the text whose dropped tail is all white space, and which is empty or ends with a visible character |
| `CommentSection.BlankIffTrimEmpty` | src/components/CommentSection.tsx:43 | `!text.trim()` (`IsBlank`) holds iff every character is in the white-space set of `String.prototype.trim` |
| `CommentSection.NewLocalComment` | src/components/CommentSection.tsx:45-51 | the new comment is anonymous, by '익명', and holds the untrimmed input |
| `CommentSection.Render` | src/components/CommentSection.tsx:64-70 | nothing when closed; otherwise the header count is the list length |
| `CommentSection.CommentSectionState.constructor` | src/components/CommentSection.tsx:24-40 | empty input and the two canned anonymous comments |
| `CommentSection.CommentSectionState.SetInput` | src/components/CommentSection.tsx:100 | typing replaces the input text |
| `CommentSection.CommentSectionState.SubmitComment` | src/components/CommentSection.tsx:42-55 | blank input: nothing changes; otherwise the list grows by one with the new comment first and the old list as suffix, and the input clears |

## Left out

- Backend I/O is not modelled as calls. This covers the `supabase.from(...)`
  reads and writes, `.channel(...).on(...).subscribe()`, `removeChannel`, and
  the profile reads in the INSERT handlers. Fetched rows, events and hydrated
  profile fields are method parameters. Writes are returned as intent values.
- Effects run once per hook instance. A dependency change (`user`, `postId`,
  `receiverId`) that re-runs an effect is not modelled, and neither are
  cleanup, a late callback after cleanup, or a race between the seed read
  and an event. Events are an ordered sequence applied after the mount.
  Each event method requires `subscribed`, because the source has no handler
  before the mount.
- The seed reads' filtering, ordering (`created_at`) and `.limit(50)` are
  carried out by the backend. The model records them in query values:
  `Posts.QueryFor`, `Comments.SeedQuery`, `Notifications.SeedQuery` and
  `Messages.SeedQuery`. The fetched rows are inputs in the order the backend
  returns them, and `Mount` does not check them against the query.
- Notification rows do not model the untyped `data` payload. An UPDATE
  event's new image is taken to carry every column.
- `PostReactions.ApplyWrite`: the upsert is assumed to resolve on the
  (post_id, user_id) pair, but the call names no `onConflict` column. The
  unique constraints of `post_reactions` are not part of this model. If the
  conflict target is only the `id` primary key, switching like to dislike
  inserts a second row or fails with an error that nobody reads.
  `UpsertRoundTrip`, `AgreesWithReactionMutation` and `SwitchScenario` hold
  only under the pair-keyed assumption.
- `Messages.InScope`: the realtime channel filter is assumed to be read as
  the PostgREST `or(and(...))` expression it is written as. The other
  channels use the `column=eq.value` form. Whether the realtime server
  honours this text is not part of this model. No proof depends on it,
  because `ApplyInsert` accepts any row.
- `Profiles.NewProfile`: a key in `Partial<Profile>` that is present but
  holds `undefined` is treated as absent.
- `Common.ParseInt`: leading white space and the `0x` prefix that JavaScript
  `parseInt` also accepts are not modelled. The time inputs produce "HH:MM".
- `Boards.SortByLikes`: does not state stability, even though JavaScript's
  sort is stable. Only sortedness and permutation are stated.
- The `markAsRead` of the message hook is not modelled. It is an
  unconditional single-row update with no client-side logic.
- React Query caching, invalidation, pending state, toasts and console
  logging are library or presentation behaviour.
- Clock and locale values are parameters: `formatDistanceToNow`, the
  `Date.now()` comment ids and timestamps, and `getFullYear()`.
- `src/hooks/useRealtime.tsx` (presence channels) and `src/hooks/useAuth.tsx`
  (auth SDK wrapper) are not part of this model.
- `src/pages/Index.tsx` (a mock-data filter) and
  `src/integrations/supabase/types.ts` are not part of this model. Only the
  types file's enums appear, as datatypes.
- Presentation and routing pages and components are not part of this model,
  including the password-match guard of the sign-in page.
