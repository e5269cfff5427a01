# Echoes typing game: verified model of its stores and its challenge dialog

This Dafny project models the sequential logic of three parts of the Echoes
typing game:

- **The play-progress store** (`PlayStore`, `play_store.dfy`). It keeps a
  user's checkpoint rows, the word and paragraph lists, the stories, and the
  gallery images that the user's progress has unlocked. It also models the
  remote `user_checkpoint` table. `updateCheckpoint` updates or inserts
  rows in that table, so it is a class (`CheckpointTable`).
- **The leaderboard store** (`LeaderboardStore`, `leaderboard_store.dfy`).
  It keeps the round's counters, the leaderboard, the global board and the
  user's profile. The real-time INSERT and UPDATE reducers are pure
  functions. A second class, `LeaderboardTable`, stands for the remote
  `LeaderBoard` table that `saveLeaderboard` appends to.
- **The challenge dialog** (`CategoryDialog`, `category_dialog.dfy`). It
  holds the two time tables, the lookup and `split(" ")[0]`, the
  time-to-difficulty rule, the confirm-button rule, and the handlers that
  write the game settings (`GameSettings`).

How the model is put together:

- Each store is a class whose fields mirror the store's fields. Each
  asynchronous store function is one method, taken as one atomic step. It
  makes the same successive assignments as the source: `isLoading` true,
  then the data, then `isLoading` false.
- The remote store is an input. A row query is `Query` (`Ok(rows)`, `Err`
  for a reported error, `Throw` for an exception). A write is `Status`
  (`Done`, `Failed`, `Threw`). A session is a boolean.
- `Common` (`common.dfy`) holds `Option`, `Query` and `Status`.

Behaviour the model keeps as the code has it:

- When `fetchStory` gets a reported error, it returns without clearing
  `isLoading`, so the flag stays true (`FetchStory`).
- The store's initial state spells the profile field `profilData`.
  `fetchProfileData` writes `profileData`. The model keeps both fields.
  Nothing ever writes `profilData`.
- The real-time UPDATE reducer maps the entries and does not re-sort the
  board. `UpdateCanUnsort` shows an update that leaves a sorted board
  unsorted.
- An UPDATE for an id the board does not hold is dropped: the board stays
  as it is (`UpdateUnknownId`).
- `saveLeaderboard` awaits the insert through a notification promise. That
  promise fails only when the insert throws. If the insert reports an
  error, nothing is written, but both boards are still re-fetched.
- `Array.prototype.sort` with the comparator `b.score - a.score` is a
  stable sort, highest score first. `SortByScore` models it as an insertion
  sort. `StableSortCharacterized` proves that it is the only stable sort:
  a list equals its result exactly when the list is sorted by score and
  keeps the order of every score's entries.

## Model

| member | source | states |
|---|---|---|
| `PlayStore.FirstForChapter` | store/playStore.js:240-242 | finds nothing exactly when no checkpoint has the chapter; otherwise returns the first checkpoint of that chapter |
| `PlayStore.Unlocked` | store/playStore.js:240-248 | an image passes the filter exactly when there is a checkpoint of its chapter, with no earlier checkpoint of that chapter, whose `last_chunk_id` is at least the image's `unlock_chunk_id` |
| `PlayStore.VisibleImages` | store/playStore.js:238-249 | the gallery is an ordered subsequence of the images; an image is in it exactly when it is in the input and unlocked; every unlocked image keeps all its occurrences and every other image has none, so the result is exactly the filter |
| `PlayStore.VisibleMonotone` | store/playStore.js:238-249 | checkpoints that unlock more images show a gallery that contains the weaker gallery as an ordered subsequence |
| `PlayStore.RaiseKeepsUnlocked` | store/playStore.js:244-247 | raising one checkpoint's `last_chunk_id` keeps every unlocked image unlocked |
| `PlayStore.RaiseNeverHides` | store/playStore.js:238-251 | raising a checkpoint's `last_chunk_id` never removes an image from the gallery and keeps the order of the images shown |
| `PlayStore.UnlockedIffReached` | store/playStore.js:240-248 | with one checkpoint per chapter, an image is unlocked exactly when some checkpoint of its chapter has reached its unlock chunk |
| `PlayStore.UserRows` | store/playStore.js:84-87 | the lookup selects exactly the table rows whose `user_id` is the user's |
| `PlayStore.UpdateRows` | store/playStore.js:96-99 | the update keeps the table's length and positions, patches every row of the user with the data's fields, and leaves every other row as it was |
| `PlayStore.Upsert` | store/playStore.js:94-110 | if the user has rows, the row count stays the same, every row of the user gets the new chapter and chunk and every other row is unchanged; if not, exactly one row is appended, whose `user_id` is `userId` whatever the data carries |
| `PlayStore.UpsertKeepsOthers` | store/playStore.js:94-110 | what every other user reads back from the table is unchanged by `updateCheckpoint` |
| `PlayStore.UpsertReadBack` | store/playStore.js:94-110 | after a successful update or insert, the user has at least one row, and every row of the user is at the written chapter and chunk |
| `PlayStore.UpdateRowsIdempotent` | store/playStore.js:96-99 | applying the same update twice gives the same table as applying it once |
| `PlayStore.DefaultCheckpoint` | store/playStore.js:29-37 | the fallback row has id 0 and the user id or ""; as a checkpoint list it unlocks exactly the chapter-1 images whose unlock chunk is at most 0 |
| `PlayStore.Store.constructor` | store/playStore.js:4-10 | all lists start empty and `isLoading` false |
| `PlayStore.Store.FetchCheckpoint` | store/playStore.js:12-73 | without a session nothing changes; otherwise non-empty fetched rows are stored as they are, and an error, an exception or no rows store exactly the default row `{id 0, chapter 1, chunk 0, userId or ""}`; `isLoading` ends false and `checkpoint` is never empty |
| `PlayStore.Store.UpdateCheckpoint` | store/playStore.js:75-121 | without a session nothing changes; if the lookup and the write succeed, the table becomes the upsert of the old table; a failed or thrown step writes nothing; after the session check `isLoading` ends false |
| `PlayStore.Store.FetchWords` | store/playStore.js:123-150 | the fetched words on success; the empty list without a session, on an error or on an exception; `isLoading` always ends false |
| `PlayStore.Store.FetchParas` | store/playStore.js:152-178 | the fetched paragraphs on success; the empty list without a session, on an error or on an exception; `isLoading` always ends false |
| `PlayStore.Store.FetchStory` | store/playStore.js:180-201 | without a session nothing changes; success stores the stories; an exception stores the empty list; in both `isLoading` ends false; a reported error changes nothing and leaves `isLoading` true |
| `PlayStore.Store.FetchGallery` | store/playStore.js:205-255 | without a session nothing changes; when both fetches succeed the gallery is the unlocked images; if either fetch fails the gallery is empty; `isLoading` ends false |
| `LeaderboardStore.InsertByScore` | store/leaderboardStore.js:83 | inserting adds exactly the new entry: the result is a permutation of the old list plus the entry |
| `LeaderboardStore.InsertSorted` | store/leaderboardStore.js:83 | inserting into a list sorted by score keeps it sorted |
| `LeaderboardStore.SortByScore` | store/leaderboardStore.js:83 | the sort returns a permutation of its input, sorted by score with the highest first |
| `LeaderboardStore.InsertStable` | store/leaderboardStore.js:83 | inserting keeps the order of every score's entries, and the new entry comes before the old entries of its own score |
| `LeaderboardStore.SortStable` | store/leaderboardStore.js:83 | the sort is stable: for every score, the entries with that score keep their relative order |
| `LeaderboardStore.SortedUnique` | store/leaderboardStore.js:83 | two score-sorted lists that order every score's entries alike are equal, so a stable sort's result is unique |
| `LeaderboardStore.StableSortCharacterized` | store/leaderboardStore.js:83 | a list is the sort's result if and only if it is sorted by score and keeps the input's order within every score |
| `LeaderboardStore.ApplyInsert` | store/leaderboardStore.js:81-85 | the INSERT reducer returns a permutation of the new entry plus the old board, sorted by score, one longer than the old board |
| `LeaderboardStore.InsertKeepsArrivalOrder` | store/leaderboardStore.js:81-85 | after an INSERT the new entry precedes every old entry with the same score, and the old entries of each score keep their order |
| `LeaderboardStore.SortOfSorted` | store/leaderboardStore.js:83 | sorting a board that is already sorted leaves it unchanged |
| `LeaderboardStore.InsertIntoSorted` | store/leaderboardStore.js:81-85 | on a sorted board, the INSERT reducer places the new entry just before the first old entry whose score is at most its own, and the old entries keep their order |
| `LeaderboardStore.InsertCommutes` | store/leaderboardStore.js:81-85 | two INSERT events with different scores give the same board in either order |
| `LeaderboardStore.ApplyUpdate` | store/leaderboardStore.js:86-90 | the UPDATE reducer keeps the length and positions; every entry whose id matches becomes the new entry and every other entry is unchanged |
| `LeaderboardStore.UpdateUnknownId` | store/leaderboardStore.js:88 | an UPDATE for an id the board does not hold leaves the board unchanged |
| `LeaderboardStore.UpdateKeepsIds` | store/leaderboardStore.js:88 | an UPDATE keeps the id at every position, and applying it twice is the same as once |
| `LeaderboardStore.UpdateKeepsOrderIfScoreKept` | store/leaderboardStore.js:86-90 | a sorted board stays sorted after an UPDATE that keeps the replaced entries' score |
| `LeaderboardStore.UpdateCanUnsort` | store/leaderboardStore.js:86-90 | there is a sorted board and an UPDATE that leaves it unsorted: the reducer does not re-sort |
| `LeaderboardStore.FindProfileIndex` | store/leaderboardStore.js:147 | finds nothing exactly when no global entry has the user id; otherwise gives the position of the first entry that does |
| `LeaderboardStore.DefaultProfile` | store/leaderboardStore.js:155-168 | the default record belongs to the user, is named Anonymous, has every total 0, `difficulties_played` "", no `last_played` and no rank; `ProfileFor` and `Store.FetchProfileData` use it as the profile of a user the global board lacks |
| `LeaderboardStore.ProfileFor` | store/leaderboardStore.js:147-168 | the profile always belongs to the user; it is the first global entry of the user when there is one, and otherwise the default record (Anonymous, all totals 0, `difficulties_played` "", no `last_played`, no rank) |
| `LeaderboardStore.AfterFetch` | store/leaderboardStore.js:42-55 | a board after one fetch: the fetched rows on success, the old board on a reported error (`return null` before any `set`), the empty board on an exception; the contracts of `Store.FetchGlobalLeaderboard`, `Store.FetchLeaderboard`, `Store.SaveLeaderboard` and `Store.FetchProfileData` give the new boards through it |
| `LeaderboardStore.Store.constructor` | store/leaderboardStore.js:5-17 | the initial state: no user, no profile, zero counters, difficulty "easy", empty boards, not loading |
| `LeaderboardStore.Store.SetUserDetails` | store/leaderboardStore.js:20 | sets the user id and the user name and nothing else |
| `LeaderboardStore.Store.ResetGame` | store/leaderboardStore.js:26-32 | zeroes the score, words typed, accuracy and time played and clears game-over; the user, the difficulty and both boards are unchanged |
| `LeaderboardStore.Store.FetchGlobalLeaderboard` | store/leaderboardStore.js:34-56 | without a session nothing changes and nothing is returned; success stores and returns the rows; an error returns nothing and keeps the board; an exception empties the board; after the session check `isLoading` ends false |
| `LeaderboardStore.Store.FetchLeaderboard` | store/leaderboardStore.js:59-99 | as for the global board, and a success also registers the real-time handlers |
| `LeaderboardStore.Store.OnInsert` | store/leaderboardStore.js:81-85 | once the handlers are registered, an INSERT event replaces the board by the INSERT reducer's result |
| `LeaderboardStore.Store.OnUpdate` | store/leaderboardStore.js:86-90 | once the handlers are registered, an UPDATE event replaces the board by the UPDATE reducer's result |
| `LeaderboardStore.Store.SaveLeaderboard` | store/leaderboardStore.js:101-129 | without a session nothing is inserted or changed; a successful insert appends exactly `{user_id, userName, difficulty, words_typed, correct_words_typed, incorrect_words_typed}` with no score; unless the insert throws, both boards are re-fetched |
| `LeaderboardStore.Store.FetchProfileData` | store/leaderboardStore.js:131-174 | without a session or a user id nothing changes; when the global fetch yields rows, the profile becomes the user's profile from those rows; when it yields nothing the profile is kept; the misspelt initial field is never written |
| `CategoryDialog.TableFor` | components/dialogs/select-typing-category-dialog.jsx:52-55 | the words table is used exactly when the challenge type is "words"; every other value uses the paragraphs table; `LookupDefinedIff` and `TimePrefixes` state what the lookup in each table gives |
| `CategoryDialog.FindOption` | components/dialogs/select-typing-category-dialog.jsx:54-55 | finds nothing exactly when no option has the id; otherwise returns the first option of the table with that id |
| `CategoryDialog.FirstWord` | components/dialogs/select-typing-category-dialog.jsx:56 | the result is a prefix of the text with no space in it, and it stops at the first space or at the end |
| `CategoryDialog.LookupDefinedIff` | components/dialogs/select-typing-category-dialog.jsx:51-57 | in either table the lookup is defined exactly for easy, medium and hard; any other id would be dereferenced while undefined |
| `CategoryDialog.TimePrefixes` | components/dialogs/select-typing-category-dialog.jsx:18-28 | the stored time is 45/30/15 for words and 60/30/15 for paragraphs |
| `CategoryDialog.DifficultyFor` | components/dialogs/select-typing-category-dialog.jsx:58-64 | the result is easy, medium or hard; it is hard exactly for "15", medium exactly for "30", and easy for every other prefix; `DifficultyMatchesOption` proves that it maps every option's time back to the option's id |
| `CategoryDialog.DifficultyMatchesOption` | components/dialogs/select-typing-category-dialog.jsx:57-65 | in either table, choosing an option sets the difficulty equal to the option's id |
| `CategoryDialog.ChosenTimeEnablesSave` | components/dialogs/select-typing-category-dialog.jsx:45 | once a challenge type is chosen, picking any offered time makes `canSave` true |
| `CategoryDialog.ConfirmEnabledAfterChoice` | components/dialogs/select-typing-category-dialog.jsx:184 | once a challenge type is chosen and a time picked, the confirm button is enabled exactly when nothing is loading |
| `CategoryDialog.GameSettings.HandleTabChange` | components/dialogs/select-typing-category-dialog.jsx:47-49 | only the challenge type changes; the time and the difficulty keep their values |
| `CategoryDialog.GameSettings.HandleTimeChange` | components/dialogs/select-typing-category-dialog.jsx:51-66 | requires the chosen id to be in the table in use (otherwise the source crashes); stores the option's time prefix and sets the difficulty by the time-to-difficulty rule, which is the id; with a challenge type set, saving becomes possible |
| `CategoryDialog.GameSettings.HandleConfirm` | components/dialogs/select-typing-category-dialog.jsx:68-71 | passes exactly the current challenge type and time |

## Left out

- The storyline progression (current chunk, advancing, chapter changes) and the chunk-type dispatch live in the storyline page and the storyline manager. They are not part of this model.
- Supabase and Clerk are foreign calls and are not modelled: the client, the query builders, `rpc('global_board')`, the `.on(...).subscribe()` wiring and the session. Query and write outcomes and the session flag are inputs instead.
- Server-side filtering and ordering are not modelled: `.eq(...)` on fetches and `.order(...)` by `created_at`, `score` or `chapter_id`. Fetched rows are taken in the order given. The one exception is the user lookup in `updateCheckpoint`, which the model computes from the table.
- The model does not produce null data from a successful query. The client returns an array on success. So `data || []` in `fetchWords` and plain `data` in `fetchParas` behave the same in the model.
- `created_at` and `new Date().toISOString()` are clock I/O. They are dropped from all rows.
- Toasts and `console.error` are notifications only. They are dropped.
- `setGameState` merges an arbitrary object into the store. It is not modelled.
- `changeColor` and the `onConfirm` callback belong to the caller. `HandleConfirm` returns the value it would pass to `onConfirm`.
- The JSX, CSS classes and Radix components are not modelled. Neither is the `useGameSettingsStore` store, whose source is not part of this model. `GameSettings` models only the three fields the dialog uses.
- Concurrency is not modelled. Calls run as atomic steps, so overlapping calls that share `isLoading` cannot interleave. Nor can real-time events that race with fetches, or the un-awaited re-fetches in `saveLeaderboard`.
- The model tracks only whether the real-time handlers are registered. Every successful `fetchLeaderboard` registers them again in the source, and the model does not capture an event reaching several registered handlers.
- Scores and totals are unbounded integers. The source uses JavaScript numbers, and fractional averages are not modelled.
- JavaScript's null, undefined and "" are all modelled as "" for the user id in `updateCheckpoint`, for the challenge type and for the time. The optional user ids of `fetchCheckpoint`, `setUserDetails` and `fetchProfileData` are `Option` values.
- LeaderboardStore.Store.FetchProfileData: the `catch` branch that sets the profile to null (store/leaderboardStore.js:170-172) is not modelled. It is reachable only if creating the Supabase client throws (store/leaderboardStore.js:39, before that fetch's own `try`), and the model treats client creation as infallible everywhere. Every exception inside the global-board fetch's `try` is caught there, and `fetchProfileData` then returns early and keeps the profile.
- PlayStore.Store.UpdateCheckpoint: `updateCheckpoint` receives whatever the caller passes. The model gives `checkpointData` a chapter, a chunk and an optional `user_id`, which are the fields the callers pass, and no other fields. `UpsertKeepsOthers` and `UpsertReadBack` assume the data carries no `user_id` of another user.
