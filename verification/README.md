# The Scribe's message parser, modelled in Dafny

This project models `parser.js`, the core of a chat bot for a multi-room
chat server. The model covers:

- **Routing.** Server frames are cut into room-scoped lines, and each line
  into `|`-separated fields at the offsets its type tag dictates. The chat,
  private-message, rename, join and leave cases become the side effects the
  bot performs. The command prefix and the first-space split of
  `chatMessage` are modelled, as is the scrape of the room-authority popup.
- **Scoring.** Each chat message is normalised and checked against four
  rules: banned phrase, flooding, caps and stretching. A severity and a
  reason are taken from the rules that fire. When the cooldown allows it,
  the punishment ladder gives the command, and the points and zero-tolerance
  counters change.
- **The decay sweep.** Stale message times are dropped, the kept times are
  sorted, and small point totals fade.
- **Last seen.** The last-seen text and time of every user is kept.
- **Elapsed time.** `getTimeAgo` renders an elapsed time as text.
- **Blacklists.** Each room has a blacklist and a compiled matcher.
- **Persistence.** The coalescing writers persist the settings and the
  mailbox. Pending mail is delivered when a user joins.

The clock, the room and user directories, rank checks and the regular
expression engine are not computed here. The caller passes their answers
in as parameters:

- `now` is the clock.
- `known` is the set of rooms the room directory knows.
- `isSelf`, `isStaff`, `botIsDriver` and `botIsMod` are the rank and
  identity checks.
- `re` is the matcher for blacklist patterns.

Files and modules:

| file | module | contents |
|---|---|---|
| `options.dfy` | `Options` | `Option` |
| `text.dfy` | `Text` | `indexOf`, `split`/`join`, `trim`, `substr`, lower-casing, `toId`, number to text |
| `router.dfy` | `Router` | `splitMessage`, the tag switch of `message`, the handlers' effects, command parsing, the popup scrape |
| `rules.dfy` | `Rules` | normalisation, the four rules, severity and reason, the punishment ladder |
| `records.dfy` | `Records` | the per-user and per-room records of `chatData` |
| `decay.dfy` | `Decay` | the sweep of one user's records |
| `chatdata.dfy` | `ChatState` | `updateSeen`, `processChatData`, `cleanChatData`, and the class `ChatData` holding `chatData` |
| `elapsed.dfy` | `Elapsed` | `getTimeAgo` |
| `blacklist.dfy` | `Blacklist` | the class `BlacklistIndex` holding `settings.blacklist` and `blacklistRegexes` |
| `store.dfy` | `Store` | the writer state machine, the class `Writer`, the class `Mailbox`, the empty-store fallback |

In-place state is modelled as classes whose methods are proved against
pure functions: `ChatData`, `BlacklistIndex`, `Writer` and `Mailbox`.
Each method's `ensures` ties the new state to a function of the old
state. The properties the code promises are proved about those functions
as lemmas.

Where the design description and the code differ, the model follows the
code:

- The decay sweep deletes a room record whose `times` was already empty
  when the sweep reached it. A record that the sweep itself empties is
  kept until the next sweep (`Decay.CleanRooms`).
- Points are not capped at 4. The escalation guard tests the severity
  against 4, not the points, so a record at 4 points goes to 5
  (`Rules.PointsPassFour`).
- When the severity exceeds the points, the points become the severity.
  They are not left unchanged (`Rules.Escalate`).
- A room's moderation override disables the flooding, caps or stretching
  rule whenever the rule's key is present. The key's value is ignored
  (`Rules.OverrideKeyDisables`).
- The caps rule counts the length of the message's id (letters and
  digits), not its letters only. It compares the capitals with the
  truncated four fifths of that length (`Rules.IsCaps`).
- The bot's own rank only clamps the command when the points reach 4, or
  through the zero-tolerance override. There is no general cap to the
  bot's rank (`Rules.Decide`).
- For a rename, the last-seen text drops the first character of the new
  id unless that character is a space. `updateSeen` receives the new user
  id, which has no rank character, so a rename to `alice` is recorded as
  "changing nick to lice." (`ChatState.RenameDropsFirst`).

## Model

| member | source | states |
|---|---|---|
| `Text.IndexOf` | parser.js:343 | a found position leaves room for the whole pattern |
| `Text.IndexOfSpec` | parser.js:343 | the result is the first position where the pattern occurs, and `None` exactly when it occurs nowhere |
| `Text.SplitOn` | parser.js:82 | splitting always yields at least one field |
| `Text.JoinSplit` | parser.js:191 | joining the fields of a split with the same separator gives back the original text |
| `Text.SplitJoin` | parser.js:191 | splitting a join of separator-free parts gives back the parts |
| `Text.IndexIn` | parser.js:554 | `indexOf` on a list gives the first index holding the value, and `None` exactly when the value is absent |
| `Text.Substr` | parser.js:65 | `substr` never returns more than the requested length |
| `Text.TrimStart` | parser.js:307 | the result is a suffix of the text that starts with a non-space, and every character dropped is white space |
| `Text.TrimEnd` | parser.js:307 | the result is a prefix of the text that ends with a non-space, and every character dropped is white space |
| `Text.Trim` | parser.js:307 | the trimmed text neither starts nor ends with white space |
| `Text.TrimDropsOnlySpace` | parser.js:307 | the trimmed text is the slice of the text between a leading and a trailing run of white space, so only white space is dropped |
| `Text.TrimKeeps` | parser.js:348 | trimming a text with non-space ends leaves it unchanged |
| `Text.LowerChar` | parser.js:468 | upper-case ASCII letters change to lower case; every other character is kept |
| `Text.Lower` | parser.js:468 | lower-casing keeps the length and lower-cases each character |
| `Text.ToId` | parser.js:282 | an id is no longer than its text and holds only lower-case letters and digits |
| `Text.ToIdOfId` | parser.js:269 | an id is its own id |
| `Text.DigitsOf` | parser.js:591 | a number is written with at least one digit, and with digits only |
| `Router.SplitSingleLine` | parser.js:57-61 | a string without a line break is one line, with no room |
| `Router.SplitHeaderless` | parser.js:63-79 | without a `>room` header every line is dispatched with no room, and the lines joined back give the whole string |
| `Router.SplitWithHeader` | parser.js:63-79 | a `>room` header is not dispatched; the following lines carry that room when the directory knows it, and joined back they give the rest of the string |
| `Router.SplitTournament` | parser.js:64-65 | a header followed by a tournament line dispatches nothing |
| `Router.SplitMessage` | parser.js:57-80 | only the empty string gives nothing at all, and a string that is dispatched gives at least one line |
| `Router.Field` | parser.js:185 | a field is present exactly when the line has that many fields |
| `Router.ParseLine` | parser.js:82-83 | a line with no tag the switch handles is passed on whole: its fields joined back give the line |
| `Router.ChatLineFields` | parser.js:184-191 | a `c` line yields the name from field 2 and the text from field 3 on, `|` characters included |
| `Router.StampedChatLineFields` | parser.js:195-202 | a `c:` line yields the stamp from field 2, the name from field 3 and the text from field 4 on |
| `Router.PmLineFields` | parser.js:206-213 | a `pm` line yields the sender from field 2 and the text from field 4 on |
| `Router.ChatEffects` | parser.js:184-205 | an unknown user or the bot is ignored, and a missing room fails; otherwise a blacklisted user is roombanned first, non-staff messages are scored, the message is always handled last, and there is no other effect |
| `Router.PmEffects` | parser.js:206-219 | a missing name fails and the bot's own messages are ignored; the one effect is a join exactly when a ranked sender invites to a room other than lobby on the main server, and otherwise handling as a command in the private context |
| `Router.RenameEffects` | parser.js:220-227 | a missing room fails and a rename is never ignored; the renamed user is roombanned first exactly when blacklisted, and the rename is always recorded last, as last seen under the old id |
| `Router.JoinEffects` | parser.js:228-241 | a missing room or name fails and the bot is ignored; otherwise the effects are, in order, a roomban exactly when blacklisted, the last-seen record, and mail delivery exactly when some is waiting, and nothing else |
| `Router.LeaveEffects` | parser.js:262-270 | a leave fails only without a room, or for a user the room does not know and no name; the bot's own leave is ignored; otherwise one last-seen record for the id the room reports, or for the id of the raw name |
| `Router.ParseCommand` | parser.js:340-349 | there is a command exactly when the trimmed text starts with the prefix, and the command holds no space |
| `Router.CommandRoundTrip` | parser.js:340-349 | prefix, command, space and a trimmed argument parse back into that command and argument |
| `Router.Assign` | parser.js:287-290 | every listed name gets the current rank; other names keep their rank |
| `Router.ScanAllAppend` | parser.js:281-292 | scanning two runs of chunks is scanning the first and then the second |
| `Router.ScanNames` | parser.js:281-292 | a name is in the table exactly when some listing chunk names it |
| `Router.HeadingRanksNextListing` | parser.js:282-290 | the names in a listing right after a rank heading get that heading's rank |
| `Router.AssignAll` | parser.js:287-290 | the loop over a listing gives every listed name the current rank and keeps the other entries |
| `Router.ScrapeRoomAuth` | parser.js:273-295 | a missing title fails; a title without "room auth" or without a room id gives no table; a title with both gives the table of that room, which is the scan of the `||`-separated chunks |
| `Rules.DropFillers` | parser.js:438 | the result is a suffix of the text with no leading filler |
| `Rules.DropsOnlyFillers` | parser.js:438 | every character `DropFillers` drops is a filler |
| `Rules.Collapse` | parser.js:438 | the first character is kept, the result is no longer than the text, and it is empty only for empty text |
| `Rules.CollapseRuns` | parser.js:438 | every filler left is a space and no two fillers are adjacent |
| `Rules.CollapseSolidText` | parser.js:438 | a text without fillers is left as it is |
| `Rules.CollapseJoin` | parser.js:438 | a maximal run of fillers between two pieces of text becomes exactly one space, and the pieces collapse on their own |
| `Rules.Solid` | parser.js:438 | the solid text has no filler character |
| `Rules.SolidDropFillers` | parser.js:438 | dropping leading fillers keeps the non-filler text |
| `Rules.CollapseKeepsSolid` | parser.js:438 | collapsing filler runs keeps every non-filler character in order |
| `Rules.Normalise` | parser.js:438 | normalising keeps the trimmed text's non-filler characters, every filler left is a space, and no two fillers are adjacent |
| `Rules.NormaliseJoin` | parser.js:438 | two words of a message separated by any run of fillers come out separated by exactly one space |
| `Rules.FindBannedPhrase` | parser.js:464-473 | the loop finds a phrase exactly when the text contains one of the phrases |
| `Rules.Phrases` | parser.js:465-466 | the phrases checked are exactly the room's phrases and the global ones |
| `Rules.IsFlooding` | parser.js:476-479 | flooding needs five messages, the fifth-latest in the past |
| `Rules.BurstIsNotFlooding` | parser.js:476-479 | five messages within 2.5 seconds never count as flooding |
| `Rules.FloodingLooksBackFive` | parser.js:476-479 | flooding depends only on the fifth-latest time: earlier history never changes it |
| `Rules.CountUpper` | parser.js:487 | there are no more capitals than characters |
| `Rules.IsCaps` | parser.js:487-488 | caps needs a capital and more than 18 characters |
| `Rules.AllCapsCounts` | parser.js:487-488 | in a text of capitals every character is a capital and an id character |
| `Rules.ShoutingIsCaps` | parser.js:488 | a run of capitals is caps exactly when it is longer than 18 |
| `Rules.IsStretching` | parser.js:495 | stretching needs at least eight characters |
| `Rules.StretchingAnywhere` | parser.js:495 | a stretch anywhere in a message makes the whole message stretching |
| `Rules.EightCopiesStretch` | parser.js:495 | eight copies of one character that is not a line terminator stretch |
| `Rules.Hits` | parser.js:463-501 | at most four rules fire, each worth one or two points |
| `Rules.SeverityIsMax` | parser.js:463-501 | the severity is the largest number of points among the hits, and 0 with none |
| `Rules.ReasonIsFirstMax` | parser.js:463-501 | the reason is that of a hit worth the severity |
| `Rules.FireStep` | parser.js:480-485 | a rule that fires raises the severity to its points, and takes the reason only when it raises the severity strictly |
| `Rules.RuleOutcome` | parser.js:463-501 | the severity is 2 for a banned phrase or flooding, else 1 for caps or stretching, else 0; the reason is that of the first rule, in checking order, worth the severity |
| `Rules.Assess` | parser.js:458-501 | the rule pass computes the severity and reason of the rules that fire |
| `Rules.OverrideKeyDisables` | parser.js:480 | with all three override keys present only the banned-phrase rule can fire |
| `Rules.Rung` | parser.js:509 | the ladder's command for a rung when it is present and not empty, and `mute` otherwise |
| `Rules.Escalate` | parser.js:507-513 | below 4, points that reach the severity climb by one, otherwise they become the severity; either way they rise and end at least at the severity |
| `Rules.Decide` | parser.js:504-521 | a warn becomes a mute in private rooms (unless a clamp applies first); at 4 points a bot without `@` hourmutes; zero tolerance above 4 forces roomban or hourmute and its reason; otherwise the command is the ladder's; zero tolerance rises exactly when the new points exceed 1 |
| `Rules.Punish` | parser.js:503-522 | the statement-by-statement action step computes `Decide` |
| `Rules.PointsPassFour` | parser.js:507-508 | a record at 4 points hit by a one-point rule goes to 5 |
| `Rules.RepeatedActionsClimb` | parser.js:507-508 | repeated actions at the same severity climb one point per action |
| `Decay.Recent` | parser.js:541-543 | filtering never lengthens the times |
| `Decay.RecentCounts` | parser.js:541-543 | the kept times are exactly the old ones less than 5000 ms before `now`, with their multiplicities |
| `Decay.FilterRecent` | parser.js:538-543 | the filtering loop computes the recent times |
| `Decay.InsertSpec` | parser.js:544-546 | inserting into a sorted list keeps it sorted and adds exactly that element |
| `Decay.SortAscendingSpec` | parser.js:544-546 | sorting gives an ascending permutation of the times |
| `Decay.CleanRecordSpec` | parser.js:538-548 | a kept record has sorted recent times, points in 1..3 dropped by one, points 0 or 4 and up unchanged, and the same last action |
| `Decay.CleanRecord` | parser.js:538-548 | cleaning never raises the points, never adds a time and keeps the last action |
| `Decay.CleanOne` | parser.js:538-548 | the loop body computes the cleaned record |
| `Decay.CleanRooms` | parser.js:530-549 | a record is kept exactly when its times were non-empty, and every kept record is cleaned |
| `Decay.SweepRooms` | parser.js:530-549 | the loop over one user's records computes the swept records |
| `ChatState.SeenText` | parser.js:563-582 | the last-seen text starts with the event's words and ends with a full stop |
| `ChatState.SeenUpdate` | parser.js:553-562 | an event outside the configured rooms (renames excepted) or in a private room changes nothing; any other event leaves the user with an entry |
| `ChatState.SeenUpdateFrame` | parser.js:553-562 | only the user's own entry can appear or change; a new entry starts at zero tolerance with no rooms, and an old one keeps both |
| `ChatState.SeenRecorded` | parser.js:561-584 | an event in a public configured room, or a rename, with a detail records the text and the time |
| `ChatState.PrivateRoomsUnseen` | parser.js:554 | nothing in a private room is recorded |
| `ChatState.JoiningText` | parser.js:565-568 | a join of a trimmed room id reads "joining <room>." |
| `ChatState.RenameDropsFirst` | parser.js:577-582 | a rename to `alice` reads "changing nick to lice." |
| `ChatState.Moderate` | parser.js:457-524 | moderation never changes the recorded times |
| `ChatState.QuietKeepsScore` | parser.js:503 | without moderation, without a hit, or within the cooldown nothing is said and points, last action and zero tolerance are unchanged |
| `ChatState.ChatStep` | parser.js:436-454 | after a chat message the user always has an entry and a record in the room |
| `ChatState.ActionEscalates` | parser.js:503-523 | something is said only with moderation on, a severity of 1 or 2 and the cooldown passed; the action raises the points to at least the severity, stamps the time, and raises zero tolerance exactly when the points exceed 1 |
| `ChatState.ActionFires` | parser.js:503-523 | with moderation on, a rule fired and the cooldown passed, the decided command is said to the user with the decided reason, and the record takes the decided points and the time |
| `ChatState.CooldownSuppresses` | parser.js:503 | a message within 3 seconds of an action in the same room sends nothing |
| `ChatState.ChatAppendsTime` | parser.js:441-454 | every chat message appends `now` to the user's times in the room |
| `ChatState.ChatOthersUnchanged` | parser.js:436-526 | scoring a message leaves every other user's entry as it was |
| `ChatState.CleanAll` | parser.js:527-551 | the sweep keeps every user and every scalar field, and cleans each user's room records |
| `ChatState.ChatData.constructor` | parser.js:42 | `chatData` starts empty |
| `ChatState.ChatData.UpdateSeen` | parser.js:553-585 | the method performs the last-seen update |
| `ChatState.ChatData.SeenMessage` | parser.js:563-582 | the `switch` builds the last-seen text |
| `ChatState.ChatData.ProcessChatData` | parser.js:436-526 | the method performs the chat step: last seen, new time, moderation, and the command said |
| `ChatState.ChatData.ModerateRecord` | parser.js:456-524 | the moderation statements compute the verdict |
| `ChatState.ChatData.CleanChatData` | parser.js:527-551 | the nested sweep loops compute the cleaned data |
| `Elapsed.TDiv` | parser.js:587 | `~~` of a quotient leaves a remainder with the sign of the dividend and smaller than the divisor, so it truncates toward zero |
| `Elapsed.TMod` | parser.js:589 | `%` leaves a remainder with the sign of the dividend, and quotient and remainder recompose the dividend |
| `Elapsed.Steps` | parser.js:587-603 | seconds stay between -60 and 60, minutes and hours in their range, and a time under a minute has no larger part |
| `Elapsed.StepsAreBreakdown` | parser.js:586-605 | for a non-negative time the code's steps give the days, hours, minutes and seconds of plain division, each in range, recomposing the time |
| `Elapsed.NegativeShowsSeconds` | parser.js:587-596 | a time in the future shows only a seconds part |
| `Elapsed.Part` | parser.js:591 | a part is shown exactly when it is not zero |
| `Elapsed.UnderASecond` | parser.js:606 | less than a second either way reads "0 seconds" |
| `Elapsed.TimeAgoIsBreakdown` | parser.js:586-607 | from one second on, the text is the non-zero parts of the plain breakdown, largest first, joined by ", " |
| `Elapsed.WholeMinutes` | parser.js:586-607 | a whole number of minutes under an hour reads as minutes alone |
| `Elapsed.TimeAgo` | parser.js:586-607 | the text is never empty |
| `Blacklist.PatternBody` | parser.js:406 | for an entry written `/body/i` of length 3 or more, the body is what lies between the slashes; an entry shorter than three gives the empty body |
| `Blacklist.AltOf` | parser.js:405-409 | an entry gives a pattern exactly when it is written `/…/i`, otherwise the literal entry |
| `Blacklist.PatternEntryBody` | parser.js:405-406 | `/body/i` contributes `body` |
| `Blacklist.Compile` | parser.js:401-411 | the matcher holds the alternative of every entry and nothing else |
| `Blacklist.AcceptsCompiled` | parser.js:404-411 | a compiled matcher accepts an id exactly when the list is empty or one of its entries matches |
| `Blacklist.LiteralEntryMatches` | parser.js:408 | a plain entry without metacharacters matches exactly the ids equal to it up to case |
| `Blacklist.CompiledAccepts` | parser.js:374 | a room's matcher accepts every id one of its plain entries names, whatever the other entries are |
| `Blacklist.EmptyListMatchesAll` | parser.js:411 | a matcher built from no entry accepts every id |
| `Blacklist.BlacklistIndex.constructor` | parser.js:44 | the lists are loaded and no matcher exists yet |
| `Blacklist.BlacklistIndex.IsBlacklisted` | parser.js:372-375 | an id is blacklisted exactly when the room has a matcher and its list is empty or one of its entries matches the id |
| `Blacklist.BlacklistIndex.UpdateBlacklistRegex` | parser.js:401-412 | the loop rebuilds exactly the room's matcher from its current list |
| `Blacklist.BlacklistIndex.RebuildAll` | parser.js:176-181 | after login every room with a list has the matcher of its list |
| `Blacklist.BlacklistIndex.BlacklistUser` | parser.js:376-387 | false and nothing changed when the entry exists; otherwise the entry is added, the room's matcher rebuilt, and it holds the entry |
| `Blacklist.BlacklistIndex.UnblacklistUser` | parser.js:388-400 | false and nothing changed when the entry is absent; removing the last entry deletes the list and the matcher; otherwise the matcher is rebuilt |
| `Store.Requested` | parser.js:619-625 | a request during a write only marks a write pending; otherwise it starts one write of the latest version |
| `Store.Finished` | parser.js:612-618 | finishing clears `writing`, and a pending mark becomes exactly one new write of the latest version |
| `Store.FinishedAsWritten` | parser.js:612-618 | as written, finishing clears both flags and starts no write |
| `Store.IdleCoherent` | parser.js:610-611 | the writer starts coherent |
| `Store.RequestKeepsCoherent` | parser.js:619-624 | a request keeps the writer coherent |
| `Store.FinishKeepsCoherent` | parser.js:612-618 | a completion keeps the writer coherent: an idle writer has the latest version on disk |
| `Store.RequestsWhileWriting` | parser.js:620-623 | requests during a write start no write |
| `Store.BurstCoalesces` | parser.js:609-637 | any burst of requests gives one write and at most one trailing write, after which the disk holds the last version |
| `Store.TrailingWriteLost` | parser.js:612-618 | as written, a second request during a write is never saved |
| `Store.Writer.constructor` | parser.js:610-611 | a writer starts idle |
| `Store.Writer.Request` | parser.js:619-637 | the method performs a request |
| `Store.Writer.Finish` | parser.js:612-618 | the method performs the intended completion |
| `Store.MailLineShape` | parser.js:238 | a mail line starts with the private-message command to the user and ends with the sender's text |
| `Store.MailLines` | parser.js:236-239 | one line per stored message |
| `Store.MailLinesAt` | parser.js:236-239 | the lines follow the stored order |
| `Store.MailFor` | parser.js:236-239 | the delivery loop computes the mail lines |
| `Store.Mailbox.constructor` | parser.js:31-35 | the mailbox starts with the loaded store |
| `Store.Mailbox.DeliverOnJoin` | parser.js:234-242 | with mail waiting, every message is sent in order, the entry is deleted and a write requested; with none nothing changes |

## Left out

- The login flow (`challstr`): its HTTPS requests, retry timer and process exit are network I/O.
- `updateuser`: room joins and the sweep timer. Only its matcher rebuild is modelled (`RebuildAll`).
- `uploadToHastebin` is an HTTP client; `shuffle` depends on `Math.random`; `uncacheTree` edits the module cache.
- Decoding of the JSON frame in `data` and the transport send in `say` are left out. Sends are the `Say` and `Send` effects.
- Console logging and colouring are left out. Canned replies, greetings and Word of the Day reminders are configuration-driven chat and are left out too.
- The alias resolution and invocation of `Commands` are left out; parsing ends at the command and its argument.
- The `fs.writeFile` and `fs.rename` calls, and the JSON reads at start-up, are left out. Only the writer flags, the versions they save and the empty-default outcome are modelled.
- `Text.ToId`: `toId` is a global defined outside parser.js, in a file that is not part of this model. `ToId` gives its usual definition: it keeps only ASCII lower-case letters and digits after lower-casing ASCII capitals.
- `Text.Trim`: its own contract states only the ends. That nothing but white space is dropped is the lemma `Text.TrimDropsOnlySpace`, kept apart because a quantified contract on the function slows every caller.
- `Rules.DropFillers`: its own contract does not say what is dropped. That only fillers are dropped is the lemma `Rules.DropsOnlyFillers`, for the same reason.
- `Rules.Collapse`: its own contract states only the first character and the length. That each maximal run of fillers becomes exactly one space is the lemma `Rules.CollapseJoin`, with `Rules.CollapseSolidText` and `Rules.CollapseRuns`.
- `Rules.Normalise`: its own contract does not fix where the spaces stay. The lemma `Rules.NormaliseJoin` does: words separated by any run of fillers come out one space apart.
- `ChatState.Moderate`: its own contract states only that the times are kept. When an action is said and what it says is the lemma `ChatState.ActionFires`; the quiet cases are `ChatState.QuietKeepsScore`.
- `Rules.IsStretching`: strings are sequences of characters, while the code's strings are sequences of UTF-16 code units. A character outside the Basic Multilingual Plane is two code units there, so five to seven copies of such a character (an emoji) match the grouped pattern `(..+)\1{4,}` in the code but do not stretch here.
- `Text`: lengths, `substr` offsets and `charAt` count characters here and UTF-16 code units in the code. The two agree only on text inside the Basic Multilingual Plane.
- `Store.Mailbox.DeliverOnJoin`: the mailbox is a map, so an id that names a property every object inherits (`constructor`, the only one `toId` can produce) has no mail here. In the code the lookup finds the inherited function, whose `length` is 1, and reading the first letter's time throws a TypeError.
- `Store.Mailbox.DeliverOnJoin` reads the clock once per join. The code reads it once per letter, inside `getTimeAgo`.
- `Blacklist.BlacklistIndex.BlacklistUser`: for the id `constructor` in a room that already has a list, the code's lookup finds the inherited value, so it returns false and adds nothing. Here the id is added and the answer is true.
- `Blacklist.BlacklistIndex.UnblacklistUser`: for the id `constructor` in a room that has a list, the code's lookup succeeds, the delete does nothing and the answer is true. Here the id is not listed and the answer is false.
- `ChatState.ChatData.ProcessChatData`: for the user id `constructor` the code finds the inherited `Object` function instead of creating an entry, so its records hang off that function and zero tolerance becomes `NaN` at the first escalation. Here the user gets a fresh entry.
- `ChatState.SeenUpdate`: for the user id `constructor` the code writes the last-seen text onto the inherited function. Here the user gets a fresh entry.
- `ChatState.ChatData.CleanChatData`: the code's for-in never visits an inherited key, so records kept under `constructor` are never decayed there. Here every user in the map is swept.
- `Text.Lower`: only ASCII letters are case-folded. The engine's full Unicode lower-casing is not modelled.
- `Rules.SameFold`: case-insensitive back-references compare ASCII case only.
- `Blacklist.AltMatches`: entries with regular-expression metacharacters and pattern bodies are decided by the `re` parameter. A body's effect on neighbouring alternatives is not modelled (a `|` in it, or an unbalanced group), and neither is the case folding the `i` flag applies beyond ASCII.
- `Blacklist.Compile`: a matcher is the set of its alternatives. The for-in order of the alternation is not kept, because any matching alternative accepts an id.
- `Blacklist.BlacklistIndex.lists`: an entry is present or absent. A stored entry whose value is falsy (`0` in a hand-edited file) is counted as present.
- `Decay.SortAscending` is an insertion sort. Any sort with the numeric comparator gives the same ascending result.
- `ChatState.ChatData.CleanChatData` reads the clock once per sweep. The code reads it once per record.
- `ChatState.ChatData.ProcessChatData` uses one `now` for the last-seen update and the scorer. The code reads the clock separately in each.
- `Rules.Settings`: a room with an override but no `banword` object throws in the code. The model reads a missing flag as unset.
- `Router.ScanChunk`: a heading whose id is a property every object inherits (such as `constructor`) passes `in ranks` in the code. The model only knows the four rank headings.
- `Elapsed.TDiv`: the 32-bit range of `~~` is not modelled; times beyond it are read as unbounded integers.
- `Store.Writer`: the same class stands for `writeSettings` and for `writeMessages`, one instance per blob. The blob itself is a version number.

## Findings

| source | as written | input that shows it | evidently intended | confidence | as-written member | corrected member |
|---|---|---|---|---|---|---|
| parser.js:612-618, parser.js:631, parser.js:634 (same shape at parser.js:642-648, parser.js:661, parser.js:664) | `finishWriting` is called as a plain callback, so `this` inside it is not the parser. It clears both flags and then fails calling `this.writeSettings()`, so the pending write never starts. The TypeError is thrown inside the `fs` callback, where nothing catches it, so it can also end the process | two requests while idle: the first starts a write, the second marks it pending, then the write completes. The disk holds version 1 of 2 and no write is in flight | the pending mark becomes one trailing write of the current data, so an idle writer always has the latest data on disk | high, not executed | `Store.FinishedAsWritten`, `Store.TrailingWriteLost` | `Store.Finished`, `Store.BurstCoalesces` |
