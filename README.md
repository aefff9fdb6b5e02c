# SoulRoom decision logic in Dafny

SoulRoom is a web app for two people. Each of them signs in. One creates a
room and shares its six-character code. The other joins with that code. Both
then share a chat, an anonymous thought exchange and a simulated plant. The
hosted backend stores the rows, handles sign-in and pushes change events.
This project models the decisions the client makes around those calls.

- **Room pairing** (`Rooms`, `Pairing`; `src/components/EntryGate.tsx`).
  - The `soul_rooms` table is a map from room code to `Room{id, code, creator, partner, active}`.
  - The store's unique constraints are the predicate `WellFormed`.
  - The pairing invariant is `Consistent`: a room is active exactly when it has a partner, and that partner is not its creator.
  - The store is the class `RoomStore`, with its select, insert and update.
  - `EntryGate` is a class with the component's fields `mode`, `roomCode`, `createdRoom` and `waitingForPartner`. Its handlers are methods.
  - Each handler is proved against pure functions. `JoinStep` holds the lookup, the three checks in order, and the one write. `Joined` is that write: keyed on the id alone, with no `partner_id IS NULL` guard.
  - The lemmas cover each error case, the "nothing else changes" facts, invariant preservation, re-join, the race outcome when two joiners read stale data, and the full handshake.
- **Shared plant** (`Plant`; `src/components/SharedPlant.tsx`). Water and health are integers in half-units, so 0..200 stands for 0..100. This module has the five-stage classifier with its emoji and messages, the tick, watering and reset as functions, the class `SharedPlant` whose methods apply them, and the range invariant over every run of events.
- **Thought exchange** (`Thoughts`; `src/components/ThoughtExchange.tsx`). Thoughts are appended at the end. The blank-input guard, the simulated partner reply, the reveal/hide rewrite of the whole list and the attribution label are all modelled.
- **Chat** (`Chat`; `src/components/ChatInterface.tsx`). This covers the send guards and the row that gets sent, the feed append, the fetch replacement, reactions on a single id, and the "mine" rule.
- **Page shell** (`Shell`; `src/pages/Index.tsx`). The three views, the guarded transitions, and the hand-off of room id and partner name from the gate.
- **Strings** (`Text`, `Utf16`). `trim` removes exactly the ECMAScript WhiteSpace and LineTerminator code points. `toUpperCase` maps ASCII only. `LookupKey` is trim followed by upper-casing. A string's `length`, and so every `maxLength`, counts UTF-16 code units: a character outside the Basic Multilingual Plane, such as an emoji, counts two.

Everything the backend decides is passed in as a parameter:
- the signed-in user;
- the generated code and the new row's id;
- a fault the store may report, separately for the room lookup, the insert and the update;
- the profiles table;
- clock readings and the random pick.

Each realtime event is a method call ("the event arrives"). Each timer firing is a method call too. A counter field records that a timer was started.

The code has these behaviours, and the model keeps them as written:
- A partner may join the same room again. Only a *different* partner is refused as "full". `RejoinChangesNothing` shows that such a re-join rewrites the same values.
- The join handler itself only rejects a blank code. The six-character rule is the Join button's guard on the UTF-16 `length` (`JoinEnabled`), and six spaces pass it (`SixSpacesPassTheButtonOnly`).
- While the gate is mounted and waiting, every qualifying update starts another profile fetch, and each fetch that returns enters the room again. It stops only because the page switches to the room view and unmounts the gate.
- The profile fetch does not check `waitingForPartner` again when it returns. An update that arrives just before Cancel therefore still takes the creator into the room (`CancelDoesNotStopPendingEntry`).
- Cancel keeps the typed or created code in `roomCode`. Cancel then "Join Existing Room" therefore starts with the creator's own code in the field, and joining with it fails with "You cannot join your own room".

## Model

| member | source | states |
|---|---|---|
| Text.Trim | src/components/EntryGate.tsx:115 | the trimmed input is empty exactly when the input is all whitespace; otherwise neither end is whitespace |
| Text.ToUpper | src/components/EntryGate.tsx:123 | upper-casing keeps the length and maps each character on its own |
| Text.LookupKey | src/components/EntryGate.tsx:123 | definition: trim, then upper-case; its properties are the Key lemmas below |
| Utf16.Utf16Length | src/components/EntryGate.tsx:304 | a string's `length` counts UTF-16 units: between its number of characters and twice that |
| Utf16.CutToUnits | src/components/ThoughtExchange.tsx:126 | what a `maxLength` field keeps: a prefix within the limit, such that the next character would exceed it |
| Utf16.CutIsLongest | src/components/ThoughtExchange.tsx:126 | no longer prefix fits the limit |
| Utf16.BmpCutIsPlainCut | src/components/EntryGate.tsx:298 | for text in the Basic Multilingual Plane, such as a room code, the field keeps the first `limit` characters |
| Utf16.AstralTextKeepsHalf | src/components/ThoughtExchange.tsx:126 | text made only of surrogate-pair characters keeps half as many characters as the limit |
| Text.TrimPadded | src/components/EntryGate.tsx:123 | trim removes the whitespace around a code and nothing of the code |
| Text.KeyBlankIffInputBlank | src/components/EntryGate.tsx:115-123 | the lookup key is empty exactly when the input is blank, so the blank guard is what keeps an empty key from reaching the lookup |
| Text.KeyIgnoresCase | src/components/EntryGate.tsx:296 | upper-casing keystrokes in the field does not change the lookup key |
| Text.KeyIdempotent | src/components/EntryGate.tsx:123 | normalising an already normalised key changes nothing |
| Text.PaddedCodeKey | src/components/EntryGate.tsx:123 | a code padded with whitespace, in any case, resolves to the key of its upper-case form, which is that form itself |
| Text.PaddedLowerCaseCodeMatches | src/components/EntryGate.tsx:123 | " ab12cd " and "AB12CD" give the same key, "AB12CD" |
| Rooms.RoomStore.FindByCode | src/components/EntryGate.tsx:120-126 | the lookup finds a row exactly when the store reports no fault and a row is filed under the key; that row carries the key as its code |
| Rooms.RoomStore.Insert | src/components/EntryGate.tsx:82-92 | an accepted insert adds the pending row (creator set, no partner, inactive) and returns it; a rejected one changes nothing and returns an error |
| Rooms.RoomStore.UpdatePartner | src/components/EntryGate.tsx:139-145 | the update sets partner and active on the rows with that id, and does not check the current partner; a reported fault leaves the table alone |
| Rooms.Joined | src/components/EntryGate.tsx:139-145 | the update keeps the set of codes; every row with the id becomes (id, code, creator, joiner, active), and every other row stays |
| Rooms.ErrorText | src/components/EntryGate.tsx:127-135 | definition: the three fixed messages of the checks, and the store's own message for a rejected write |
| Rooms.ErrorTextTellsTheCheck | src/components/EntryGate.tsx:127-135 | the three checks show three different messages, so the toast tells which check failed |
| Rooms.CheckJoin | src/components/EntryGate.tsx:120-136 | the lookup and checks pass exactly when the lookup does not fail, a row is filed under the key, the joiner is not its creator, and it has no partner or already has the joiner; the result is that row |
| Rooms.JoinStep | src/components/EntryGate.tsx:120-147 | definition: the checks, then the write, which a store fault rejects; its properties are the lemmas below |
| Rooms.SelectFaultReadsAsNotFound | src/components/EntryGate.tsx:120-128 | a lookup the store fails reads as NotFound even for a filed code, and nothing is written |
| Rooms.UnknownCodeNotFound | src/components/EntryGate.tsx:120-128 | a key that matches no row fails with NotFound and the table is unchanged |
| Rooms.OwnRoomCheckedFirst | src/components/EntryGate.tsx:130-132 | when the lookup succeeds, the creator joining their own room fails with OwnRoom and writes nothing, whatever the partner, so this check comes before the full check |
| Rooms.OccupiedRoomFull | src/components/EntryGate.tsx:134-136 | when the lookup succeeds, a room whose partner is someone other than the joiner fails with Full and writes nothing |
| Rooms.RejoinChangesNothing | src/components/EntryGate.tsx:134-145 | the current partner joining again passes the checks, and the write leaves the table as it was |
| Rooms.FailedJoinWritesNothing | src/components/EntryGate.tsx:126-147 | every failed join, including a rejected write, leaves the table unchanged |
| Rooms.JoinChangesOnlyTheFoundRow | src/components/EntryGate.tsx:139-147 | after a successful join only the found row differs: partner is the joiner and active is true; id, code and creator stay, as do all other rows and the set of codes |
| Rooms.InsertKeepsInvariants | src/components/EntryGate.tsx:82-90 | an accepted insert keeps codes and ids unique and the pairing invariant, and adds exactly the new code |
| Rooms.JoinKeepsInvariants | src/components/EntryGate.tsx:130-145 | every join keeps the unique constraints and the pairing invariant; the own-room check keeps a creator from becoming the partner |
| Rooms.PartnerStaysUnderSequentialJoins | src/components/EntryGate.tsx:134-145 | when joins happen one after another, a partner once set is never replaced |
| Rooms.StaleReadsLetTheLastWriterWin | src/components/EntryGate.tsx:120-145 | two joiners who both read the room while it is pending both pass every check; the unguarded second write replaces the first joiner; a fresh read would have said Full |
| Pairing.DisplayName | src/components/EntryGate.tsx:62 | the partner name is the profile's name when it is non-empty, otherwise "Your Partner"; it is never empty |
| Pairing.EntersOnUpdate | src/components/EntryGate.tsx:40 | definition: the creator's handler goes on only for a row with a partner that is active |
| Pairing.JoinEnabled | src/components/EntryGate.tsx:304 | definition: the Join button is enabled when the code's UTF-16 `length` is six |
| Pairing.OtherParty | src/components/EntryGate.tsx:55 | the chosen party is the creator or the partner; for the partner it is the creator; for the creator of a consistent room it is the partner |
| Pairing.SixSpacesPassTheButtonOnly | src/components/EntryGate.tsx:304 | six spaces enable the Join button, yet the input is blank, so the handler returns without a lookup |
| Pairing.EntryGate.constructor | src/components/EntryGate.tsx:16-20 | the gate starts in Choose with an empty code, no created room, not waiting |
| Pairing.EntryGate.CreateRoom | src/components/EntryGate.tsx:73-112 | with no user nothing happens; an accepted insert adds the pending row and sets createdRoom, roomCode to its code, waiting and mode Create; a failure reports an error and changes nothing; the invariants are kept |
| Pairing.EntryGate.JoinRoom | src/components/EntryGate.tsx:114-166 | with no user or a blank code nothing is looked up or written; otherwise the outcome and the new table are JoinStep's on the trimmed, upper-cased code and the two store faults; success enters with the room id and the creator's name; every failure shows its message as a toast; the gate's own fields never change |
| Pairing.EntryGate.OnRoomUpdate | src/components/EntryGate.tsx:25-43 | an update starts a profile fetch exactly when the gate is waiting with a created room, the event is for that room's id, and the row has a partner and is active; the fetch is recorded as in flight with the other party's id, chosen before the await as at line 55, and nothing else changes |
| Pairing.EntryGate.PartnerProfileArrives | src/components/EntryGate.tsx:53-62 | a fetch in flight returns and the gate enters that room, named after the party chosen when the update arrived; it does not re-check waitingForPartner, and the gate's other fields stay |
| Pairing.EntryGate.ChooseJoin | src/components/EntryGate.tsx:200 | "Join Existing Room" switches to Join and keeps everything else |
| Pairing.EntryGate.BackToChoose | src/components/EntryGate.tsx:274 | Back in the join form returns to Choose and keeps everything else |
| Pairing.EntryGate.TypeCode | src/components/EntryGate.tsx:293-298 | the field holds what `maxLength` keeps of the value, at most six UTF-16 units, upper-cased |
| Pairing.EntryGate.Cancel | src/components/EntryGate.tsx:255-259 | Cancel sets Choose, stops waiting and drops the created room (closing the subscription); the code stays and no row is deleted (the store is not in its frame) |
| Pairing.DoubleConsent | src/components/EntryGate.tsx:82-145 | after A creates and B joins by the code, the join succeeds on A's pending row, the row becomes (id, code, A, B, active), it passes the creator's update check, and from A's side the other party is B |
| Pairing.Handshake | src/components/EntryGate.tsx:73-166 | with two gates on one store, the creator is let in to room id with B's name and the joiner to the same room with A's name |
| Pairing.CancelLeavesPendingRoom | src/components/EntryGate.tsx:255-259 | after create then Cancel the pending row is still in the store, and a later update for it starts no fetch |
| Pairing.CancelDoesNotStopPendingEntry | src/components/EntryGate.tsx:36-62 | an update that arrives before Cancel still enters the room, with the partner's name, once its profile fetch returns, although the gate is back at Choose |
| Plant.StageOf | src/components/SharedPlant.tsx:59-65 | definition: the thresholds 80, 60, 40 and 20; its properties are StageIsHealthBand and StageMonotone |
| Plant.Emoji | src/components/SharedPlant.tsx:67-77 | definition: one emoji per stage; EmojiTellsStage shows they are distinct |
| Plant.Message | src/components/SharedPlant.tsx:79-89 | definition: one message per stage; MessageTellsStage shows they are distinct |
| Plant.Tick | src/components/SharedPlant.tsx:24-29 | definition: the tick, judging health by the water from before it; its properties are StepKeepsRange, TicksDrain and DryPlantNeverRecovers |
| Plant.Water | src/components/SharedPlant.tsx:36-46 | definition: nothing once watered, otherwise 25 more water, capped, and the flag set; its properties are WateringOncePerDay and WateringOnlyAddsWater |
| Plant.Reset | src/components/SharedPlant.tsx:55 | definition: the delayed reset clears the watered flag only |
| Plant.StageIsHealthBand | src/components/SharedPlant.tsx:59-65 | the stage's rank is the health's 20-point band, capped at blooming |
| Plant.StageMonotone | src/components/SharedPlant.tsx:59-65 | more health never gives a worse stage |
| Plant.EmojiTellsStage | src/components/SharedPlant.tsx:67-77 | each stage has its own emoji, from which the stage can be read back; the default branch is unreachable |
| Plant.MessageTellsStage | src/components/SharedPlant.tsx:79-89 | each stage has its own message, from which the stage can be read back; the default branch is unreachable |
| Plant.StepKeepsRange | src/components/SharedPlant.tsx:24-56 | a tick, a watering or a reset keeps water and health within 0..100 |
| Plant.RunKeepsRange | src/components/SharedPlant.tsx:22-57 | any sequence of ticks, waterings and resets from a state in range stays in range |
| Plant.ReachableStatesInRange | src/components/SharedPlant.tsx:14-15 | from the initial health 75 and water 60, every run stays within 0..100 |
| Plant.WateringOncePerDay | src/components/SharedPlant.tsx:35-46 | after watering the plant counts as watered, and a second watering before the reset changes nothing |
| Plant.WateringOnlyAddsWater | src/components/SharedPlant.tsx:44 | watering never lowers the water and never changes the health |
| Plant.TicksDrain | src/components/SharedPlant.tsx:24 | n ticks lower the water by 0.5 each, stopping at 0, and leave the watered flag alone |
| Plant.DryPlantNeverRecovers | src/components/SharedPlant.tsx:25-29 | with water at 80 or below and no watering, ticks never raise the health |
| Plant.SharedPlant.constructor | src/components/SharedPlant.tsx:14-17 | the plant starts at health 75 and water 60, not watered, last watered twelve hours earlier |
| Plant.SharedPlant.TickInterval | src/components/SharedPlant.tsx:23-30 | a tick takes the state to Tick of the old state, judging health by the water from before the tick, and keeps the range |
| Plant.SharedPlant.WaterPlant | src/components/SharedPlant.tsx:35-57 | when already watered nothing changes; otherwise the water rises by 25 (capped), the flag is set, the time is recorded and one reset is scheduled; health never changes |
| Plant.SharedPlant.ResetFires | src/components/SharedPlant.tsx:54-56 | a reset clears only the watered flag |
| Plant.SharedPlant.Appearance | src/components/SharedPlant.tsx:67-89 | the emoji and message shown both read back as the stage of the current health |
| Thoughts.WithRevealed | src/components/ThoughtExchange.tsx:84 | the rewrite sets revealed on every thought and keeps the length, order, ids, texts and partner flags |
| Thoughts.Label | src/components/ThoughtExchange.tsx:189-193 | a label appears only on revealed thoughts: "from" plus the partner's name on the partner's, "from You" otherwise |
| Thoughts.LaterFlagWins | src/components/ThoughtExchange.tsx:83-95 | two rewrites in a row equal the later one, so reveal and hide are each idempotent |
| Thoughts.LabelsFollowTheSwitch | src/components/ThoughtExchange.tsx:189-193 | after a reveal every thought shows its label; after a hide none does |
| Thoughts.ThoughtExchange.constructor | src/components/ThoughtExchange.tsx:22-36 | the exchange starts with the two seeded thoughts (the second the partner's), an empty input and sources hidden |
| Thoughts.ThoughtExchange.TypeThought | src/components/ThoughtExchange.tsx:122-126 | the input is what `maxLength` keeps: the longest prefix of whole characters within 500 UTF-16 units |
| Thoughts.ThoughtLimitCountsUnits | src/components/ThoughtExchange.tsx:126 | an all-emoji thought keeps at most 250 emoji; text in the Basic Multilingual Plane keeps its first 500 characters |
| Thoughts.ThoughtExchange.Submit | src/components/ThoughtExchange.tsx:39-62 | a blank input is refused and nothing changes; otherwise the untrimmed text is appended as one's own unrevealed thought, earlier thoughts stay, the input is cleared and one reply is scheduled |
| Thoughts.ThoughtExchange.PartnerReplies | src/components/ThoughtExchange.tsx:63-80 | a scheduled reply appends one of the four canned texts at the end as the partner's thought |
| Thoughts.ThoughtExchange.RevealSources | src/components/ThoughtExchange.tsx:83-90 | all thoughts are revealed and showRevealed is set |
| Thoughts.ThoughtExchange.HideRevealed | src/components/ThoughtExchange.tsx:92-95 | all thoughts are hidden and showRevealed is cleared |
| Thoughts.ThoughtExchange.ToggleSources | src/components/ThoughtExchange.tsx:151 | the button hides when revealed and reveals otherwise |
| Chat.WithReaction | src/components/ChatInterface.tsx:95-97 | the reaction is set on exactly the messages with that id; every other message, the length and the order stay |
| Chat.ReactionOnUnknownIdChangesNothing | src/components/ChatInterface.tsx:95-97 | a reaction on an id no message has leaves the list unchanged |
| Chat.LaterReactionWins | src/components/ChatInterface.tsx:94-100 | a later reaction on the same id replaces the earlier one, and repeating a reaction is idempotent |
| Chat.IsMine | src/components/ChatInterface.tsx:113 | definition: a message is drawn as mine when the current id is set, non-empty, and equal to its user_id |
| Chat.EchoIsMineOnlyForItsSender | src/components/ChatInterface.tsx:113 | a message carrying a sender's non-empty id is drawn as "mine" exactly for that sender |
| Chat.ChatInterface.constructor | src/components/ChatInterface.tsx:22-24 | the chat starts with no messages, an empty input and no user |
| Chat.ChatInterface.UserLoaded | src/components/ChatInterface.tsx:27-29 | the current user id is the signed-in user's, or none |
| Chat.ChatInterface.Fetched | src/components/ChatInterface.tsx:33-44 | the initial fetch replaces the list only when the query succeeds |
| Chat.ChatInterface.Inserted | src/components/ChatInterface.tsx:50-60 | a feed insert appends the new message at the end and leaves the others alone |
| Chat.ChatInterface.TypeMessage | src/components/ChatInterface.tsx:158-161 | typing sets the input |
| Chat.ChatInterface.SubmitMessage | src/components/ChatInterface.tsx:69-70 | a blank input starts nothing; otherwise the text as it is now is recorded as a send in flight, with no guard against a second press; the input stays |
| Chat.ChatInterface.SendCompletes | src/components/ChatInterface.tsx:72-91 | a send in flight resumes: a row is sent exactly when a user is signed in, carrying the room, the user as user_id and sender, and the captured untrimmed text; the input is cleared only when the store reports no error, whatever was typed since; the list is untouched |
| Chat.SendAlone | src/components/ChatInterface.tsx:69-92 | with nothing in between, a row is sent exactly when the input is not blank and a user is signed in, and the input is cleared only when the store accepts it |
| Chat.TypingDuringSendIsLost | src/components/ChatInterface.tsx:81-90 | text typed while a send waits is cleared unsent when that send succeeds |
| Chat.DoubleSubmitSendsTwice | src/components/ChatInterface.tsx:69-86 | pressing send twice before the store answers sends the same text twice |
| Chat.ChatInterface.AddReaction | src/components/ChatInterface.tsx:94-100 | the local list becomes WithReaction of the old one, whatever the remote write does |
| Shell.Index.constructor | src/pages/Index.tsx:11-13 | the page starts on the landing view with empty partner and room id |
| Shell.Index.Render | src/pages/Index.tsx:31-39 | the room view renders the room with the stored id and partner, the entry view renders the gate, and the landing view renders the landing page |
| Shell.Index.EnterSoulRoom | src/pages/Index.tsx:17-23 | with no user the page redirects to sign-in and the view stays; with a user the view becomes entry |
| Shell.Index.SuccessfulEntry | src/pages/Index.tsx:25-29 | the given room id and partner name are stored and the view becomes room |
| Shell.Index.Leave | src/pages/Index.tsx:32 | leaving the room goes to landing and keeps room id and partner |
| Shell.Index.Back | src/pages/Index.tsx:36 | Back from the gate goes to landing and keeps room id and partner |
| Shell.BothReachTheRoom | src/pages/Index.tsx:17-36 | two signed-in people go from landing through the gate to the same room, each shown the other's name; leaving shows the landing page |

## Left out

- Backend calls (queries, the `generate_room_code` call, auth) are parameters or the `RoomStore` class. Code format and uniqueness are decided by the store. The model only states that the store refuses a taken code or id.
- Pairing.EntryGate.CreateRoom: the error text it reports is the store's own message. For a taken code or id the model uses a fixed unique-constraint text, `Rooms.UniqueViolation`, in place of the store's actual wording; for any other fault it passes on the fault's own text. If the code-generation call returns nothing, the model treats it like any other insert fault.
- Realtime transport (subscribe, `removeChannel`): the UPDATE and INSERT feeds are methods called when an event arrives. The creator's subscription is the predicate `Subscribed`.
- Two joiners racing at the same moment: joins are applied one at a time. The unconditional write is kept as written, and `StaleReadsLetTheLastWriterWin` shows what it permits.
- The `loading` flag: it only disables buttons while a request is in flight.
- Chat.ChatInterface.AddReaction: the reaction buttons are drawn only for a message that has no reaction yet (ChatInterface.tsx lines 132-143). That render guard is not modelled, so `AddReaction` accepts any id. `LaterReactionWins` therefore also covers a second reaction, which the page offers only before the list re-renders.
- Toasts, console logging, JSX and CSS are left out. So is `Date` formatting, including the `timestamp` fields of thoughts and messages.
- Timers and randomness: the interval, the reset timeout and the reply delay are methods called when they fire. The random canned-reply index is a parameter below four. When the interval restarts after a water change, only its timing changes, and timing is not modelled.
- Pairing.EntryGate.PartnerProfileArrives: the error path of the profile fetch (the "Failed to connect with partner" toast) is not modelled. A missing or empty profile name gives "Your Partner", as the code does. The same holds for the creator-profile fetch after a join.
- `partnerWateredToday` is left out: it is always true and is only displayed.
- Thought ids are clock readings held as integers. The `.toString()` form is not modelled. The optional flags `revealed` and `isPartner` are booleans, with "absent" treated as false, which is how the page reads them.
- Utf16.CutToUnits: keeps whole characters (code points). A browser may also refuse to split a grapheme made of several code points, such as an emoji with a modifier. That is not modelled.
- Pairing.EntryGate.TypeCode, Thoughts.ThoughtExchange.TypeThought: `value` is read as the text the edit would give with no limit, with the edit at the end of the field (typing or pasting at the end). A browser cuts an insertion in the middle of a full field at the cursor instead, which is not modelled. On a value already within the limit, which is what the change handler receives, the cut changes nothing.
- Handlers run as the steps the code awaits between: the creator's update handler (event, then profile fetch) and the chat send (press, then store answer) are split, so Cancel or typing can come in between. Other handlers (`createRoom`, `joinRoom`, reactions, the plant and thought timers) run as one step, and what could happen between their awaits is not modelled, except two joiners racing (`StaleReadsLetTheLastWriterWin`).
- Rooms.UserId: user ids are auth-issued UUIDs and never empty. The model does not exclude the empty string, so the source's truthiness tests on `partner_id` (EntryGate.tsx lines 40 and 134) are modelled as "present".
- Text.ToUpper: maps ASCII letters only. Unicode case mappings that change length or touch other letters are not modelled, because room codes are ASCII.
- Sign-out, `src/pages/Auth.tsx`, `src/components/SoulRoom.tsx` (tab layout) and `src/components/DigitalCandle.tsx` (random flicker) are not part of this model.
