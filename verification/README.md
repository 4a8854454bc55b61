# PingRoom chat UI core, modelled in Dafny

PingRoom is a small browser chat application. Under its markup sits a thin
layer of sequential logic, and that layer is what this project models and
proves properties about:

- **The chat page's session store** (`Session`). The state is the current
  room, the ordered room list, the user list and the messages of the room
  on screen. Its handlers are create, select, end and rename a room, and
  send, edit, delete and react to a message. It is a class with `seq`
  fields. Each handler is proved against list functions (`filter` / `map` /
  append) that carry their own lemmas.
- **The identity generators** (`Utils`).
  - Guest names have the form `Adjective+Noun#NNNN`, with a parser that
    reads them back.
  - Room codes are six characters over `A-Z0-9`, built by a loop.
- **The message composer** (`Composer`): the draft, the picked emotion and
  the emotion picker, with the trim guard on send.
- **The sign-in form** (`AuthForm`): the field-by-field validator, typing
  into a field, the mode toggle and the submit guard.
- **The mock authentication provider** (`AuthContext`): the user, the
  loading flag and the saved record that survives a reload.
- **The chatbot transcript** (`Chatbot`): an append-only list of lines, and
  how a reply is interpreted.
- **The views' access rules.**
  - `Sidebar`: the online count, the current-room lookup, when End Room is
    offered, the options menu and the footer name.
  - `MessageView`: Edit and Delete appear only on your own messages; it
    also covers reactions, the badge and the avatar.

Shared pieces live in their own modules:
- `Text`: JavaScript's whitespace class, `trim`, `toString`, `padStart` and
  upper-casing.
- `Lists`: `filter`, `map` and `find`.
- `Emotions`: the five emotion tags and their tables.
- `Wrappers`: the `Option` type.

Inputs from the outside world become parameters:
- the clock (`now`);
- each `Math.random()` draw, as an index with its range as a precondition;
- each `prompt()` answer (`None` when cancelled);
- the `fetch` outcome.

Where the code and the written design disagree, the model follows the code:
- **Room ids are not unique.** `handleCreateRoom` does not check a new code
  against existing rooms. `EndRoom` and `EditRoom` act on every room with
  the id.
- **The general room is not protected by the store.** `handleEndRoom`
  removes it if asked. It is protected only because the sidebar never
  offers End for it. `Sidebar.GeneralNeverEndable` and
  `Sidebar.SidebarState.ChooseEndRoom` prove this under the session
  invariant `Session.RoomsWellFormed`.
- **`handleSendMessage` itself does not test for empty content.** The
  composer does. `Session.ChatSession.SendFromComposer` proves that the
  two together never append a blank message.
- **Every sent message gets a freshly drawn guest name.** The sidebar draws
  its own guest name separately.

## Model

| member | source | states |
|---|---|---|
| Text.Trim | components/chat/ChatInput.tsx:26-27 | `trim` yields the infix starting after the leading whitespace, with only whitespace after it and no whitespace at either end; it is empty exactly when the text is all whitespace |
| Text.TrimIdempotent | components/chat/ChatInput.tsx:26-27 | trimming a trimmed text changes nothing |
| Text.DecimalString | app/page.tsx:129 | `toString()` of a natural number is a non-empty digit string without a leading zero (except "0") |
| Text.ParseDecimalString | lib/utils.ts:32 | reading the numeral back gives the number |
| Text.DecimalStringShort | lib/utils.ts:27-32 | the numeral has at most four digits exactly when the number is below 10000 |
| Text.PadStart | lib/utils.ts:32 | `padStart` leaves a long enough text alone, else puts fill characters in front up to the width |
| Text.ParseLeadingZeros | lib/utils.ts:32 | leading zeros keep a numeral's value |
| Text.Initial | components/chat/Message.tsx:59 | `charAt(0).toUpperCase()` is empty for an empty text, else one upper-cased character |
| Text.ToUpper | components/chat/Message.tsx:59 | ASCII lower-case letters move to upper case; every other character is unchanged |
| Lists.Filter | app/page.tsx:162 | `filter` keeps exactly the elements passing the test, never more than it was given |
| Lists.FilterAppend | app/page.tsx:162 | filtering a concatenation filters the parts in order |
| Lists.FilterKeepsAll | app/page.tsx:190 | when everything passes, `filter` returns the list unchanged |
| Lists.FilterIdempotent | app/page.tsx:190 | filtering twice is filtering once |
| Lists.FilterSubsequence | app/page.tsx:162 | `filter` keeps the survivors in their original order |
| Lists.FilterCounts | app/page.tsx:190 | `filter` keeps every copy of a passing value and no copy of a failing one |
| Lists.Map | app/page.tsx:171-173 | `map` keeps the length and applies the function at every position |
| Lists.Find | app/page.tsx:178 | `find` gives nothing exactly when no element passes, else the element at the first passing position |
| Lists.FindFirst | components/chat/ChatInput.tsx:60 | `find` returns the element at the first passing index |
| Emotions.Key | app/page.tsx:20 | each tag's key is a lower-case ASCII word of at least three letters |
| Emotions.ParseKey | components/chat/Message.tsx:111-114 | a key names a tag exactly when it is that tag's key |
| Emotions.AllEmotionsComplete | app/page.tsx:20 | every tag is listed once, and its key reads back as the same tag |
| Emotions.EmotionChoicesAreAllEmotions | components/chat/ChatInput.tsx:11-17 | the picker offers exactly happy, sad, angry, excited and neutral, in that order |
| Emotions.CaptionCapitalisesKey | components/chat/ChatInput.tsx:11-17 | each picker label is its key with the first letter upper-cased |
| Emotions.ChoiceLabel | components/chat/ChatInput.tsx:60 | the label lookup always finds an entry, and its label is the capitalised key |
| Emotions.EmotionIcon | components/chat/Message.tsx:21-27 | the `emotionIcons` table, one icon per tag; it tells tags apart (`BadgeTablesDistinguish`) |
| Emotions.EmotionColor | components/chat/Message.tsx:29-35 | the `emotionColors` table, one colour pair per tag; it tells tags apart (`BadgeTablesDistinguish`) |
| Emotions.BadgeTablesDistinguish | components/chat/Message.tsx:21-35 | the icon and colour tables cover all five tags and tell them apart |
| Utils.WordListsFacts | lib/utils.ts:25-26 | no word contains `#`; no two adjectives share their first two letters |
| Utils.Suffix | lib/utils.ts:27-32 | for 1..9999 the padded suffix is four digits, never `0000`, and reads back as the number |
| Utils.GuestName | lib/utils.ts:24-33 | the name is adjective + noun, then its only `#`, then four digits worth the draw plus one, in 1..9999 |
| Utils.ParseGuestName | lib/utils.ts:24-33 | a parsed name yields in-range adjective and noun indices |
| Utils.GuestNameRoundTrip | lib/utils.ts:24-33 | parsing a generated name gives back its draws |
| Utils.GuestNameInjective | lib/utils.ts:24-33 | two generated names are equal exactly when their draws are |
| Utils.RoomIdCharsLayout | lib/utils.ts:36 | the alphabet is the 26 letters and then the 10 digits |
| Utils.RoomIdFrom | lib/utils.ts:35-42 | one character per draw, each from the alphabet at the drawn index |
| Utils.GenerateRoomId | lib/utils.ts:35-42 | the loop builds the code of the six draws; it is six characters over `A-Z0-9` |
| Utils.RoomIdFromInjective | lib/utils.ts:38-40 | different draws give different codes |
| Utils.EveryRoomIdIsGenerated | lib/utils.ts:36-41 | every six-character code over the alphabet is produced by some draws |
| Session.SeedMessages | app/page.tsx:71-119 | four welcome messages stamped 60, 45, 30 and 15 seconds back, all online, none with an avatar |
| Session.IsOwn | app/page.tsx:227 | a message is the reader's own exactly when its sender id is `current-user`; no welcome message is (`SeedMessagesNotOwn`), every sent one is (`OutgoingMessage`) |
| Session.SeedMessagesNotOwn | app/page.tsx:73-117 | no welcome message counts as the reader's own |
| Session.OutgoingMessage | app/page.tsx:127-138 | a sent message is the reader's own, holds the given content and emotion, and has the clock's numeral as id and the clock as timestamp |
| Session.TemporaryRoom | app/page.tsx:144-150 | a new room is temporary, active, with one participant and named "Room " + its code |
| Session.RoomsWithout | app/page.tsx:162 | ending drops exactly the rooms with the id |
| Session.RoomsWithoutOrder | app/page.tsx:161-166 | the remaining rooms keep their order and multiplicity |
| Session.RoomsWithoutNoOp | app/page.tsx:161-166 | ending an absent id changes nothing; ending twice is ending once |
| Session.RenameRooms | app/page.tsx:171-173 | only the names of rooms with the id change; all other fields and rooms are kept |
| Session.RoomEditsKeepWellFormed | app/page.tsx:142-175 | ending, renaming to a non-empty name and adding a temporary room keep the room invariant |
| Session.MessagesWithout | app/page.tsx:190 | deleting drops exactly the messages with the id |
| Session.MessagesWithoutFacts | app/page.tsx:189-191 | the others keep their order and multiplicity; deleting an absent id, or deleting again, changes nothing |
| Session.EditContent | app/page.tsx:182-184 | only the content of messages with the id changes; id, sender, timestamp and emotion are kept |
| Session.SetEmotion | app/page.tsx:194-196 | only the emotion of messages with the id changes; id, sender, timestamp and content are kept |
| Session.MessageMapsKeepIds | app/page.tsx:177-197 | edits and reactions keep the id sequence; with an absent id they change nothing |
| Session.ReactOverwrites | app/page.tsx:193-197 | a second reaction replaces the first |
| Session.DeleteForgetsEdit | app/page.tsx:177-191 | deleting a message discards any earlier edit of it |
| Session.ChatSession.constructor | app/page.tsx:39-56 | the first render has general current and as the only room (of the general kind), the five sample users and no messages |
| Session.ChatSession.LoadInitialMessages | app/page.tsx:71-120 | the client effect installs the welcome messages and touches nothing else |
| Session.ChatSession.SendMessage | app/page.tsx:127-140 | exactly one own message is appended with no emptiness check; earlier messages and all else are unchanged |
| Session.ChatSession.SendFromComposer | app/page.tsx:238-241 | through the composer a blank draft appends nothing and leaves the composer as it was; otherwise one message holding the trimmed draft and the picked emotion is appended and the draft and selection are cleared, so no blank message is ever sent; rooms, users and the picker are kept |
| Session.ChatSession.CreateRoom | app/page.tsx:142-154 | the new temporary room goes after the existing ones, becomes current, and the message list empties; the code is not checked for collision |
| Session.ChatSession.SelectRoom | app/page.tsx:156-159 | the room becomes current without a membership test; nothing else changes |
| Session.ChatSession.EndRoom | app/page.tsx:161-166 | every room with the id goes; the view returns to general exactly when that room was current; messages are untouched |
| Session.ChatSession.EditRoom | app/page.tsx:168-175 | a non-empty answer renames the rooms with the id; an empty or cancelled prompt changes nothing |
| Session.ChatSession.EditMessage | app/page.tsx:177-187 | the content changes only when a message has the id and the answer is non-empty |
| Session.ChatSession.DeleteMessage | app/page.tsx:189-191 | exactly the messages with the id are removed |
| Session.ChatSession.ReactMessage | app/page.tsx:193-197 | messages with the id take the emotion, replacing any earlier one |
| Composer.SendEnabled | components/chat/ChatInput.tsx:136 | the send button is enabled exactly when the draft has a non-whitespace character and the input is not disabled |
| Composer.Submission | components/chat/ChatInput.tsx:26-27 | a blank draft sends nothing; otherwise the trimmed draft (non-empty, no whitespace at either end, the draft's own characters) goes out with the selected emotion |
| Composer.NextSelection | components/chat/ChatInput.tsx:42 | picking the selected emotion clears it; picking another selects that one |
| Composer.NextSelectionTwice | components/chat/ChatInput.tsx:41-44 | picking the same emotion twice restores the start exactly when nothing or that emotion was selected |
| Composer.EmotionBanner | components/chat/ChatInput.tsx:56-61 | the banner shows exactly while an emotion is selected, with its capitalised label |
| Composer.ChatInput.constructor | components/chat/ChatInput.tsx:20-22 | empty draft, nothing picked, picker closed |
| Composer.ChatInput.SetMessage | components/chat/ChatInput.tsx:109 | typing replaces the draft only |
| Composer.ChatInput.HandleSend | components/chat/ChatInput.tsx:25-32 | a blank draft changes nothing and sends nothing; otherwise the submission is sent and the draft and selection are cleared |
| Composer.ChatInput.HandleKeyPress | components/chat/ChatInput.tsx:34-39 | Enter without Shift sends; Shift+Enter and other keys do nothing |
| Composer.ChatInput.HandleEmotionSelect | components/chat/ChatInput.tsx:41-44 | the selection toggles as `NextSelection` says, and the picker closes |
| Composer.ChatInput.ToggleEmotions | components/chat/ChatInput.tsx:75 | the picker opens or closes |
| Composer.ChatInput.ClearEmotion | components/chat/ChatInput.tsx:63 | the banner's close button clears the selection |
| AuthContext.EmailPrefix | lib/auth-context.tsx:54 | `split('@')[0]` is the longest `@`-free prefix: it stops at the first `@`, or covers the whole address |
| AuthContext.EmailPrefixOfAddress | lib/auth-context.tsx:54 | the prefix of `local@domain` is `local` when `local` has no `@` |
| AuthContext.LoginUser | lib/auth-context.tsx:52-56 | the login account has id "1", the address, and the address's prefix as name |
| AuthContext.AuthSession.constructor | lib/auth-context.tsx:23-24 | the provider starts with no user and loading |
| AuthContext.AuthSession.IsAuthenticated | lib/auth-context.tsx:98 | authenticated exactly when a user is set |
| AuthContext.AuthSession.CheckAuth | lib/auth-context.tsx:28-40 | a saved user is restored, a missing or unreadable record is ignored, and loading ends |
| AuthContext.AuthSession.Login | lib/auth-context.tsx:45-66 | the user and the saved record become the login account, whatever the password; loading is off afterwards |
| AuthContext.AuthSession.Signup | lib/auth-context.tsx:68-89 | the user and the saved record become the given name and address under id "1"; loading is off afterwards |
| AuthContext.AuthSession.Logout | lib/auth-context.tsx:91-94 | no user and no saved record |
| AuthContext.ReloadAfterLogin | lib/auth-context.tsx:28-59 | after a login, a reloaded provider restores the same user and stops loading |
| AuthContext.ReloadAfterLogout | lib/auth-context.tsx:28-94 | after a logout, a reloaded provider stays signed out |
| AuthContext.ReloadWithMalformedRecord | lib/auth-context.tsx:29-39 | an unreadable record leaves the reloaded provider signed out and done loading |
| AuthForm.WithField | components/auth/AuthForm.tsx:30 | typing sets the one field and keeps the other three |
| AuthForm.MatchesEmailPattern | components/auth/AuthForm.tsx:42 | the unanchored `\S+@\S+\.\S+` test: a non-whitespace character, `@`, a non-empty non-whitespace run, `.`, a non-whitespace character, anywhere in the text; its partners are `AddressMatches`, `NoAtNoMatch` and `NoDotAfterAtNoMatch` |
| AuthForm.AddressMatches | components/auth/AuthForm.tsx:42 | every `local@domain.tld` with three non-empty, whitespace-free parts matches |
| AuthForm.NoAtNoMatch | components/auth/AuthForm.tsx:42 | a text without `@` never matches |
| AuthForm.NoDotAfterAtNoMatch | components/auth/AuthForm.tsx:42 | a text with no `.` after any of its `@` never matches |
| AuthForm.FieldError | components/auth/AuthForm.tsx:40-61 | one field's message: every message is non-empty; the email has none exactly when it is filled in and matches, the password none exactly when it has six characters, and name and confirmation none in login mode |
| AuthForm.FormErrors | components/auth/AuthForm.tsx:37-62 | email: "Email is required" when empty, "Please enter a valid email" when not matching. Password: "Password is required" when empty, "Password must be at least 6 characters" when shorter. Name and confirmation get errors only when signing up: "Name is required", "Please confirm your password", "Passwords do not match". At most one message per field |
| AuthForm.FormErrorsByField | components/auth/AuthForm.tsx:37-62 | a map holding exactly the per-field messages is the error map |
| AuthForm.FormValidIff | components/auth/AuthForm.tsx:64-65 | the form is valid exactly when the email matches, the password has six characters, and (signing up) name and matching confirmation are filled in |
| AuthForm.ShownError | components/auth/AuthForm.tsx:121-122 | a field shows its message exactly when it has a non-empty one |
| AuthForm.FormState.constructor | components/auth/AuthForm.tsx:18-26 | login mode, not loading, empty fields, no errors |
| AuthForm.FormState.HandleInputChange | components/auth/AuthForm.tsx:28-35 | only the typed field changes and only its message is blanked |
| AuthForm.FormState.ValidateForm | components/auth/AuthForm.tsx:37-66 | the stored errors are the error map, and the result says whether it is empty |
| AuthForm.FormState.HandleSubmit | components/auth/AuthForm.tsx:68-90 | an invalid form never reaches login or signup; a valid one signs in or signs up with the typed fields |
| AuthForm.FormState.ToggleMode | components/auth/AuthForm.tsx:92-96 | the mode flips, all four fields empty, the errors clear |
| Chatbot.Interpret | app/chatbot/page.tsx:17-36 | a throw, a non-OK status, an unparseable body or missing `choices` is a failure; a non-empty first content is the answer; anything else is no content |
| Chatbot.BotLine | app/chatbot/page.tsx:31-35 | the bot line is "Bot: " and then the answer, "No response from bot." or "Error - Could not get a response." |
| Chatbot.IsUserLine | app/chatbot/page.tsx:46 | the bubble side test `startsWith('You:')`; which lines pass it is `LinesLandOnTheirSide` |
| Chatbot.LinesLandOnTheirSide | app/chatbot/page.tsx:46 | user lines pass the `startsWith('You:')` test and bot lines never do |
| Chatbot.BotLinesTellRepliesApart | app/chatbot/page.tsx:31-35 | the failure and no-content lines differ, and answer lines differ exactly when the answers do |
| Chatbot.ChatbotPage.constructor | app/chatbot/page.tsx:8-9 | empty input and transcript |
| Chatbot.ChatbotPage.SetMessage | app/chatbot/page.tsx:59 | typing changes the input only |
| Chatbot.ChatbotPage.HandleSendMessage | app/chatbot/page.tsx:11-37 | a blank input changes nothing and sends nothing. Otherwise the untrimmed "You: " line and then the bot line are appended, the input clears, and the request is one user turn. The transcript only grows |
| Chatbot.ChatbotPage.HandleKeyPress | app/chatbot/page.tsx:60-64 | Enter, Shift or not, acts as a send: a blank input changes nothing, otherwise both lines are appended and the input clears; other keys do nothing |
| Sidebar.OnlineCount | components/chat/Sidebar.tsx:187 | the count of online users is at most the number of users |
| Sidebar.OnlineCountExtremes | components/chat/Sidebar.tsx:187 | the count is zero exactly when nobody is online, and full exactly when everybody is |
| Sidebar.OnlineCountAppend | components/chat/Sidebar.tsx:187 | the count of a joined list is the sum of the counts |
| Sidebar.SeedOnlineCount | app/page.tsx:50-56 | three of the five sample users are online |
| Sidebar.CurrentRoomData | components/chat/Sidebar.tsx:64 | the panel's room is missing exactly when no room has the current id, else a listed room with that id |
| Sidebar.OfferedOptions | components/chat/Sidebar.tsx:107-130 | Edit is offered exactly when a handler is given; End exactly when a handler is given and the room is temporary |
| Sidebar.GeneralNeverEndable | components/chat/Sidebar.tsx:119 | in a well-formed room list End is offered only for a six-character code, never for general |
| Sidebar.RoomRows | components/chat/Sidebar.tsx:155-179 | one row per room in order with its name and participants; highlighted exactly when current, TEMP badge exactly when temporary, the active icon exactly when the room is active |
| Sidebar.TempBadgeIffNotGeneral | components/chat/Sidebar.tsx:167 | in a well-formed list every row but general's carries the TEMP badge |
| Sidebar.FooterName | components/chat/Sidebar.tsx:224 | the footer shows the user's name, else the guest name, else "Guest", and is never empty |
| Sidebar.FooterInitial | components/chat/Sidebar.tsx:220 | the footer avatar letter is a single character |
| Sidebar.FooterInitialMatchesName | components/chat/Sidebar.tsx:220-224 | the avatar letter is the upper-cased first letter of the shown name ("G" for "Guest") |
| Sidebar.SidebarState.constructor | components/chat/Sidebar.tsx:56-58 | the user list open, no menu, no guest name yet |
| Sidebar.SidebarState.MountGuestName | components/chat/Sidebar.tsx:60-62 | the mount effect draws a guest name |
| Sidebar.SidebarState.ToggleUserList | components/chat/Sidebar.tsx:147 | the users button flips the list |
| Sidebar.SidebarState.ToggleRoomOptions | components/chat/Sidebar.tsx:99 | the menu closes when open for the current room, else opens for it |
| Sidebar.SidebarState.ChooseEditRoom | components/chat/Sidebar.tsx:109-112 | Edit renames the current room as the page handler does (current room, messages and users kept), then the menu closes |
| Sidebar.SidebarState.ChooseEndRoom | components/chat/Sidebar.tsx:119-124 | End, offered only for a temporary room, never ends general; that room leaves the list, the view returns to general, messages and users are kept, and the menu closes |
| Sidebar.SidebarState.ClickRoomRow | components/chat/Sidebar.tsx:158-160 | clicking a row makes its room current and highlights that row; rooms, messages and users are kept |
| MessageView.AvatarOf | components/chat/Message.tsx:56-60 | the picture when there is a non-empty avatar, else the upper-cased first letter |
| MessageView.BadgeOf | components/chat/Message.tsx:76-81 | the badge shows exactly when an emotion is set, with its name, icon and colours |
| MessageView.BadgeDeterminesEmotion | components/chat/Message.tsx:21-35 | equal badges mean equal emotions |
| MessageView.Reactions | components/chat/Message.tsx:111-120 | five reactions in table order, each passing the message id and its key |
| MessageView.ReactionsCoverAll | components/chat/Message.tsx:111-114 | every emotion has a reaction button |
| MessageView.Actions | components/chat/Message.tsx:89-121 | Edit and Delete appear exactly on own messages; every reaction always appears |
| MessageView.ActionsTargetMessage | components/chat/Message.tsx:93-114 | every button acts on its own message's id |
| MessageView.Render | components/chat/Message.tsx:37-121 | `isOwn` defaults to false; the status dot appears exactly when the sender has a status |
| MessageView.IsOwnDefaultsToFalse | components/chat/Message.tsx:43 | without `isOwn` there is no Edit and no Delete |
| MessageView.MessageList | app/page.tsx:223-231 | the page renders each message with `isOwn` from its sender id |
| MessageView.EditDeleteOnlyOnOwn | app/page.tsx:223-231 | on the page Edit and Delete appear exactly on messages sent from this browser |
| MessageView.WelcomeMessagesLocked | app/page.tsx:71-119 | none of the welcome messages offers Edit or Delete |

## Left out

- `app/api/groq/route.ts` is not part of this model. It is a network relay with fixed request fields and a catch-all error.
- `formatTime`, `formatDate` and `cn` in `lib/utils.ts`: locale formatting and class-name merging. The message time label is not modelled.
- Markup and DOM effects are not modelled:
  - scrolling to the newest message and the composer's textarea auto-resize;
  - the Loading screen before the client flag is set;
  - icons beyond the badge and reaction tables, and CSS classes;
  - the current-room panel's text, and the user-list rows (initial, crown, status class).
- Route guards, redirects, `router.push`, `onSuccess`, `useAuth`'s context lookup and its throw are left out. `ProtectedRoute`, `AuthRedirect` and the auth page are not part of this model.
- The auth form's `isLoading || authLoading` button state is not modelled. The Google and GitHub buttons only log, so they are left out too.
- Strings are sequences of Unicode code points, whereas JavaScript counts UTF-16 units. The password-length rule therefore differs for characters outside the Basic Multilingual Plane, and so does `charAt(0)` (Text.Initial, for the message avatar and the footer letter): for a name starting outside that plane the page shows one half of a surrogate pair, the model the whole character.
- Text.ToUpper: upper-cases ASCII letters only. `toUpperCase` also maps other scripts and can lengthen a string; both are left out.
- Session.SeedMessages: the source reads the clock once per welcome message; the model takes one instant for all four, so the 15-second spacing is exact.
- Session.ChatSession.SendMessage: the source reads the clock twice, once for the id and once for the timestamp. The model uses one instant for both.
- Emotions are a five-valued type. The source passes strings cast with `as any`, but every caller passes one of the five keys.
- AuthContext.AuthSession.Login: the model shows the state after the one-second simulated delay. The in-flight moment with `isLoading` true is not observable, and neither are the `setTimeout`, JSON encoding or `localStorage` calls.
- AuthContext.AuthSession.Signup: as for Login, only the settled state is modelled.
- AuthContext.AuthSession.CheckAuth: a saved text is either absent (or empty), a user record, or unparseable. Valid JSON that is not a user record is not modelled.
- Chatbot.ChatbotPage.HandleSendMessage: one send at a time. Overlapping sends, whose replies can interleave in the transcript, are not modelled.
- Chatbot.Interpret: a `content` that is not a string, and a `choices` value that is not a list, are not modelled.
- The `users` list of the page is never replaced after the first render, so it has no handlers.
