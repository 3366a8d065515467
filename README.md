# Rabisco client core in Dafny

Rabisco is a drawing-and-guessing party game played in the browser. One player draws a
secret word on a shared canvas, the others type guesses into the chat, and everyone can
buy sabotages with the coins they earn (invisible ink, an earthquake that shakes the
drawer's pen, a censorship bar, a mirrored canvas). This project models the logic of the
React client — not its rendering — and proves what that logic promises:

- **Guess matching and room codes** (`helpers.dfy`, module `Helpers`). A guess is
  normalized: lower case, accents stripped, everything outside `[a-z0-9\s]` dropped, then
  trimmed. The guess matches if it equals the target, if either contains the other, or if
  their Levenshtein similarity exceeds 0.7. The edit distance has a recursive reference
  definition, `EditDistance`. `LevenshteinDistance` fills the same two-dimensional matrix as
  the client, in nested loops, and is proved equal to that definition. A room code is six
  draws from a 32-character alphabet. The random draws are a parameter.
- **Drawing capture and visibility** (`canvas.dfy`, module `Canvas`). The class
  `CanvasState` holds the press-drag-release state machine (`isDrawing`, the draft points, tool,
  colour and width). Committing a draft builds the stroke that is sent. There are four
  sabotage predicates over the active effects. The invisible-ink filter hides a stroke for
  three seconds. The renderer turns a stroke into a path, rectangle or circle.
- **The game screen** (`game.dfy`, module `Game`). The class `GameView` holds the local
  stroke log, the chat log and the timer. It updates them on socket events and on the
  player's own actions, and appends every socket message it sends to an outbox. Pure parts:
  - the sabotage target rule;
  - the `m:ss` timer text;
  - the drawer flag passed to the canvas;
  - the word banner with its masked letter slots;
  - the round overlays;
  - the score board, sorted by score.
- **The session** (`app.dfy`, module `App`). The class `Session` holds the top-level view
  (loading, login, lobby menu, lobby) and the account, room and error state. It covers:
  - the ordered input validators for registration, login, creating, joining and starting a
    room;
  - the socket handlers;
  - the render dispatch, as `ScreenFor`.
- **The sabotage store** (`store.dfy`, module `SabotageStore`): the item table with its
  prices, which shop entries are disabled, and the inventory buttons.

Support modules:
- `wrappers.dfy` holds `Option` and `Result`.
- `jsstring.dfy` holds the JavaScript string primitives the client relies on:
  - the `\s` white-space set and `trim`;
  - `includes`;
  - ASCII `toUpperCase`;
  - UTF-16 length.
- `intents.dfy` lists the socket messages the client emits.

External effects become explicit data:
- A socket emit is appended to an `outbox` of `Intent`s.
- A Firebase request is appended to `calls`, and its completion is a separate method that
  receives the outcome (`FinishRegister`, `FinishLogin`, ...).
- `Math.random()` draws, `Date.now()` and the one-second clock tick are parameters.

Where the code and its design description differ, the model follows the code:
- `isCloseMatch` returns a boolean, not a three-way correct/near/wrong result.
- `isCloseMatch("", "")` is true.
- Mirroring depends on no effect target: every non-drawer viewer is mirrored while any
  mirror effect is active.
- There is no flood fill, no undo, no "fill" stroke type and no connection state machine
  in this code.
- An empty `strokes` array in a snapshot is truthy in JavaScript, so it replaces (clears)
  the local log.
- The registration username length check uses the untrimmed value, so a username of
  three spaces passes and an empty nickname is stored (`App.BlankUsernameAccepted`).

## Model

| member | source | states |
|---|---|---|
| JsString.Trim | src/utils/helpers.js:9 | the trimmed string is no longer than its input and has no white space at either end |
| JsString.TrimIsSlice | src/utils/helpers.js:9 | trim returns a contiguous slice of its input with only white space before and after it |
| JsString.TrimAllSpace | src/utils/helpers.js:9 | a string of white space alone trims to the empty string |
| JsString.TrimOfTrimmed | src/utils/helpers.js:9 | trim leaves a string without edge white space unchanged |
| JsString.SkipSpace | src/utils/helpers.js:9 | the scan from the left stops at the first non-space character, having passed only spaces |
| JsString.SkipSpaceBack | src/utils/helpers.js:9 | the scan from the right stops after the last non-space character, having passed only spaces |
| JsString.IncludesEmpty | src/utils/helpers.js:21 | every string includes the empty string |
| JsString.IncludesSelf | src/utils/helpers.js:21 | every string includes itself |
| JsString.ToUpper | src/App.js:72 | upper-casing keeps the length, leaves no letter `a`-`z`, turns each of them into its capital and keeps every other character |
| JsString.ToUpperIdempotent | src/App.js:72 | upper-casing twice gives the same as upper-casing once |
| JsString.Utf16Length | src/App.js:203 | the UTF-16 length lies between the code-point count and twice it, and equals the count when every character is in the Basic Multilingual Plane |
| Helpers.Clean | src/utils/helpers.js:5-8 | lower-casing, accent stripping and filtering never lengthen the string |
| Helpers.CleanKept | src/utils/helpers.js:5-8 | only characters of `[a-z0-9\s]` survive cleaning |
| Helpers.CleanAppend | src/utils/helpers.js:5-8 | cleaning works character by character: the cleaning of a concatenation is the concatenation of the cleanings |
| Helpers.CleanOne | src/utils/helpers.js:5-8 | a single character becomes its lower-case, unaccented form when that is in `[a-z0-9\s]`, and disappears otherwise |
| Helpers.AccentFolding | src/utils/helpers.js:5-7 | capitals fold to small letters, and each accented Latin-1 letter, in either case, folds to its base letter (`ã` and `Ã` to `a`, `ç` to `c`, `é` to `e`, ...) |
| Helpers.FoldIgnoresCase | src/utils/helpers.js:5-7 | a character and its ASCII capital fold to the same character |
| Helpers.CleanIgnoresCase | src/utils/helpers.js:5-8 | a string written in capitals cleans to the same result as written in small letters |
| Helpers.Normalize | src/utils/helpers.js:2-10 | the empty input gives ''; the output holds only `[a-z0-9\s]` and has no leading or trailing white space |
| Helpers.FoldKept | src/utils/helpers.js:5-8 | a character already in `[a-z0-9\s]` is left alone by lower-casing and accent stripping |
| Helpers.CleanOfKept | src/utils/helpers.js:5-8 | cleaning a string that is already clean returns it unchanged |
| Helpers.NormalizeIdempotent | src/utils/helpers.js:2-10 | normalizing twice gives the same as normalizing once |
| Helpers.NormalizeIgnoresCase | src/utils/helpers.js:2-10 | a string in capitals normalizes to the same as the string itself |
| Helpers.AccentedWordNormalizes | src/utils/helpers.js:2-10 | the accented word `Pão` normalizes to `pao` |
| Helpers.Min3 | src/utils/helpers.js:51-55 | the minimum is at most each argument and equal to one of them |
| Helpers.EditDistanceStep | src/utils/helpers.js:48-55 | the distance of two prefixes follows the matrix recurrence: diagonal on equal characters, otherwise one plus the least of diagonal, left and up |
| Helpers.LevenshteinDistance | src/utils/helpers.js:35-61 | the matrix fill returns exactly the edit distance of its two inputs |
| Helpers.FillRow | src/utils/helpers.js:47-57 | filling row i from a correct row i-1 makes row i the edit distances of the prefixes and changes no other row |
| Helpers.EditDistanceToEmpty | src/utils/helpers.js:38-44 | the distance to or from the empty string is the other string's length (row 0 is j, column 0 is i) |
| Helpers.EditDistanceSelf | src/utils/helpers.js:35-61 | a string is at distance 0 from itself |
| Helpers.EditDistanceZeroIff | src/utils/helpers.js:35-61 | the distance is 0 exactly when the strings are equal |
| Helpers.EditDistanceSymmetric | src/utils/helpers.js:35-61 | the distance does not depend on argument order |
| Helpers.EditDistanceAtMostMax | src/utils/helpers.js:35-61 | the distance never exceeds the longer length |
| Helpers.EditDistanceDisjoint | src/utils/helpers.js:35-61 | strings with no character in common are at distance equal to the longer length |
| Helpers.EditDistanceLastSubstitution | src/utils/helpers.js:48-55 | changing only the last character costs exactly one edit |
| Helpers.MatchNormalized | src/utils/helpers.js:17-31 | equal strings match; containment either way matches; otherwise both strings are non-empty and the result is true iff 10 times the distance is below 3 times the longer length |
| Helpers.IsCloseMatch | src/utils/helpers.js:13-32 | guesses that normalize to the same string as the target always match, including when both are empty |
| Helpers.EmptyGuessMatchesAll | src/utils/helpers.js:21-23 | a guess that normalizes to nothing matches every target |
| Helpers.MatchNormalizedSymmetric | src/utils/helpers.js:17-31 | the decision is symmetric in guess and target |
| Helpers.IsCloseMatchSymmetric | src/utils/helpers.js:13-32 | swapping guess and target never changes the verdict |
| Helpers.CaseInsensitiveMatch | src/utils/helpers.js:13-32 | typing the guess or the word in capitals never changes the verdict, and a word always matches itself in capitals |
| Helpers.DisjointNeverMatch | src/utils/helpers.js:21-31 | two non-empty normalized strings with no character in common never match |
| Helpers.NoCommonCharNotIncluded | src/utils/helpers.js:21 | a non-empty string sharing no character with another is not contained in it |
| Helpers.TypoAtEndAccepted | src/utils/helpers.js:26-31 | one wrong last letter in a word of four or more characters is still accepted |
| Helpers.PickIndex | src/utils/helpers.js:68 | `floor(r * 32)` for a draw in [0, 1) is a valid alphabet index |
| Helpers.GenerateRoomCode | src/utils/helpers.js:64-71 | the code has exactly six characters; character k is the alphabet letter chosen by draw k, so every character is in the alphabet |
| Helpers.RoomCodeAlphabet | src/utils/helpers.js:65 | the alphabet has 32 characters and lacks the look-alikes I, O, 0 and 1 |
| Helpers.RoomCodeAlphabetDistinct | src/utils/helpers.js:65 | no letter appears twice in the alphabet: distinct indices give distinct characters |
| Canvas.ToolName | src/components/game/Canvas.js:17 | every tool has a non-empty type name, so a committed stroke never falls back to the default type |
| Canvas.AnyEffect | src/components/game/Canvas.js:20-24 | the fold over the active effects is true iff some effect satisfies the test |
| Canvas.AnyEffectAppend | src/components/game/Canvas.js:20-24 | a predicate over two groups of effects is the disjunction of the predicate over each |
| Canvas.AnyEffectOrderFree | src/components/game/Canvas.js:20-24 | the order in which effects are listed does not change any predicate |
| Canvas.MirrorScope | src/components/game/Canvas.js:21-22 | the drawer is never mirrored; any other viewer is mirrored iff some mirror effect is active, whatever its target; the target-scoped mirror flag implies the effective one |
| Canvas.CensorshipIffAny | src/components/game/Canvas.js:23 | censorship applies iff some censorship effect is active, for every viewer |
| Canvas.Jitter | src/components/game/Canvas.js:44-47 | without the earthquake the point is unchanged; with it each coordinate moves by less than 10 |
| Canvas.JitterOnlyForTargetedDrawer | src/components/game/Canvas.js:44-47 | jitter applies iff the viewer is drawing and an earthquake targets them |
| Canvas.CommitPoints | src/components/game/Canvas.js:75-82 | a committed stroke keeps the draft's first and last point; rectangles and circles keep exactly two points; pens and erasers keep the whole draft in order |
| Canvas.ShapeKeepsEnds | src/components/game/Canvas.js:79-82 | a rectangle or circle committed after any number of moves is `[anchor, last move]` |
| Canvas.StrokeStyle | src/components/game/Canvas.js:84-91 | an eraser stroke is white at twice the width; other tools keep the chosen colour and width; the ink flag and timestamp are stored; the type is the tool |
| Canvas.RenderShape | src/components/game/Canvas.js:113-135 | a shape is drawn iff there are points and the type is known; pens and erasers draw a path; a rectangle has non-negative width and height, spans the first and last point and keeps the colour and width; a circle is centred on the first point |
| Canvas.RenderStroke | src/components/game/Canvas.js:110-136 | a stroke renders nothing iff it has no points or an unknown type; an untyped stroke with points renders as a path |
| Canvas.CommitKeepsPicture | src/components/game/Canvas.js:138-162 | the committed stroke renders with the same geometry, colour and width as the draft's preview, although the commit dropped points |
| Canvas.VisibleStrokes | src/components/game/Canvas.js:103-108 | the filter keeps exactly the strokes that are not invisible or are past `createdAt + 3000`, and never adds any |
| Canvas.VisibleStrokesAppend | src/components/game/Canvas.js:103-108 | the filter works stroke by stroke, so it preserves order |
| Canvas.VisibleStrokesAllRevealed | src/components/game/Canvas.js:103-108 | when every stroke is revealed the log is shown unchanged |
| Canvas.VisibleStrokesGrow | src/components/game/Canvas.js:97-108 | as time passes strokes appear and none disappear |
| Canvas.ConcealmentWindow | src/components/game/Canvas.js:104-105 | an ink stroke is hidden 1000 ms and exactly 3000 ms after it was drawn, and shown from 3001 ms |
| Canvas.Shapes | src/components/game/Canvas.js:190 | at most one shape per stroke, and every stroke that renders contributes its shape |
| Canvas.ShapesAppend | src/components/game/Canvas.js:190 | the shapes of a concatenated log are the shapes of its parts in order, so log order is drawing order |
| Canvas.ShapesOne | src/components/game/Canvas.js:190 | one stroke gives exactly its shape, or nothing when it does not render |
| Canvas.ShapesAllRender | src/components/game/Canvas.js:190 | when every stroke renders, the shapes correspond one to one and in order to the strokes |
| Canvas.SceneViewerScope | src/components/game/Canvas.js:186-195 | every viewer sees the same strokes and the same censorship; the drawer is never mirrored |
| Canvas.CanvasState.constructor | src/components/game/Canvas.js:13-17 | the canvas starts idle with no draft, black, width 3, pen |
| Canvas.CanvasState.SelectTool | src/components/game/Canvas.js:216-227 | a tool button changes the tool only |
| Canvas.CanvasState.SelectColor | src/components/game/Canvas.js:255 | a palette colour sets the colour and switches back to the pen |
| Canvas.CanvasState.SetWidth | src/components/game/Canvas.js:242 | the slider sets the width only |
| Canvas.CanvasState.StartDrawing | src/components/game/Canvas.js:52-58 | only the drawer starts a drag, whose draft is exactly the single pressed point; for anyone else nothing changes |
| Canvas.CanvasState.Draw | src/components/game/Canvas.js:60-65 | during the drawer's drag exactly one point is appended at the end; otherwise nothing changes |
| Canvas.CanvasState.StopDrawing | src/components/game/Canvas.js:67-95 | outside the drawer's drag nothing changes and nothing is sent; otherwise the drag ends with an empty draft and at most one stroke is emitted, none for an empty draft, built from the draft with the ink flag of an invisible-ink effect on `myId` |
| Game.FindPlayer | src/components/game/Game.js:13 | the lookup returns the first player with that id, and nothing iff no player has it |
| Game.DrawerFlagExclusive | src/components/game/Game.js:276 | at most one viewer at a time has a canvas that accepts drawing |
| Game.Gesture | src/components/game/Game.js:275-282 | a press, drag and release on the mounted canvas changes nothing and sends nothing unless the viewer is the current drawer and the status is DRAWING; then it sends the stroke through the two points with the canvas's tool, colour and width, ink set by the viewer's invisible-ink effect |
| Game.SabotageTarget | src/components/game/Game.js:114-118 | the drawer targets all guessers; anyone else targets the drawer, and so never themself |
| Game.DigitChar | src/components/game/Game.js:126 | a digit value below 10 becomes a digit character |
| Game.DigitValue | src/components/game/Game.js:126 | a digit character has a value below 10 |
| Game.Decimal | src/components/game/Game.js:126 | decimal text is all digits, one digit exactly below 10, two for 10 to 99, and has no leading zero |
| Game.DecimalRoundTrip | src/components/game/Game.js:126 | reading the decimal text back gives the number |
| Game.PadStart2 | src/components/game/Game.js:126 | `padStart(2, '0')` gives at least two characters: the input at the end, preceded only by zeros |
| Game.PaddedSeconds | src/components/game/Game.js:126 | the padded seconds below 60 are exactly two digits with the same value |
| Game.FormatTime | src/components/game/Game.js:123-127 | the text is minutes in decimal, a colon, then exactly two digits |
| Game.FormatTimeRoundTrip | src/components/game/Game.js:123-127 | the text reads back as `mins * 60 + secs` equal to the seconds, with the two-digit part equal to `seconds % 60` (below 60) |
| Game.ClockSeconds | src/components/game/Game.js:123-127 | the last two characters of the timer text read back as the seconds modulo 60 |
| Game.FormatTimeInjective | src/components/game/Game.js:123-127 | different times never show the same text |
| Game.MaskedSlots | src/components/game/Game.js:163-168 | there are exactly `wordLength` slots; slot i shows `maskedWord[i]` if present, else nothing |
| Game.MaskedSlotsSpell | src/components/game/Game.js:163-168 | read left to right the slots spell `maskedWord` cut at `wordLength` |
| Game.ConcatSnoc | src/components/game/Game.js:163-168 | joining slots with one more at the end appends that slot's text |
| Game.GuesserBannerHidesWord | src/components/game/Game.js:150-180 | a guesser's banner depends on neither the drawer's private word nor `currentWord`, and never shows the private word |
| Game.Overlays | src/components/game/Game.js:232-273 | at most one overlay, present only while choosing a word or at round end; only the drawer gets the word options, others see that the drawer is choosing; round end shows the word |
| Game.Insert | src/components/game/Game.js:197 | inserting a player adds exactly that player to the list |
| Game.InsertKeepsOrder | src/components/game/Game.js:197 | inserting into a list sorted by non-increasing score keeps it sorted |
| Game.SortByScore | src/components/game/Game.js:197 | the sorted list is a permutation of the players, by non-increasing score |
| Game.WithScoreAppend | src/components/game/Game.js:197 | the players with a given score, taken from two lists in turn, are those of each list in turn |
| Game.WithScoreOne | src/components/game/Game.js:197 | a single player is kept iff it has the score |
| Game.InsertWithScore | src/components/game/Game.js:197 | insertion puts the new player before every other player of the same score |
| Game.SwapEmpty | src/components/game/Game.js:197 | an empty block may swap places with its neighbour |
| Game.SortByScoreStable | src/components/game/Game.js:197 | players with equal scores keep their snapshot order (a stable sort) |
| Game.ScoreBoard | src/components/game/Game.js:197-218 | one row per player, by non-increasing score, ranked from 1, with the drawer, guessed and host marks each set iff they apply |
| Game.ScoreBoardListsEveryone | src/components/game/Game.js:197 | a player is on the board iff the snapshot lists them |
| Game.GameView.constructor | src/components/game/Game.js:9-11 | the screen starts with empty logs, nothing sent and the snapshot's timer |
| Game.GameView.SyncStrokes | src/components/game/Game.js:25-29 | a snapshot carrying strokes replaces the log wholesale; without strokes the log is untouched |
| Game.GameView.SyncTime | src/components/game/Game.js:20-22 | a snapshot's timer replaces the shown time only when it differs from the timer of the snapshot the effect last ran for; a repeated value keeps a time set by a pulse |
| Game.GameView.OnNewStroke | src/components/game/Game.js:33-35 | a remote stroke is appended at the end, earlier strokes unchanged |
| Game.GameView.OnChatMessage | src/components/game/Game.js:37-39 | a chat message is appended at the end of the chat log |
| Game.GameView.OnCanvasCleared | src/components/game/Game.js:41-43 | a remote clear empties the log |
| Game.GameView.OnSabotageTriggered | src/components/game/Game.js:46-53 | a sabotage adds one system notice naming the user and the upper-cased sabotage |
| Game.GameView.OnTimerPulse | src/components/game/Game.js:55-57 | a timer pulse sets the shown time |
| Game.GameView.DrawStroke | src/components/game/Game.js:74-77 | a local stroke is appended to the log and the same stroke is sent, with no deduplication |
| Game.GameView.ClearCanvas | src/components/game/Game.js:79-82 | a local clear empties the log and tells the server |
| Game.GameView.SendMessage | src/components/game/Game.js:84-86 | a chat text is sent for the room and nothing local changes |
| Game.GameView.ChooseWord | src/components/game/Game.js:88-90 | the chosen word option is sent for the room |
| Game.GameView.GiveHint | src/components/game/Game.js:92-94 | a hint request is sent for the room |
| Game.GameView.BuySabotage | src/components/game/Game.js:96-98 | a purchase is sent with the item's id |
| Game.GameView.UseSabotage | src/components/game/Game.js:100-121 | using an item sends it with the target chosen by the drawer/guesser rule |
| SabotageStore.FindIn | src/components/game/SabotageStore.js:27 | lookup returns the first item with the id, and nothing iff none has it |
| SabotageStore.ItemIdsUnique | src/components/game/SabotageStore.js:4-9 | the four item ids are distinct |
| SabotageStore.PriceTable | src/components/game/SabotageStore.js:4-9 | invisible ink costs 15, earthquake 10, censorship 12, mirror 8 |
| SabotageStore.UnknownIds | src/components/game/SabotageStore.js:27-28 | no other id names an item |
| SabotageStore.ItemIdsAreEffectKinds | src/components/game/SabotageStore.js:4-9 | each item id is the effect type the canvas reacts to |
| SabotageStore.AffordabilityMonotone | src/components/game/SabotageStore.js:50 | more coins never disable an entry that fewer coins enabled |
| SabotageStore.ShopEntries | src/components/game/SabotageStore.js:47-53 | the shop lists every item in table order, each disabled iff the coins are below its price |
| SabotageStore.ShopThresholds | src/components/game/SabotageStore.js:47-53 | with 7 coins nothing is on sale, with 8 only the mirror, with 15 everything |
| SabotageStore.ButtonAt | src/components/game/SabotageStore.js:26-38 | an inventory slot yields a button iff its id names an item, and the button carries that item and slot |
| SabotageStore.InventoryButtons | src/components/game/SabotageStore.js:26-40 | no more buttons than slots, each for a slot whose id names its item, in inventory order |
| SabotageStore.InventoryButtonsCoverKnown | src/components/game/SabotageStore.js:26-40 | every slot with a known id gets its own button, so duplicates show separately |
| SabotageStore.LastSlotButton | src/components/game/SabotageStore.js:26-40 | a known id in the last slot gives the last button |
| SabotageStore.FrontButton | src/components/game/SabotageStore.js:26-40 | the buttons of all slots but the last come first, unchanged |
| SabotageStore.UseButtonUsesItsItem | src/components/game/SabotageStore.js:32 | a button uses the id stored in its slot, which is the id of the item it shows, an item of the table |
| SabotageStore.Store | src/components/game/SabotageStore.js:18-70 | the store shows the coins, the inventory section iff the inventory is not empty, and the shop |
| SabotageStore.UnknownOnlyInventory | src/components/game/SabotageStore.js:24-28 | an inventory of unknown ids opens an empty section |
| App.RegisterCheck | src/App.js:191-206 | the registration errors in order: an empty field; then differing passwords; then a password under 6 characters; then a username under 3 characters; the form passes iff none applies |
| App.BlankUsernameAccepted | src/App.js:203-216 | a username of three spaces passes the untrimmed length check although it trims to '' |
| App.LoginCheck | src/App.js:234-237 | login is refused, with one message, iff the email or the password is empty |
| App.SignedInUid | src/App.js:305 | there is a uid iff a user is signed in with a non-empty uid |
| App.CreateRoomRequest | src/App.js:303-313 | nickname check first, then the user; on success the request carries the uid and the trimmed nickname |
| App.JoinRoomRequest | src/App.js:315-327 | nickname, then room code, then user, in that order; on success the request carries the upper-cased code and the trimmed nickname |
| App.StartGameRequest | src/App.js:356-359 | a game starts iff there are at least 2 players, otherwise the minimum-players error |
| App.RegisterFailureMessage | src/App.js:223-227 | a taken email gets its own message, any other failure is reported with its text |
| App.LoginFailureMessage | src/App.js:251-257 | unknown email and wrong password get their own messages, any other failure is reported with its text |
| App.GoogleFailureMessage | src/App.js:277-279 | a closed popup shows no error, any other failure is reported |
| App.ScreenFor | src/App.js:364-449 | the render dispatch: loading first, then login, then lobby menu, then connecting without a snapshot, then lobby or game by the snapshot's status; each screen is shown iff its case applies |
| App.GameScreenNeedsSnapshot | src/App.js:364-449 | the game screen is only shown in the lobby view with a snapshot |
| App.RejoinWaitsForSnapshot | src/App.js:364-449 | without a snapshot the lobby view shows the connecting screen |
| App.Session.constructor | src/App.js:32-57 | the session starts loading, signed out, with empty fields and the random avatar seed |
| App.Session.OnUrlRoomCode | src/App.js:68-74 | a non-empty URL room code is stored upper-cased; otherwise nothing changes |
| App.Session.OnAuthChanged | src/App.js:77-86 | a signed-in user is stored, the profile is requested and the lobby menu opens; sign-out opens the login view; loading ends either way |
| App.Session.OnAuthError | src/App.js:87-92 | an auth set-up failure shows the configuration error and the login view |
| App.Session.OnProfileLoaded | src/App.js:146-160 | a stored profile sets the nickname, and the avatar seed when one is stored; a missing profile changes nothing |
| App.Session.OnRoomCreated | src/App.js:100-105 | the room code is stored, the lobby opens and the error clears |
| App.Session.OnJoinedRoom | src/App.js:107-110 | the lobby opens and the error clears; the code sent by the server is not stored |
| App.Session.OnGameState | src/App.js:112-115 | the snapshot is stored, and its players when it carries them |
| App.Session.OnDrawerData | src/App.js:117-120 | the private drawer data is attached to the user, and nothing else changes |
| App.Session.OnServerError | src/App.js:122-124 | a server error replaces the shown error |
| App.Session.HandleRegister | src/App.js:190-208 | a failed check only shows its error; a passing form starts the account request |
| App.Session.FinishRegister | src/App.js:209-230 | success saves the profile with the trimmed name, stores user and nickname and opens the lobby menu; failure shows the mapped error; loading ends either way |
| App.Session.HandleLogin | src/App.js:233-239 | a failed check only shows its error; otherwise the sign-in request starts |
| App.Session.FinishLogin | src/App.js:240-260 | success stores the user, loads the profile and opens the lobby menu; failure shows the mapped error |
| App.Session.HandleGoogleLogin | src/App.js:263-267 | the popup request starts |
| App.Session.FinishGoogleLogin | src/App.js:268-282 | success stores the user, loads the profile and opens the lobby menu; a closed popup changes nothing else; other failures show the error |
| App.Session.HandleLogout | src/App.js:285-287 | sign-out is requested |
| App.Session.FinishLogout | src/App.js:288-300 | success forgets user, nickname, room, snapshot, players and error and shows the login screen; failure only shows the error |
| App.Session.CreateRoom | src/App.js:303-313 | a failed check shows its error; otherwise exactly one create request is sent |
| App.Session.JoinRoom | src/App.js:315-327 | a failed check shows its error; otherwise exactly one join request is sent |
| App.Session.StartGame | src/App.js:356-359 | fewer than 2 players shows the error; otherwise the start request is sent |
| App.Session.LeaveGame | src/App.js:329-341 | without a uid or a room nothing happens; otherwise the leave message is sent, the room, snapshot, players and error are reset and the lobby menu shows |

## Left out

- Unicode NFD decomposition is modelled for the ASCII and Latin-1 letters (and the Kelvin
  and Angstrom signs and U+0130). Other accented letters are treated as having no
  decomposition, so they are dropped instead of folded to their base letter.
- Full Unicode `toLowerCase`/`toUpperCase` is modelled only for those ranges. Upper-casing
  is ASCII only.
- Helpers.IsCloseMatch: the floating-point test `1 - d / max > 0.7` is stated as the exact
  rational inequality `10 * d < 3 * max`. Rounding of the double division is not modelled.
- `getCoords` scaling from screen to canvas coordinates is DOM geometry. Points arrive
  already scaled.
- Canvas.Jitter: the `Math.random()` draws are parameters, and only the bound on the
  offset is stated.
- The circle radius (`Math.sqrt`/`Math.pow`) is floating point. A circle is kept as its
  centre and edge point.
- SVG path text, CSS classes, animations and the tool-bar markup are not modelled.
- `Math.random()` for the room code and the initial avatar seed is a parameter. So is
  `Date.now()`, for stroke timestamps and chat ids.
- The one-second `setInterval` clock is the `now` parameter of the visibility filter.
- Firebase calls are recorded in `calls`, and each completion is a method that receives
  the outcome: account creation, sign-in, the Google popup, sign-out, profile load and
  save.
- App.Session.FinishRegister takes one outcome for the two awaited calls. A failure of
  either (account creation or profile save) gives the same error path.
- Saving the e-mail to localStorage, reading it back at start-up, and clearing it are
  storage I/O.
- `saveAvatarSeed` and the avatar selector and tutorial flags are presentational state.
- URL `pushState` on room creation and leave, the copy-link clipboard call and its
  success flag are browser APIs.
- `hasAutoJoinedRef` is not modelled.
- Socket `connect`, `disconnect` and listener removal are not modelled. So is the socket
  client itself, in `src/socket.js`.
- The login/register mode toggle and the form fields are not modelled. The validators
  take the field values as arguments.
- Chat.js, the lobby, the lobby menu, the auth screen and the other presentational
  components are not part of this model.
- Server behaviour (scoring, coin deduction, word masking, effect expiry) is not part of
  this model.
- JavaScript `null`/`undefined` inputs are modelled as `""` (a missing word or id),
  `None` (a missing snapshot field, user or profile) or `[]` (a missing list).
- React batches state updates and event handlers can see stale values. Handlers are
  modelled as atomic updates on the current state.
- Game.GameView.SyncStrokes runs for every snapshot. The effect also lists the round and
  the status as triggers, but every snapshot from the server carries a new stroke array,
  so the array trigger alone already fires each time.
- `gameState.players.sort(...)` sorts the snapshot's array in place. The model sorts a
  copy.
- Game.FormatTime is defined on non-negative integer seconds. Negative or fractional
  values are outside the model.
- Game.MaskedSlots indexes `maskedWord` by code point, whereas JavaScript indexes UTF-16
  code units. The two agree for text in the Basic Multilingual Plane.
- Canvas.IsMirror, the target-scoped mirror flag the client computes but never uses, is
  kept only to relate it to the flag that is used.
