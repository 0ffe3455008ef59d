# Poker table round, session store and forms — a Dafny model

This project models the logic inside a React poker front end. The front end has no deck, bets or hand ranking. It does have:

- **The table round** (`src/pages/PokerTable.tsx`). Five pieces of state: round number, community cards, the index of the player whose turn it is, the game phase (waiting, dealing, playing, showdown) and the seated players. Two handlers change that state:
  - `handleAction` takes `pass`, `ready`, `play`, `show`, or any other string, which changes nothing.
  - `startNewRound` begins a fresh round.
  - `nextPlayer` moves the turn round the table past players who have passed. It stops when it comes back to the current player, and does nothing when no player is active.
  - `play` deals fixed cards: the flop As Kh Qd while waiting, then Jc, then 10s.
- **The deal-button label** (`ActionPanel.tsx`), chosen by how many community cards are showing.
- **The card face** (`PlayingCard.tsx`). It splits a card string into rank and suit, colours hearts and diamonds red, and looks up the suit symbol.
- **The chat panel** (`ChatPanel.tsx`). It appends a typed message unless the message is blank after trimming.
- **The session store** (`useStore.ts`): log in, log out, toggle sound, change the balance.
- **The sign-in form** (`SignIn.tsx`). It checks that an email and a password are present, and the user name it stores is the email's local part.
- **The avatar picker** (`ProfilePictureSelector.tsx`). An upload must have an `image/` type and be at most 5 MiB. The avatar creator changes one field at a time.

Structure:

- Each source file is one module. `MockData` holds the fixed records of `src/data/mockData.ts`, and `Optional` holds the option type.
- Where the source mutates state, there is a class with that state in fields.
  - The methods of `Table` and `Store` are proved to make exactly the transition a pure function describes: `HandleActionStep`, `NewRoundStep`, `LoginStep`, and so on.
  - The methods of `Chat`, `SignInForm` and `Selector` state their new fields directly. `Chat.HandleSend` is also proved to change the list exactly as one `SendOne` step does.
- The lemmas prove what those transitions promise. One of them: from the opening table, after any sequence of actions and new rounds, the board is a prefix of As Kh Qd Jc 10s of size 0, 3, 4 or 5. While waiting the board is empty, while playing it shows at least the flop, the dealing phase is never entered, and the turn index points at a seated player.

One React handler reads one snapshot of the state. Inside `handleAction`, no setter reads a field that another setter in the same call writes. `pass` only rewrites `players`. `play` writes the board and phase, and then `nextPlayer` reads only the players and the turn index. So the class methods can update fields one after another and still get the snapshot result. The pure step functions state that result directly.

The `nextPlayer` loop cannot spin forever. It returns early when no player is `active`, and the loop stops when it comes back to the current index. `PokerTable.Table.NextPlayer` is proved to end within `|players| - 1` probes and to return an index in range. The code has no deck, bets, blinds or side pots, and the turn order follows list indices, not seat numbers.

## Model

| member | source | states |
|---|---|---|
| `PokerTable.ScanFrom` | src/pages/PokerTable.tsx:82-86 | the remaining scan of `nextPlayer` always lands on a valid player index |
| `PokerTable.ActiveCount` | src/pages/PokerTable.tsx:79 | the number of `active` players never exceeds the number of players |
| `PokerTable.NextTurn` | src/pages/PokerTable.tsx:78-88 | `nextPlayer`'s choice (no change without an active player) is always a valid index |
| `PokerTable.TurnAfter` | src/pages/PokerTable.tsx:82-86 | the loop's result is a valid index, and any player other than the current one that it picks has not passed |
| `PokerTable.HandleActionStep` | src/pages/PokerTable.tsx:35-63 | every action keeps the turn index within the player list |
| `PokerTable.ProbeStep` | src/pages/PokerTable.tsx:82-85 | `(i + 1) % n` steps to the next seat round the table, and only the `n`-th step returns to the start, which is the loop's escape |
| `PokerTable.MarkPassed` | src/pages/PokerTable.tsx:40-42 | the list keeps its length and every player's other fields; a player is passed afterwards exactly when it was before or is the current one; everyone else is unchanged |
| `PokerTable.Deal` | src/pages/PokerTable.tsx:48-57 | dealing keeps the players, turn and round; while waiting it shows the flop and sets phase `playing`; otherwise it keeps the phase and the shown cards, and adds exactly one card when 3 or 4 are showing, none otherwise |
| `PokerTable.ResetRoster` | src/pages/PokerTable.tsx:96 | the mock roster again, with every status `active` and every other field as in the mock data |
| `PokerTable.NewRoundStep` | src/pages/PokerTable.tsx:90-97 | a new round adds exactly 1 to the round number and gives the turn to an `active` player at a valid index |
| `PokerTable.Table.constructor` | src/pages/PokerTable.tsx:18-22 | the table opens in round 1, with no cards, turn 0, waiting, and the mock roster |
| `PokerTable.Table.HandleAction` | src/pages/PokerTable.tsx:35-63 | the fields after `handleAction(action)` are exactly `HandleActionStep` of the fields before |
| `PokerTable.Table.DealFlop` | src/pages/PokerTable.tsx:65-68 | the board becomes As Kh Qd and the phase `playing` |
| `PokerTable.Table.DealTurn` | src/pages/PokerTable.tsx:70-72 | Jc is appended to the board |
| `PokerTable.Table.DealRiver` | src/pages/PokerTable.tsx:74-76 | 10s is appended to the board |
| `PokerTable.Table.NextPlayer` | src/pages/PokerTable.tsx:78-88 | the loop sets the turn to `NextTurn` of the players and the old index, after at most `|players| - 1` probes; nothing else changes |
| `PokerTable.Table.StartNewRound` | src/pages/PokerTable.tsx:90-97 | the fields after `startNewRound` are exactly `NewRoundStep` of the fields before |
| `PokerTableProperties.ActiveCountZeroIff` | src/pages/PokerTable.tsx:79-80 | the active-player count is zero exactly when no player's status is `active` |
| `PokerTableProperties.ScanFromIsFirstUnpassed` | src/pages/PokerTable.tsx:82-86 | if every probe before `k` hit a passed player, the scan ends at the first later probe that did not, or at the current player after a full round |
| `PokerTableProperties.TurnAfterIsFirstUnpassed` | src/pages/PokerTable.tsx:82-86 | the new turn is the first player cyclically after the current one whose status is not `passed`, all players in between have passed, and it is the current player exactly when all others have passed |
| `PokerTableProperties.NoActivePlayerKeepsTurn` | src/pages/PokerTable.tsx:79-80 | with no `active` player the turn does not move and `ready` changes nothing |
| `PokerTableProperties.SittingOutCanTakeTurn` | src/pages/PokerTable.tsx:84 | only `passed` is skipped: a sitting-out player after the current one gets the turn |
| `PokerTableProperties.PassMarksOnlyCurrent` | src/pages/PokerTable.tsx:38-42 | `pass` sets the current player's status to `passed`; every other player, the list length, the turn index and all other fields stay the same |
| `PokerTableProperties.PlayDealsThenAdvances` | src/pages/PokerTable.tsx:46-58 | `play` deals As Kh Qd and sets phase `playing` while waiting; otherwise it appends Jc to 3 cards, 10s to 4, and leaves any other board and the phase alone; the turn always advances, while the players and round stay the same |
| `PokerTableProperties.OtherActions` | src/pages/PokerTable.tsx:43-62 | `show` only sets phase `showdown`, `ready` only advances the turn, an unrecognised action changes nothing, and no action changes the round number |
| `PokerTableProperties.NewRoundResets` | src/pages/PokerTable.tsx:90-97 | a new round empties the board, adds exactly 1 to the round number, waits with turn 0, and restores the mock roster with every status `active` |
| `PokerTableProperties.Apply` | src/pages/PokerTable.tsx:111-200 | a button press (action or new round) keeps the turn index within the player list |
| `PokerTableProperties.InitialInv` | src/pages/PokerTable.tsx:18-22 | the opening table satisfies the board and turn invariant |
| `PokerTableProperties.HandleActionKeepsInv` | src/pages/PokerTable.tsx:35-76 | every action preserves the invariant: the board is a prefix of As Kh Qd Jc 10s of size 0, 3, 4 or 5; waiting means an empty board; playing means at least 3 cards; never `dealing`; the turn index is in range; the players are the roster with status `active` or `passed` |
| `PokerTableProperties.NewRoundKeepsInv` | src/pages/PokerTable.tsx:90-97 | a new round always yields a table satisfying the invariant |
| `PokerTableProperties.RunKeepsInv` | src/pages/PokerTable.tsx:35-97 | any sequence of actions and new rounds preserves the invariant |
| `PokerTableProperties.ReachableInv` | src/pages/PokerTable.tsx:18-97 | every table reachable from the opening state satisfies the invariant |
| `PokerTableProperties.RoundNumberCountsNewRounds` | src/pages/PokerTable.tsx:92 | after any sequence of events, the round number has grown by exactly the number of new rounds |
| `PokerTableProperties.BoardOnlyGrows` | src/pages/PokerTable.tsx:65-76 | on a reachable table, no action removes or reorders a card already shown |
| `PokerTableProperties.DealLabelNamesNextDeal` | src/components/PokerTable/ActionPanel.tsx:17-22 | on a reachable table that is waiting or shows 3 or 4 cards, the label says Flop, Turn or River, and `play` then shows 3, 4 or 5 cards |
| `PokerTableProperties.FlopLabelAfterEarlyShow` | src/components/PokerTable/ActionPanel.tsx:18 | the label depends only on the count: after an early `show`, it reads "Deal Flop" while `play` deals nothing |
| `PokerTableProperties.DealtCardsHaveSymbols` | src/pages/PokerTable.tsx:65-76 | each of As Kh Qd Jc 10s has a suit in the symbol table; Kh and Qd are red, As and Jc are not |
| `PokerTableProperties.BoardCardsHaveSymbols` | src/components/PokerTable/PlayingCard.tsx:29-32 | every card on a reachable board is drawn with a suit symbol |
| `ActionPanel.DealButtonText` | src/components/PokerTable/ActionPanel.tsx:17-22 | "Deal Flop" exactly for 0, "Deal Turn" exactly for 3, "Deal River" exactly for 4, plain "Deal" for every other count (1, 2, 5 included) |
| `PlayingCard.View` | src/components/PokerTable/PlayingCard.tsx:11-32 | a face-down card shows its back whatever its string; a face-up card's rank followed by its suit is the card, the suit is its last character, and it is red exactly for `h` and `d` |
| `PlayingCard.Suit` | src/components/PokerTable/PlayingCard.tsx:29 | `slice(-1)`: the last character of the card as a one-character suffix, or "" for "" |
| `PlayingCard.Rank` | src/components/PokerTable/PlayingCard.tsx:30 | `slice(0, -1)`: a prefix of the card, one character shorter, or "" for "" |
| `PlayingCard.IsRed` | src/components/PokerTable/PlayingCard.tsx:31 | a suit is red exactly when it is drawn with the ♥ or ♦ symbol |
| `PlayingCard.SuitSymbol` | src/components/PokerTable/PlayingCard.tsx:32 | only a one-letter suit has a symbol, and the symbol is one of ♠ ♥ ♦ ♣ |
| `PlayingCard.SplitRecombines` | src/components/PokerTable/PlayingCard.tsx:29-30 | for every string, rank followed by suit is the string; a non-empty card has a one-character suit; the empty string gives an empty rank and suit |
| `PlayingCard.TenOfSpades` | src/components/PokerTable/PlayingCard.tsx:29-30 | "10s" parses to rank "10" and suit "s", drawn black with ♠ |
| `PlayingCard.SuitSymbolCases` | src/data/mockData.ts:175-180 | s→♠, h→♥, d→♦, c→♣, and any other suit has no symbol |
| `PlayingCard.FaceDownIgnoresCard` | src/components/PokerTable/PlayingCard.tsx:11-27 | a face-down card's view does not depend on its string |
| `ChatPanel.TrimStart` | src/components/PokerTable/ChatPanel.tsx:16 | removing leading white space leaves a suffix that is empty or starts with a non-blank character, and only white space was removed |
| `ChatPanel.IsWhiteSpace` | src/components/PokerTable/ChatPanel.tsx:16 | no letter or digit counts as the white space `trim` removes |
| `ChatPanel.TrimEnd` | src/components/PokerTable/ChatPanel.tsx:16 | removing trailing white space leaves a prefix that is empty or ends with a non-blank character, and only white space was removed |
| `ChatPanel.Trim` | src/components/PokerTable/ChatPanel.tsx:16 | `trim()` is no longer than the message, is a prefix of the start-trimmed message, and neither starts nor ends with white space |
| `ChatPanel.TrimEmptyIffBlank` | src/components/PokerTable/ChatPanel.tsx:16 | the trimmed message is empty exactly when the message is empty or all white space |
| `ChatPanel.Chat.constructor` | src/components/PokerTable/ChatPanel.tsx:12-13 | the input starts empty and the list starts as the four mock messages |
| `ChatPanel.Chat.SetMessage` | src/components/PokerTable/ChatPanel.tsx:72 | typing replaces the input text |
| `ChatPanel.Chat.HandleSend` | src/components/PokerTable/ChatPanel.tsx:15-28 | a blank input leaves the list and the input unchanged; otherwise exactly one message, from "You" with the untrimmed text, is appended after the unchanged earlier messages, and the input becomes "" |
| `ChatPanel.Shown` | src/components/PokerTable/ChatPanel.tsx:16-26 | a send adds no message exactly when the text is blank, and at most one message otherwise |
| `ChatPanel.SendOne` | src/components/PokerTable/ChatPanel.tsx:18-26 | a send keeps the earlier list as a prefix and grows it by one exactly when the text is not blank |
| `ChatPanel.Delivered` | src/components/PokerTable/ChatPanel.tsx:15-28 | a run of sends shows at most one message per send, each from "You" with a non-blank text |
| `ChatPanel.SendAllAppendsDelivered` | src/components/PokerTable/ChatPanel.tsx:15-28 | after any run of typing and sending, the list is the earlier list followed by exactly the non-blank texts, untrimmed and in the order sent |
| `ChatPanel.SendExamples` | src/components/PokerTable/ChatPanel.tsx:16 | "" and "   " are blank, and " hi " is not |
| `SessionStore.Store.constructor` | src/store/useStore.ts:21-24 | the store opens with no user, not authenticated, sound on |
| `SessionStore.LoginStep` | src/store/useStore.ts:26 | logging in always leaves the session consistent (authenticated with a user) and keeps the sound setting |
| `SessionStore.LogoutStep` | src/store/useStore.ts:28 | logging out always leaves the session consistent (no user, not authenticated) and keeps the sound setting |
| `SessionStore.ToggleSoundStep` | src/store/useStore.ts:30 | toggling flips the sound setting and keeps the session as consistent as it was |
| `SessionStore.Credit` | src/store/useStore.ts:34 | a credited user is present exactly when the user was, and the balance moves by exactly the amount |
| `SessionStore.UpdateBalanceStep` | src/store/useStore.ts:32-35 | a balance update keeps the authentication flag, the sound setting and the session's consistency |
| `SessionStore.Store.Login` | src/store/useStore.ts:26 | the fields become `LoginStep` of the old fields |
| `SessionStore.Store.Logout` | src/store/useStore.ts:28 | the fields become `LogoutStep` of the old fields |
| `SessionStore.Store.ToggleSound` | src/store/useStore.ts:30 | the fields become `ToggleSoundStep` of the old fields |
| `SessionStore.Store.UpdateBalance` | src/store/useStore.ts:32-35 | the fields become `UpdateBalanceStep` of the old fields |
| `SessionStore.InitialSignedOut` | src/store/useStore.ts:22-24 | the initial state has no user, is not authenticated, has sound on, and is consistent |
| `SessionStore.LoginLogoutEffects` | src/store/useStore.ts:26-28 | login stores the user and authenticates; logout clears both; neither touches sound |
| `SessionStore.ToggleSoundInvolution` | src/store/useStore.ts:30 | toggling negates only the sound setting, and toggling twice is the identity |
| `SessionStore.CreditChangesOnlyBalance` | src/store/useStore.ts:34 | a balance update adds the amount and keeps id, user name, avatar and level; a missing user stays missing |
| `SessionStore.UpdateBalanceAdditive` | src/store/useStore.ts:32-35 | updating by `a` then by `b` equals updating by `a + b`; updating by 0 changes nothing |
| `SessionStore.ActionsKeepAuthConsistent` | src/store/useStore.ts:21-35 | all four actions preserve "authenticated exactly when a user is stored" |
| `SignIn.Validate` | src/pages/SignIn.tsx:21-23 | "Email is required" exactly when the email is "", "Password is required" exactly when the password is "", each field checked on its own, with an error exactly when either is empty |
| `SignIn.UsernameOf` | src/pages/SignIn.tsx:32 | the user name is a prefix of the email, contains no '@', and is followed in the email by '@' unless it is the whole email |
| `SignIn.HasError` | src/pages/SignIn.tsx:25 | the form has an error exactly when the error record is not the empty one |
| `SignIn.SignedInUser` | src/pages/SignIn.tsx:30-36 | the logged-in user's name is a prefix of the email with no '@' in it |
| `SignIn.SignInForm.constructor` | src/pages/SignIn.tsx:14-16 | email and password start empty, with no errors |
| `SignIn.SignInForm.SetEmail` | src/pages/SignIn.tsx:92 | typing replaces the email |
| `SignIn.SignInForm.SetPassword` | src/pages/SignIn.tsx:101 | typing replaces the password |
| `SignIn.SignInForm.HandleSubmit` | src/pages/SignIn.tsx:18-39 | with an error, the errors are stored and the store and navigation are untouched; otherwise the stored errors stay, the store logs in `SignedInUser(email)`, and the lobby route is returned |
| `SignIn.SignedInUserRecord` | src/pages/SignIn.tsx:30-36 | the logged-in user has id "1", avatar 👑, balance 25000, level 15, and a name that is an '@'-free prefix of the email, or the whole email if it has no '@' |
| `SignIn.LenientValidation` | src/pages/SignIn.tsx:22-23 | white-space-only and '@'-less inputs pass validation; "ace@poker.fun" gives user name "ace" |
| `ProfilePictureSelector.HandleFileUpload` | src/components/ProfilePictureSelector.tsx:29-52 | no file gives no effect; a type not starting with "image/" gives the type alert whatever the size; an image over 5242880 bytes gives the size alert; exactly the images of at most 5242880 bytes start a read |
| `ProfilePictureSelector.StartsWith` | src/components/ProfilePictureSelector.tsx:33 | `startsWith` holds exactly when the prefix is a prefix of the string |
| `ProfilePictureSelector.UploadBoundaries` | src/components/ProfilePictureSelector.tsx:33-42 | 5242880 bytes is accepted and 5242881 is not; an oversized non-image gets the type alert |
| `ProfilePictureSelector.Selector.constructor` | src/components/ProfilePictureSelector.tsx:19-26 | the tab starts on emoji and the avatar record on its five defaults |
| `ProfilePictureSelector.Selector.SelectTab` | src/components/ProfilePictureSelector.tsx:138-174 | a tab button sets the active tab |
| `ProfilePictureSelector.Selector.SelectSkinTone` | src/components/ProfilePictureSelector.tsx:80 | only `skinTone` of the avatar record changes, and the record stays made of offered choices |
| `ProfilePictureSelector.Selector.SelectHairStyle` | src/components/ProfilePictureSelector.tsx:97 | only `hairStyle` of the avatar record changes, and the record stays made of offered choices |
| `ProfilePictureSelector.Selector.SelectAccessory` | src/components/ProfilePictureSelector.tsx:117 | only `accessory` of the avatar record changes, and the record stays made of offered choices |
| `ProfilePictureSelector.DefaultIsOffered` | src/components/ProfilePictureSelector.tsx:20-26 | the default skin tone, hair style and accessory are among the offered choices |

## Left out

- Rendering is not modelled: JSX, animation, styling, the seat layout, and `PlayerSeat.tsx` apart from its status type.
- Side effects are left out. `console.log` in `handleAction` and the `amount` argument it only logs are dropped. Each `alert` becomes the alert text in `UploadOutcome`. `navigate('/lobby')` becomes the route that `HandleSubmit` returns.
- The asynchronous `FileReader` read and the `onImageUpload` callback are left out: the model stops at "the read starts".
- The clock-derived chat `id` and `timestamp` are parameters.
- The wiring between the table and the action panel is left out. `PokerTable.tsx` passes `onPlay`/`onShowCards`, but `ActionPanel.tsx` expects `onDeal`/`communityCardsCount`, so on the real page the label never receives the board size. The label is modelled as a function of the count, and `handleAction` takes its action directly.
- The seat highlight (`PokerTable.tsx:141-155`) compares seat numbers with player indices. It is display only and is not modelled.
- The chat open/close flag (`isChatOpen`) and the sound button on the table page are left out. They are page toggles outside the round's five fields; the store's `toggleSound` is modelled.
- `soundEffects.ts` (audio synthesis, random numbers, floating point), `Tournament.tsx` (float prize split over a string prize pool), `Lobby.tsx`, routing in `App.tsx`, and the other pages are not part of this model.
- Numbers in the source (balance, file size, round number, score) are JavaScript doubles. Here they are mathematical integers. Fractional or overflowing values are not modelled.
- Strings are sequences of Unicode scalar values. JavaScript `slice` and `trim` work on UTF-16 code units, so a card string ending in a character outside the Basic Multilingual Plane would split differently.
- PokerTable.HandleActionStep: requires the turn index to be within the player list, and so do `NextTurn`, `Table.HandleAction` and `Table.NextPlayer`. The source never reaches an out-of-range index: `ReachableInv` proves the index is always in range. With such an index, `pass` in the source would mark no one, and `ready` or `play` would move the turn to the first player after it who has not passed. This unreachable case is not modelled.
- ProfilePictureSelector.Selector.SelectSkinTone: takes only an offered skin tone, since the buttons are generated from that list. `SelectHairStyle` and `SelectAccessory` likewise take only offered values.
