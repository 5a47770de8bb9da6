# Haunted House game: a verified model of the game state

This project models the game logic of the Haunted House game, a JavaFX adventure. The player moves through a mansion of seventeen rooms. They search rooms for items, read the look-around text, and open locked doors with the items they carry. The model keeps the game state of the game window and drops the windowing toolkit.

The model has five modules:

- `Util` holds the Java library operations the game relies on:
  - `List.containsAll` and `List.removeAll`;
  - `String.join` and `String.trim`;
  - the `toString` of a list.
- `Rooms` holds the `Room` class in the form the game window uses it. That form has eight constructor arguments, a locked flag that `unlock` clears, and an item list the window empties.
- `Content` holds the game's fixed content:
  - the registry of rooms;
  - the discovery narrations;
  - the custom unlock and locked narrations;
  - the inspection texts.

  Long prose is replaced by short labels. The message formats the code builds are kept character for character.
- `GameSpec` describes the game state as a value (`GameState`), with one function per player action: `Navigate`, `Acknowledge`, `Search` and `Look`. It also describes sessions of actions (`Run`). The lemmas here state what the game promises.
- `GameWindow` holds the controller as a class (`Game`). Its fields are the room map, the current room, the inventory, the found set, the pending unlock, the description text and the exits menu. Each method is proved to change the window's state exactly as the matching `GameSpec` function says. Every lemma of `GameSpec` therefore holds of the window.

After a successful unlock, the game disables its menus and waits for a mouse click before it completes the move. The model makes that wait explicit as the `pending` room:
- while an unlock is pending, moving, searching and looking are refused;
- the click (`Acknowledge`) completes the move.

## Model

| member | source | states |
|---|---|---|
| Util.RemoveAll | src/GameWindow.java:483 | `removeAll` keeps exactly the inventory entries that are not required items, and never lengthens the list |
| Util.RemoveAllAppend | src/GameWindow.java:483 | `removeAll` distributes over concatenation, so the surviving items keep their relative order |
| Util.RemoveAllCount | src/GameWindow.java:483 | every occurrence of a required item is removed, and every other item keeps its count |
| Util.RemoveAllSubsequence | src/GameWindow.java:483 | the entries `removeAll` keeps appear in the original list in their original order |
| Util.RemoveAllNothingListed | src/GameWindow.java:483 | when no entry is listed, `removeAll` leaves the inventory unchanged |
| Util.TrimStartFacts | src/GameWindow.java:670 | trimming the front leaves a suffix, cuts only blanks (characters up to U+0020), and leaves a text that does not start with a blank |
| Util.TrimEndFacts | src/GameWindow.java:670 | trimming the back leaves a prefix, cuts only blanks, and leaves a text that does not end with a blank |
| Util.TrimFacts | src/GameWindow.java:670 | `trim` leaves a text that starts and ends non-blank, gives the empty text exactly for an all-blank input, and returns a text without blank ends unchanged |
| Rooms.Room.constructor | src/Room.java:34-42 | a new room reports through its getters exactly the eight values it was built with, including the initial locked flag (eight-argument form as called at src/GameWindow.java:198-216) |
| Rooms.Room.Unlock | src/Room.java:101-103 | `unlock` clears the locked flag and changes no other field, so a second call changes nothing; exits and descriptions stay the same |
| Rooms.Room.ClearItems | src/GameWindow.java:668 | clearing the room's item list empties it and leaves the locked flag and the layout unchanged |
| Content.RegisteredStep | src/GameWindow.java:451-467 | each `put` adds the room under its name on top of the map built so far |
| Content.RegistryFromTable | src/GameWindow.java:192-468 | putting the seventeen rooms one after another yields exactly the registry |
| Content.RegistryExitsResolve | src/GameWindow.java:198-467 | every exit of every registered room names a registered room |
| Content.RegistryRequiredItemsPlaced | src/GameWindow.java:198-467 | every item a locked room requires lies among the discoverable items of some registered room |
| Content.RegistryNames | src/GameWindow.java:451-467 | each room is registered under its own name |
| Content.PlaceholderNotRegistered | src/GameWindow.java:440-467 | the "Placeholder" template room is built but is not a key of the registry |
| Content.LockedRoomsNarrated | src/GameWindow.java:492-557 | each locked room of the registry has a custom unlock narration and a custom locked narration |
| Content.Inspect | src/GameWindow.java:692-724 | inspecting is total: a known item gets its own text, and exactly the unknown names get the "A mysterious item…" text |
| GameSpec.DiscoverFacts | src/GameWindow.java:658-665 | after a search, the found set holds the old names plus the collected ones; the narrated items are exactly the collected names not found before, each once |
| GameSpec.DiscoverStep | src/GameWindow.java:659-661 | collecting one more item narrates it exactly when it is not yet in the found set |
| GameSpec.NarrationStep | src/GameWindow.java:662-663 | narrating one more item appends its discovery text, or "You found X!", and a newline |
| GameSpec.NavigateUnknownRoom | src/GameWindow.java:477-478 | moving to a name that is not a room changes nothing |
| GameSpec.PendingBlocksActions | src/GameWindow.java:487-530 | while an unlock waits for the click, moving, searching and looking change nothing |
| GameSpec.NavigateLockedMissingItems | src/GameWindow.java:533-562 | a locked room whose required items are not all held stays locked; rooms, inventory, current room and exits are unchanged; the text is the room's custom locked message, else "The door to X is locked. You need: [..]" |
| GameSpec.NavigateUnlocks | src/GameWindow.java:480-525 | when all required items are held, the target alone is unlocked; no required item is left, other items keep their counts, and the new inventory is a subsequence of the old one; the current room stays the same; the unlock narration is shown and the click is awaited |
| GameSpec.UnlockThenAcknowledge | src/GameWindow.java:526-530 | after a successful unlock the click makes the unlocked room current, shows its entry text and offers its exits; the whole state is pinned, so the click empties no room, unlocks nothing more and keeps the found set and the inventory |
| GameSpec.AcknowledgeCompletesMove | src/GameWindow.java:526-530 | the click changes only the pending room, the current room, the text and the exits; without a pending unlock it does nothing, so a second click is a no-op (the handler removes itself) |
| GameSpec.NavigateUnlockedRoom | src/GameWindow.java:565 | moving to an unlocked room, the current one included, makes it current, shows its entry text (not its look text) and offers its exits in order; repeating the move changes nothing |
| GameSpec.StartInFrontYard | src/GameWindow.java:117-119 | the game starts in the front yard, with its entry text, its one exit and an empty inventory |
| GameSpec.SearchWithoutRoom | src/GameWindow.java:647 | searching with no current room does nothing |
| GameSpec.SearchEmptyRoom | src/GameWindow.java:649-654 | searching a room without items only shows the fixed "nothing of importance" text |
| GameSpec.SearchCollects | src/GameWindow.java:649-668 | a search appends the room's items to the inventory in order, records them as found and empties the room, so a second search finds nothing |
| GameSpec.SearchNarration | src/GameWindow.java:657-670 | the search text is the trimmed narration of exactly the items never found before, each once |
| GameSpec.LookShowsRoom | src/GameWindow.java:636-640 | looking only changes the text, to the current room's look description; with no current room it does nothing |
| GameSpec.UpdateOneRoom | src/Room.java:94-103 | changing one room's record without touching its layout, without relocking it, and at most emptying its items preserves the session invariant |
| GameSpec.NavigatePreserves | src/GameWindow.java:476-566 | a move keeps the room set and layouts, never relocks a room, and keeps current and pending rooms registered |
| GameSpec.AcknowledgePreserves | src/GameWindow.java:526-530 | the click keeps the session invariant |
| GameSpec.SearchPreserves | src/GameWindow.java:646-672 | a search keeps the session invariant; the found set only grows |
| GameSpec.SearchNarratesNew | src/GameWindow.java:659-663 | every item a search narrates was not found before the search and is found after it |
| GameSpec.StepPreserves | src/GameWindow.java:476-672 | each action keeps the session invariant and narrates only new names |
| GameSpec.RunPreserves | src/Room.java:94-103 | over any session: no room appears or disappears, no layout changes, an unlocked room stays unlocked, and the found set only grows |
| GameSpec.NarratedByNoRepeats | src/GameWindow.java:659-663 | one action narrates no name twice |
| GameSpec.NoRepeatsAppend | src/GameWindow.java:659-663 | narrations of earlier names followed by narrations of new names repeat no name |
| GameSpec.RunNarratesOnce | src/GameWindow.java:659-663 | over any session each item name is narrated at most once, and never one found before the session |
| Util.ContainsAll | src/GameWindow.java:482 | `containsAll`: every required item occurs in the inventory, however often; the unlock branch of `Navigate` is taken exactly when it holds (`GameSpec.NavigateUnlocks`, `GameSpec.NavigateLockedMissingItems`) |
| Util.Subsequence | src/GameWindow.java:483 | order-preserving containment, the order property of `removeAll` (`Util.RemoveAllSubsequence`) |
| Util.Join | src/GameWindow.java:522 | `String.join(", ", requiredItems)` in the generic unlock message (`GameSpec.GenericUnlockText`) |
| Util.ListString | src/GameWindow.java:559 | the `[a, b]` form a list prints in the generic locked message (`GameSpec.NavigateLockedMissingItems`) |
| Util.Trim | src/GameWindow.java:670 | `String.trim()`, whose properties `Util.TrimFacts` states |
| Content.Registry | src/GameWindow.java:192-468 | the seventeen rooms by name with their exits, flags, items and required items; `Content.RegistryFromTable`, `Content.RegistryExitsResolve`, `Content.RegistryRequiredItemsPlaced`, `Content.RegistryNames` and `Content.PlaceholderNotRegistered` state its properties |
| Content.RoomTable | src/GameWindow.java:198-437 | the rooms in the order they are put (`Content.RegistryFromTable`) |
| Content.Registered | src/GameWindow.java:451-467 | the map a sequence of `put`s builds (`Content.RegisteredStep`) |
| Content.DiscoveryTexts | src/GameWindow.java:136-185 | the discovery narration of each of the eight items (`GameSpec.NarrationStep`) |
| Content.UnlockTexts | src/GameWindow.java:492-520 | the custom unlock narrations of the five locked rooms (`Content.LockedRoomsNarrated`) |
| Content.LockedTexts | src/GameWindow.java:533-556 | the custom locked messages of the five locked rooms (`Content.LockedRoomsNarrated`) |
| Content.InspectTexts | src/GameWindow.java:692-721 | the inspection text of each of the eight items (`Content.Inspect`) |
| GameSpec.Initial | src/GameWindow.java:35-43 | the fields once the rooms are built: the registry, no current room, an empty inventory and found set (`GameSpec.StartInFrontYard`) |
| GameSpec.GenericUnlockText | src/GameWindow.java:521-523 | the unlock message of a room without a custom one (`GameSpec.NavigateUnlocks`) |
| GameSpec.GenericLockedText | src/GameWindow.java:557-559 | the locked message of a room without a custom one, listing every required item (`GameSpec.NavigateLockedMissingItems`) |
| GameSpec.UnlockText | src/GameWindow.java:492-523 | the custom unlock narration, else the generic one (`GameSpec.NavigateUnlocks`) |
| GameSpec.LockedText | src/GameWindow.java:533-561 | the custom locked message, else the generic one (`GameSpec.NavigateLockedMissingItems`) |
| GameSpec.DiscoveryText | src/GameWindow.java:662 | `getOrDefault` with "You found X!" (`GameSpec.NarrationStep`) |
| GameSpec.Enter | src/GameWindow.java:584-593 | the state part of `updateRoomAfterUnlock` (`GameSpec.NavigateUnlockedRoom`, `GameSpec.AcknowledgeCompletesMove`) |
| GameSpec.Navigate | src/GameWindow.java:476-566 | `updateRoom` on the game state; `GameSpec.NavigateUnknownRoom`, `GameSpec.NavigateLockedMissingItems`, `GameSpec.NavigateUnlocks`, `GameSpec.NavigateUnlockedRoom` and `GameSpec.NavigatePreserves` state it case by case |
| GameSpec.Acknowledge | src/GameWindow.java:526-530 | the one-shot click after an unlock (`GameSpec.AcknowledgeCompletesMove`, `GameSpec.UnlockThenAcknowledge`) |
| GameSpec.Discover | src/GameWindow.java:657-665 | the found-set bookkeeping of the search loop (`GameSpec.DiscoverFacts`, `GameSpec.DiscoverStep`) |
| GameSpec.Narration | src/GameWindow.java:657-663 | the narration the search loop builds, one line per new item (`GameSpec.NarrationStep`, `GameSpec.SearchNarration`) |
| GameSpec.Search | src/GameWindow.java:646-672 | `handleSearchAction` on the game state, including the fixed "nothing of importance" text (`GameSpec.SearchWithoutRoom`, `GameSpec.SearchEmptyRoom`, `GameSpec.SearchCollects`, `GameSpec.SearchNarration`) |
| GameSpec.Look | src/GameWindow.java:636-640 | `handleLookAction` on the game state (`GameSpec.LookShowsRoom`) |
| GameSpec.Step | src/GameWindow.java:591-609 | one player action: an exit chosen, the click, search or look, as the menus wire them (`GameSpec.StepPreserves`) |
| GameSpec.Run | src/GameWindow.java:591-609 | a session of player actions (`GameSpec.RunPreserves`, `GameSpec.RunNarratesOnce`) |
| GameSpec.NarratedBy | src/GameWindow.java:659-663 | the items one action narrates (`GameSpec.NarratedByNoRepeats`) |
| GameSpec.RunNarrated | src/GameWindow.java:659-663 | the items a session narrates, in order (`GameSpec.RunNarratesOnce`) |
| GameWindow.RegisterRooms | src/GameWindow.java:451-467 | builds a fresh room per table entry and puts it under its name, giving exactly the map the puts describe |
| GameWindow.InitializeRooms | src/GameWindow.java:192-468 | the rooms built are fresh, each is registered under its own name, and together they report exactly the registry |
| GameWindow.CollectItems | src/GameWindow.java:657-665 | the loop of a search: the inventory gains the items in order, the found set and the narration are those of `Discover` and `Narration` |
| GameWindow.CollectStep | src/GameWindow.java:658-665 | one turn of the search loop extends the found set and the narration exactly by the current item when it is new |
| GameWindow.Game.constructor | src/GameWindow.java:117-119 | the window builds the registry and the narrations, then moves to the front yard as `Navigate` says |
| GameWindow.Game.UpdateRoom | src/GameWindow.java:476-566 | moving changes the window's state exactly as `GameSpec.Navigate` |
| GameWindow.Game.OpenLockedRoom | src/GameWindow.java:480-531 | opening a locked room whose items are held follows the unlock branch of `GameSpec.Navigate` |
| GameWindow.Game.ConsumeForUnlock | src/GameWindow.java:483-524 | the required items leave the inventory, the unlock narration is shown and the room awaits the click; no room changes |
| GameWindow.Game.UpdateRoomAfterUnlock | src/GameWindow.java:584-593 | the room becomes current, its entry text is shown and its exits are offered |
| GameWindow.Game.Acknowledge | src/GameWindow.java:526-530 | the click completes a pending move as `GameSpec.Acknowledge` |
| GameWindow.Game.HandleLookAction | src/GameWindow.java:636-640 | looking changes the window's state exactly as `GameSpec.Look` |
| GameWindow.Game.HandleSearchAction | src/GameWindow.java:646-672 | searching changes the window's state exactly as `GameSpec.Search` |
| GameWindow.Game.CollectRoom | src/GameWindow.java:649-670 | searching a room with items collects, narrates and empties it as `GameSpec.Search` |
| GameWindow.Game.TakeItems | src/GameWindow.java:657-670 | the items join the inventory, the new ones are recorded as found, and their trimmed narration is shown |
| GameWindow.Game.UnlockRoom | src/GameWindow.java:485 | unlocking a registered room changes that room's record and no other |
| GameWindow.Game.EmptyRoom | src/GameWindow.java:668 | emptying a registered room changes that room's record and no other |

## Left out

- The JavaFX window: layout, `main`, background images, item icons and tooltips, fade transitions, and the rebuilding of the context menu. Only the resulting exit list (`exitsMenu`) is kept. The fades' deferred assignment of the current room is modelled as happening at once.
- The menu bar being disabled and the one-shot mouse handler after an unlock. These are modelled by the `pending` room and the `Acknowledge` action: while a room is pending, moves, searches and looks are refused.
- The long prose of descriptions and narrations: each is a short label. The generic unlock, locked and "You found X!" formats, the fixed "nothing of importance" text and the "A mysterious item…" fallback are kept exactly.
- The custom unlock and locked messages are chosen in the code by an `equalsIgnoreCase` chain on the room name. The model holds them in per-room maps and looks up the exact name. Because the name was already found as a registry key, the two agree on every reachable call.
- The code first constructs all eighteen rooms, the template included, and then puts seventeen of them into the map. The model builds each room from a table and puts it right away, in the same order, and never builds the template. Since nothing else happens between the constructions and the puts, the resulting map is the same.
- `Room.java` in the repository is an older revision: its constructor has seven arguments, its item list is an array, and it has no required items. The game window calls an eight-argument constructor, `getRequiredItems()` and `getItems().clear()`, and the model follows that usage. Getters are modelled as read-only fields.
- The inventory display (`updateInventoryUI`) is left out, except for the inspection text lookup (`Content.Inspect`). Showing that text in the description area is not modelled as an action.
- The generic locked message lists every required item of the room, whether held or not, because it prints the whole required list. The model follows the code here, not a reading under which only the missing items are listed.
