/** The game state of the haunted-house game as a value, and what each
    player action does to it. The game window class in module GameWindow
    is proved to follow these functions step by step; the lemmas here
    state what the game promises about them. */
module GameSpec {
  import opened Util
  import opened Rooms
  import opened Content

  /** Everything the controller keeps: the rooms by name (with their
      current locked flags and item lists), the current room (none before
      the first move), the inventory in collection order, the names ever
      discovered, the room whose unlock awaits the player's click, the
      text on display and the exits offered to the player. */
  datatype GameState = GameState(
    rooms: map<string, RoomData>,
    current: Option<string>,
    inventory: seq<string>,
    found: set<string>,
    pending: Option<string>,
    display: string,
    exits: seq<string>)

  /** The state once the rooms are built, before the first move. */
  function Initial(): GameState
  {
    GameState(Registry(), None, [], {}, None, "", [])
  }

  /** The current room and the room awaiting acknowledgement are rooms. */
  predicate WellFormed(s: GameState)
  {
    && (s.current.Some? ==> s.current.value in s.rooms)
    && (s.pending.Some? ==> s.pending.value in s.rooms)
  }

  // ---------------------------------------------------------------- texts

  const NothingFound := "\tYou search the room diligently but find nothing of importance seems to be here."

  /** The unlock narration of a room without a custom one. */
  function GenericUnlockText(room: string, required: seq<string>): string
  {
    "\nYou used " + Join(required, ", ") + " to unlock the " + room + "!" + "(\nClick to continue..)"
  }

  /** The locked message of a room without a custom one; it lists every
      required item, held or not. */
  function GenericLockedText(room: string, required: seq<string>): string
  {
    "The door to " + room + " is locked. You need: " + ListString(required)
  }

  /** The unlock narration: the room's custom one, else the generic one. */
  function UnlockText(texts: Narrations, room: string, required: seq<string>): string
  {
    if room in texts.unlock then texts.unlock[room] else GenericUnlockText(room, required)
  }

  /** The locked message: the room's custom one, else the generic one. */
  function LockedText(texts: Narrations, room: string, required: seq<string>): string
  {
    if room in texts.locked then texts.locked[room] else GenericLockedText(room, required)
  }

  /** `getOrDefault` on the discovery narrations. */
  function DiscoveryText(discovery: map<string, string>, item: string): string
  {
    if item in discovery then discovery[item] else "You found " + item + "!"
  }

  // -------------------------------------------------------------- actions

  /** The common last step of a move: show the room's entry text and offer
      its exits. */
  function Enter(s: GameState, target: string): GameState
    requires target in s.rooms
  {
    s.(current := Some(target),
       display := s.rooms[target].initialDescription,
       exits := s.rooms[target].exits)
  }

  /** Moving to a room. While an unlock awaits acknowledgement, and for a
      name that is not a room, nothing happens. A locked room whose
      required items are all held consumes them, unlocks and waits for
      the player's click; one whose items are not all held only shows its
      locked message. An unlocked room is entered. */
  function Navigate(texts: Narrations, s: GameState, target: string): GameState
  {
    if s.pending.Some? || target !in s.rooms then s
    else
      var room := s.rooms[target];
      if room.locked then
        if ContainsAll(s.inventory, room.requiredItems) then
          s.(inventory := RemoveAll(s.inventory, room.requiredItems),
             rooms := s.rooms[target := room.(locked := false)],
             display := UnlockText(texts, target, room.requiredItems),
             pending := Some(target))
        else
          s.(display := LockedText(texts, target, room.requiredItems))
      else
        Enter(s, target)
  }

  /** The player's click after an unlock narration: the move completes.
      Without a pending unlock the click does nothing. */
  function Acknowledge(s: GameState): GameState
  {
    match s.pending
    case None => s
    case Some(target) =>
      if target in s.rooms then Enter(s.(pending := None), target) else s.(pending := None)
  }

  /** No name occurs twice. */
  predicate NoRepeats(xs: seq<string>)
  {
    forall i, j :: 0 <= i < j < |xs| ==> xs[i] != xs[j]
  }

  /** The outcome of collecting `xs` in order when the names in `found`
      were discovered before: the names discovered afterwards, and the
      items narrated, in the order of their narration. */
  datatype Discovery = Discovery(found: set<string>, narrated: seq<string>)

  /** Collecting `xs` in order: an item is narrated when it has not been
      discovered before, not in an earlier search nor earlier in this one. */
  function Discover(found: set<string>, xs: seq<string>): Discovery
  {
    if xs == [] then Discovery(found, [])
    else
      var d := Discover(found, xs[..|xs| - 1]);
      var x := xs[|xs| - 1];
      if x in d.found then d else Discovery(d.found + {x}, d.narrated + [x])
  }

  /** The narrated items are exactly the new names, each once, and every
      collected name ends up discovered. */
  lemma {:induction false} DiscoverFacts(found: set<string>, xs: seq<string>)
    ensures var d := Discover(found, xs);
      && (forall x :: x in d.found <==> x in found || x in xs)
      && (forall x :: x in d.narrated <==> x in xs && x !in found)
      && NoRepeats(d.narrated)
  {
    if xs != [] {
      var init := xs[..|xs| - 1];
      var x := xs[|xs| - 1];
      assert xs == init + [x];
      DiscoverFacts(found, init);
      var d := Discover(found, init);
      if x !in d.found {
        var ns := d.narrated + [x];
        forall i, j | 0 <= i < j < |ns| ensures ns[i] != ns[j] {
          if j < |d.narrated| {
            assert ns[i] == d.narrated[i] && ns[j] == d.narrated[j];
          } else {
            assert ns[i] == d.narrated[i] && ns[i] in d.narrated && ns[i] in init;
          }
        }
      }
    }
  }

  /** Collecting one more item: it is narrated exactly when it is new. */
  lemma DiscoverStep(found: set<string>, xs: seq<string>, x: string)
    ensures var d := Discover(found, xs);
      Discover(found, xs + [x])
        == if x in d.found then d else Discovery(d.found + {x}, d.narrated + [x])
  {
    assert (xs + [x])[..|xs|] == xs;
  }

  /** The narration of the narrated items, one line each. */
  function Narration(discovery: map<string, string>, narrated: seq<string>): string
  {
    if narrated == [] then ""
    else Narration(discovery, narrated[..|narrated| - 1])
         + DiscoveryText(discovery, narrated[|narrated| - 1]) + "\n"
  }

  /** Narrating one more item appends its line. */
  lemma NarrationStep(discovery: map<string, string>, narrated: seq<string>, x: string)
    ensures Narration(discovery, narrated + [x])
      == Narration(discovery, narrated) + DiscoveryText(discovery, x) + "\n"
  {
    assert (narrated + [x])[..|narrated|] == narrated;
  }

  /** Searching the current room: with no current room (or while an
      unlock awaits acknowledgement) nothing happens; an empty room yields
      the fixed text; otherwise every item is collected in order, the new
      ones are narrated, and the room is emptied. */
  function Search(texts: Narrations, s: GameState): GameState
  {
    if s.pending.Some? || s.current.None? || s.current.value !in s.rooms then s
    else
      var here := s.current.value;
      var xs := s.rooms[here].items;
      if xs == [] then s.(display := NothingFound)
      else
        var d := Discover(s.found, xs);
        s.(inventory := s.inventory + xs,
           found := d.found,
           rooms := s.rooms[here := s.rooms[here].(items := [])],
           display := Trim(Narration(texts.discovery, d.narrated)))
  }

  /** Looking around shows the current room's look text. */
  function Look(s: GameState): GameState
  {
    if s.pending.Some? || s.current.None? || s.current.value !in s.rooms then s
    else s.(display := s.rooms[s.current.value].lookDescription)
  }

  datatype Action = NavigateTo(target: string) | AcknowledgeUnlock | SearchRoom | LookAround

  function Step(texts: Narrations, s: GameState, a: Action): GameState
  {
    match a
    case NavigateTo(target) => Navigate(texts, s, target)
    case AcknowledgeUnlock => Acknowledge(s)
    case SearchRoom => Search(texts, s)
    case LookAround => Look(s)
  }

  /** The state after a session of actions, one after the other. */
  function Run(texts: Narrations, s: GameState, actions: seq<Action>): GameState
    decreases |actions|
  {
    if actions == [] then s else Run(texts, Step(texts, s, actions[0]), actions[1..])
  }

  /** The items whose discovery narration an action shows. */
  function NarratedBy(s: GameState, a: Action): seq<string>
  {
    if a.SearchRoom? && s.pending.None? && s.current.Some? && s.current.value in s.rooms
    then Discover(s.found, s.rooms[s.current.value].items).narrated
    else []
  }

  /** The items narrated over a session, in order. */
  function RunNarrated(texts: Narrations, s: GameState, actions: seq<Action>): seq<string>
    decreases |actions|
  {
    if actions == [] then []
    else NarratedBy(s, actions[0])
         + RunNarrated(texts, Step(texts, s, actions[0]), actions[1..])
  }

  // ---------------------------------------------------------- navigation

  /** A name that is not a room changes nothing at all. */
  lemma NavigateUnknownRoom(texts: Narrations, s: GameState, target: string)
    requires target !in s.rooms
    ensures Navigate(texts, s, target) == s
  {
  }

  /** While an unlock awaits acknowledgement, moving, searching and
      looking are all refused. */
  lemma PendingBlocksActions(texts: Narrations, s: GameState, target: string)
    requires s.pending.Some?
    ensures Navigate(texts, s, target) == s
    ensures Search(texts, s) == s
    ensures Look(s) == s
  {
  }

  /** A locked room whose required items are not all held stays locked;
      rooms, inventory and current room are unchanged and only the locked
      message (the custom one, else the generic one) is shown. */
  lemma NavigateLockedMissingItems(texts: Narrations, s: GameState, target: string)
    requires s.pending.None? && target in s.rooms && s.rooms[target].locked
    requires !ContainsAll(s.inventory, s.rooms[target].requiredItems)
    ensures var r := Navigate(texts, s, target);
      && r.rooms == s.rooms && r.rooms[target].locked
      && r.inventory == s.inventory && r.current == s.current && r.pending.None?
      && r.found == s.found && r.exits == s.exits
      && r.display == (if target in texts.locked then texts.locked[target]
                       else "The door to " + target + " is locked. You need: "
                            + ListString(s.rooms[target].requiredItems))
  {
  }

  /** A locked room whose required items are all held is unlocked, and
      nothing else changes in any room. The required items are consumed:
      none of them is left, every other item keeps its count and the
      survivors keep their order. The player stays where they are until
      the unlock is acknowledged. */
  lemma NavigateUnlocks(texts: Narrations, s: GameState, target: string)
    requires s.pending.None? && target in s.rooms && s.rooms[target].locked
    requires ContainsAll(s.inventory, s.rooms[target].requiredItems)
    ensures var r := Navigate(texts, s, target); var required := s.rooms[target].requiredItems;
      && r.rooms == s.rooms[target := s.rooms[target].(locked := false)]
      && (forall x :: x in r.inventory ==> x !in required)
      && (forall x :: x !in required ==> multiset(r.inventory)[x] == multiset(s.inventory)[x])
      && Subsequence(r.inventory, s.inventory)
      && r.inventory == RemoveAll(s.inventory, required)
      && r.current == s.current && r.exits == s.exits && r.found == s.found
      && r.pending == Some(target)
      && r.display == UnlockText(texts, target, required)
  {
    var required := s.rooms[target].requiredItems;
    forall x | x !in required
      ensures multiset(RemoveAll(s.inventory, required))[x] == multiset(s.inventory)[x]
    {
      RemoveAllCount(s.inventory, required, x);
    }
    RemoveAllSubsequence(s.inventory, required);
  }

  /** After a successful unlock the player's click completes the move:
      the player is in the unlocked room, which shows its entry text and
      offers its exits. The click changes nothing else: every room keeps
      its items, the found set stays, and only the target is unlocked. */
  lemma UnlockThenAcknowledge(texts: Narrations, s: GameState, target: string)
    requires s.pending.None? && target in s.rooms && s.rooms[target].locked
    requires ContainsAll(s.inventory, s.rooms[target].requiredItems)
    ensures Acknowledge(Navigate(texts, s, target))
      == s.(inventory := RemoveAll(s.inventory, s.rooms[target].requiredItems),
            rooms := s.rooms[target := s.rooms[target].(locked := false)],
            current := Some(target),
            display := s.rooms[target].initialDescription,
            exits := s.rooms[target].exits)
  {
  }

  /** The click completes the pending move and changes nothing but the
      current room, the text and the exits; without a pending unlock the
      click does nothing, so each unlock is acknowledged once. */
  lemma AcknowledgeCompletesMove(s: GameState)
    requires WellFormed(s)
    ensures s.pending.None? ==> Acknowledge(s) == s
    ensures s.pending.Some? ==>
      Acknowledge(s) == s.(pending := None,
                           current := s.pending,
                           display := s.rooms[s.pending.value].initialDescription,
                           exits := s.rooms[s.pending.value].exits)
    ensures Acknowledge(Acknowledge(s)) == Acknowledge(s)
  {
  }

  /** Moving to an unlocked room (the current one included) makes it the
      current room, shows its entry text (not its look text) and offers
      exactly its exits; moving there again changes nothing more. */
  lemma NavigateUnlockedRoom(texts: Narrations, s: GameState, target: string)
    requires s.pending.None? && target in s.rooms && !s.rooms[target].locked
    ensures var r := Navigate(texts, s, target);
      && r == s.(current := Some(target),
                 display := s.rooms[target].initialDescription,
                 exits := s.rooms[target].exits)
      && Navigate(texts, r, target) == r
  {
  }

  /** The game starts by moving to the front yard. */
  lemma StartInFrontYard()
    ensures var r := Navigate(GameTexts(), Initial(), "Front Yard");
      && r.current == Some("Front Yard")
      && r.display == FrontYard.initialDescription
      && r.exits == ["Front Hall"]
      && r.inventory == [] && r.rooms == Registry()
  {
  }

  // -------------------------------------------------------- search, look

  /** Searching with no current room does nothing. */
  lemma SearchWithoutRoom(texts: Narrations, s: GameState)
    requires s.current.None?
    ensures Search(texts, s) == s
  {
  }

  /** Searching a room without items only shows the fixed text. */
  lemma SearchEmptyRoom(texts: Narrations, s: GameState)
    requires s.pending.None? && s.current.Some? && s.current.value in s.rooms
    requires s.rooms[s.current.value].items == []
    ensures Search(texts, s) == s.(display := NothingFound)
  {
  }

  /** Searching a room with items collects all of them in order, records
      them as discovered and empties the room, which a second search then
      finds empty. */
  lemma SearchCollects(texts: Narrations, s: GameState)
    requires s.pending.None? && s.current.Some? && s.current.value in s.rooms
    requires s.rooms[s.current.value].items != []
    ensures var here := s.current.value; var xs := s.rooms[here].items;
      var r := Search(texts, s);
      && r.inventory == s.inventory + xs
      && r.rooms == s.rooms[here := s.rooms[here].(items := [])]
      && (forall x :: x in r.found <==> x in s.found || x in xs)
      && r.current == s.current && r.exits == s.exits && r.pending.None?
      && Search(texts, r) == r.(display := NothingFound)
  {
    DiscoverFacts(s.found, s.rooms[s.current.value].items);
    var here := s.current.value;
    var xs := s.rooms[here].items;
    var r := Search(texts, s);
    assert r.rooms[here].items == [];
    assert r.pending.None? && r.current == s.current && here in r.rooms;
  }

  /** The narration of a search names exactly the items never discovered
      before, each once, and each with its own narration or the default
      "You found X!" line. */
  lemma SearchNarration(texts: Narrations, s: GameState)
    requires s.pending.None? && s.current.Some? && s.current.value in s.rooms
    requires s.rooms[s.current.value].items != []
    ensures var xs := s.rooms[s.current.value].items;
      var narrated := NarratedBy(s, SearchRoom);
      && Search(texts, s).display == Trim(Narration(texts.discovery, narrated))
      && (forall x :: x in narrated <==> x in xs && x !in s.found)
      && NoRepeats(narrated)
  {
    DiscoverFacts(s.found, s.rooms[s.current.value].items);
  }

  /** Looking around only changes the text on display, to the current
      room's look text; with no current room it does nothing. */
  lemma LookShowsRoom(s: GameState)
    requires s.pending.None?
    ensures s.current.None? ==> Look(s) == s
    ensures s.current.Some? && s.current.value in s.rooms ==>
      Look(s) == s.(display := s.rooms[s.current.value].lookDescription)
  {
  }

  // ------------------------------------------------------------ sessions

  /** What one action preserves: the set of rooms, every room's layout,
      unlocked rooms stay unlocked, a room's items only ever disappear all
      at once, and the discovered names only grow. */
  predicate Preserved(s: GameState, r: GameState)
  {
    && r.rooms.Keys == s.rooms.Keys
    && (forall k :: k in s.rooms ==> SameLayout(s.rooms[k], r.rooms[k]))
    && (forall k :: k in s.rooms && !s.rooms[k].locked ==> !r.rooms[k].locked)
    && (forall k :: k in s.rooms ==> r.rooms[k].items == s.rooms[k].items || r.rooms[k].items == [])
    && s.found <= r.found
  }

  /** Replacing the record of one room by one with the same layout, no
      more locked and with the same items or none, preserves. */
  lemma {:induction false} UpdateOneRoom(s: GameState, r: GameState, here: string, updated: RoomData)
    requires here in s.rooms && r.rooms == s.rooms[here := updated] && s.found <= r.found
    requires SameLayout(s.rooms[here], updated)
    requires !s.rooms[here].locked ==> !updated.locked
    requires updated.items == s.rooms[here].items || updated.items == []
    ensures Preserved(s, r)
  {
    forall k | k in s.rooms
      ensures SameLayout(s.rooms[k], r.rooms[k])
      ensures !s.rooms[k].locked ==> !r.rooms[k].locked
      ensures r.rooms[k].items == s.rooms[k].items || r.rooms[k].items == []
    {
      if k != here {
        assert r.rooms[k] == s.rooms[k];
      }
    }
  }

  lemma NavigatePreserves(texts: Narrations, s: GameState, target: string)
    ensures Preserved(s, Navigate(texts, s, target))
    ensures WellFormed(s) ==> WellFormed(Navigate(texts, s, target))
  {
    if s.pending.None? && target in s.rooms && s.rooms[target].locked
       && ContainsAll(s.inventory, s.rooms[target].requiredItems) {
      UpdateOneRoom(s, Navigate(texts, s, target), target, s.rooms[target].(locked := false));
    }
  }

  lemma AcknowledgePreserves(s: GameState)
    ensures Preserved(s, Acknowledge(s))
    ensures WellFormed(s) ==> WellFormed(Acknowledge(s))
  {
  }

  lemma SearchPreserves(texts: Narrations, s: GameState)
    ensures Preserved(s, Search(texts, s))
    ensures WellFormed(s) ==> WellFormed(Search(texts, s))
  {
    if s.pending.None? && s.current.Some? && s.current.value in s.rooms {
      var here := s.current.value;
      if s.rooms[here].items != [] {
        DiscoverFacts(s.found, s.rooms[here].items);
        UpdateOneRoom(s, Search(texts, s), here, s.rooms[here].(items := []));
      }
    }
  }

  /** The items a search narrates were not discovered before it and are
      discovered after it. */
  lemma SearchNarratesNew(texts: Narrations, s: GameState)
    ensures forall x :: x in NarratedBy(s, SearchRoom) ==>
      x !in s.found && x in Search(texts, s).found
  {
    if s.pending.None? && s.current.Some? && s.current.value in s.rooms {
      var xs := s.rooms[s.current.value].items;
      DiscoverFacts(s.found, xs);
    }
  }

  lemma {:induction false} StepPreserves(texts: Narrations, s: GameState, a: Action)
    ensures Preserved(s, Step(texts, s, a))
    ensures WellFormed(s) ==> WellFormed(Step(texts, s, a))
    ensures forall x :: x in NarratedBy(s, a) ==>
      x !in s.found && x in Step(texts, s, a).found
  {
    match a
    case NavigateTo(target) =>
      NavigatePreserves(texts, s, target);
      assert NarratedBy(s, a) == [];
    case AcknowledgeUnlock =>
      AcknowledgePreserves(s);
      assert NarratedBy(s, a) == [];
    case LookAround =>
      assert Step(texts, s, a) == Look(s);
      assert NarratedBy(s, a) == [];
    case SearchRoom =>
      SearchPreserves(texts, s);
      SearchNarratesNew(texts, s);
  }

  /** Over any session: no room appears or disappears, no layout
      changes, a room once unlocked stays unlocked, and the discovered
      names only grow. */
  lemma {:induction false} RunPreserves(texts: Narrations, s: GameState, actions: seq<Action>)
    ensures Preserved(s, Run(texts, s, actions))
    ensures WellFormed(s) ==> WellFormed(Run(texts, s, actions))
    decreases |actions|
  {
    if actions != [] {
      var s' := Step(texts, s, actions[0]);
      StepPreserves(texts, s, actions[0]);
      RunPreserves(texts, s', actions[1..]);
    }
  }

  /** One action narrates no name twice. */
  lemma NarratedByNoRepeats(s: GameState, a: Action)
    ensures NoRepeats(NarratedBy(s, a))
  {
    if a.SearchRoom? && s.pending.None? && s.current.Some? && s.current.value in s.rooms {
      DiscoverFacts(s.found, s.rooms[s.current.value].items);
    }
  }

  /** Two repeat-free lists, one inside a set and one outside it, make a
      repeat-free list. */
  lemma NoRepeatsAppend(head: seq<string>, tail: seq<string>, inside: set<string>)
    requires NoRepeats(head) && NoRepeats(tail)
    requires forall x :: x in head ==> x in inside
    requires forall x :: x in tail ==> x !in inside
    ensures NoRepeats(head + tail)
  {
    var ns := head + tail;
    forall i, j | 0 <= i < j < |ns| ensures ns[i] != ns[j] {
      if j < |head| {
        assert ns[i] == head[i] && ns[j] == head[j];
        assert head[i] != head[j];
      } else if i < |head| {
        assert ns[i] == head[i] && ns[j] == tail[j - |head|];
        assert head[i] in inside;
        assert tail[j - |head|] !in inside;
      } else {
        assert ns[i] == tail[i - |head|] && ns[j] == tail[j - |head|];
        assert tail[i - |head|] != tail[j - |head|];
      }
    }
  }

  /** Over any session, each item name is narrated at most once, and
      never one discovered before the session began. */
  lemma {:induction false} RunNarratesOnce(texts: Narrations, s: GameState, actions: seq<Action>)
    ensures forall x :: x in RunNarrated(texts, s, actions) ==> x !in s.found
    ensures NoRepeats(RunNarrated(texts, s, actions))
    decreases |actions|
  {
    if actions != [] {
      var a := actions[0];
      var s' := Step(texts, s, a);
      var head := NarratedBy(s, a);
      var tail := RunNarrated(texts, s', actions[1..]);
      assert RunNarrated(texts, s, actions) == head + tail;
      StepPreserves(texts, s, a);
      NarratedByNoRepeats(s, a);
      RunNarratesOnce(texts, s', actions[1..]);
      NoRepeatsAppend(head, tail, s'.found);
    }
  }
}
