/** The game-state part of the game window: the room registry it builds,
    the current room, the inventory, the discovered names, the text on
    display and the exits on offer, and the actions that change them. Each
    action is proved to do exactly what the matching function of GameSpec
    says, so the lemmas proved there hold of the window's state. */
module GameWindow {
  import opened Util
  import opened Rooms
  import opened Content
  import opened GameSpec

  /** Builds one room object per entry of `table`, in order, and puts
      each under its name. */
  method RegisterRooms(table: seq<RoomData>) returns (rooms: map<string, Room>)
    ensures rooms.Keys == Registered(table).Keys
    ensures forall k :: k in rooms ==> fresh(rooms[k]) && rooms[k].Data() == Registered(table)[k]
    ensures forall k :: k in rooms ==> rooms[k].name == k
  {
    rooms := map[];
    for i := 0 to |table|
      invariant rooms.Keys == Registered(table[..i]).Keys
      invariant forall k :: k in rooms ==> fresh(rooms[k]) && rooms[k].Data() == Registered(table[..i])[k]
      invariant forall k :: k in rooms ==> rooms[k].name == k
    {
      var d := table[i];
      var room := new Room(d.name, d.initialDescription, d.lookDescription, d.imagePath,
                           d.exits, d.locked, d.items, d.requiredItems);
      rooms := rooms[d.name := room];
      RegisteredStep(table, i);
    }
    assert table[..|table|] == table;
  }

  /** The registry of the game: every room of the table, each built
      afresh and registered under its own name. (The template room the game
      window also builds is never registered.) */
  method InitializeRooms() returns (rooms: map<string, Room>)
    ensures forall k :: k in rooms ==> fresh(rooms[k]) && rooms[k].name == k
    ensures (map k | k in rooms :: rooms[k].Data()) == Registry()
  {
    rooms := RegisterRooms(RoomTable());
    RegistryFromTable();
  }

  /** The loop of a search: each item in turn goes to the inventory and,
      when its name is new, is recorded as discovered and its narration
      (or the default line) is appended. */
  method CollectItems(inventory: seq<string>, foundItems: set<string>,
                      discovery: map<string, string>, items: seq<string>)
    returns (inventory': seq<string>, foundItems': set<string>, narration: string)
    ensures inventory' == inventory + items
    ensures foundItems' == Discover(foundItems, items).found
    ensures narration == Narration(discovery, Discover(foundItems, items).narrated)
  {
    inventory', foundItems', narration := inventory, foundItems, "";
    var i := 0;
    while i < |items|
      invariant 0 <= i <= |items|
      invariant inventory' == inventory + items[..i]
      invariant foundItems' == Discover(foundItems, items[..i]).found
      invariant narration == Narration(discovery, Discover(foundItems, items[..i]).narrated)
    {
      var item := items[i];
      CollectStep(foundItems, discovery, items, i);
      if item !in foundItems' {
        foundItems' := foundItems' + {item};
        var discoveryMessage := DiscoveryText(discovery, item);
        narration := narration + discoveryMessage + "\n";
      }
      inventory' := inventory' + [item];
      i := i + 1;
    }
    assert items[..i] == items;
  }

  /** One turn of the search loop, in terms of the prefix collected so far. */
  lemma CollectStep(found: set<string>, discovery: map<string, string>, items: seq<string>, i: nat)
    requires i < |items|
    ensures var d := Discover(found, items[..i]);
      && items[..i + 1] == items[..i] + [items[i]]
      && Discover(found, items[..i + 1])
         == (if items[i] in d.found then d
             else Discovery(d.found + {items[i]}, d.narrated + [items[i]]))
      && Narration(discovery, d.narrated + [items[i]])
         == Narration(discovery, d.narrated) + DiscoveryText(discovery, items[i]) + "\n"
  {
    assert items[..i + 1] == items[..i] + [items[i]];
    DiscoverStep(found, items[..i], items[i]);
    NarrationStep(discovery, Discover(found, items[..i]).narrated, items[i]);
  }

  class Game {
    const rooms: map<string, Room>
    /** The discovery narrations by item (the window's
        itemDiscoveryDescriptions) and the custom unlock and locked
        narrations by room. */
    const texts: Narrations
    var currentRoom: Option<string>
    var inventory: seq<string>
    var foundItems: set<string>
    /** The room whose unlock narration awaits the player's click. */
    var pending: Option<string>
    /** The text in the description area. */
    var description: string
    /** The exits the exits menu offers. */
    var exitsMenu: seq<string>

    /** Each room is registered under its own name (so two names never
        share a room object), and the current and pending rooms are rooms. */
    ghost predicate Valid()
      reads this
    {
      && (forall k :: k in rooms ==> rooms[k].name == k)
      && (currentRoom.Some? ==> currentRoom.value in rooms)
      && (pending.Some? ==> pending.value in rooms)
    }

    /** What every room reports right now, by name. */
    ghost function RoomStates(): map<string, RoomData>
      reads rooms.Values
    {
      map k | k in rooms :: rooms[k].Data()
    }

    /** The window's state as a GameSpec value. */
    ghost function State(): GameState
      reads this, rooms.Values
    {
      GameState(RoomStates(), currentRoom, inventory, foundItems,
                pending, description, exitsMenu)
    }

    /** Builds the rooms and the discovery narrations, then moves to the
        front yard. */
    constructor ()
      ensures Valid() && fresh(rooms.Values)
      ensures texts == GameTexts()
      ensures State() == Navigate(texts, Initial(), "Front Yard")
    {
      var built := InitializeRooms();
      rooms := built;
      texts := GameTexts();
      currentRoom := None;
      inventory := [];
      foundItems := {};
      pending := None;
      description := "";
      exitsMenu := [];
      new;
      assert RoomStates() == Registry();
      assert State() == Initial();
      UpdateRoom("Front Yard");
    }

    /** Moving to the room named `roomName`, as GameSpec.Navigate says. */
    method UpdateRoom(roomName: string)
      requires Valid()
      modifies this, rooms.Values
      ensures Valid()
      ensures State() == Navigate(texts, old(State()), roomName)
    {
      if pending.Some? || roomName !in rooms {
        return;
      }
      var room := rooms[roomName];
      if room.isLocked {
        var requiredItems := room.requiredItems;
        if ContainsAll(inventory, requiredItems) {
          OpenLockedRoom(room);
          return;
        } else {
          description := LockedText(texts, roomName, requiredItems);
          return;
        }
      }
      UpdateRoomAfterUnlock(room);
    }

    /** A locked room whose required items are all held: the items are
        consumed, the room is unlocked, its unlock narration is shown and
        the move waits for the player's click. */
    method OpenLockedRoom(room: Room)
      requires Valid() && pending.None? && room.name in rooms && rooms[room.name] == room
      requires room.isLocked && ContainsAll(inventory, room.requiredItems)
      modifies this, room
      ensures Valid()
      ensures State() == Navigate(texts, old(State()), room.name)
    {
      ghost var s := State();
      ghost var after := s.rooms[room.name := room.Data().(locked := false)];
      var requiredItems := room.requiredItems;
      UnlockRoom(room);
      ConsumeForUnlock(room.name, requiredItems);
      assert RoomStates() == after;
      assert currentRoom == s.current && exitsMenu == s.exits && foundItems == s.found;
      assert State() == GameState(after, s.current, RemoveAll(s.inventory, requiredItems), s.found,
                                  Some(room.name), UnlockText(texts, room.name, requiredItems), s.exits);
    }

    /** The window's side of an unlock: the required items leave the
        inventory, the unlock narration is shown and the room waits for
        the player's click; no room changes. */
    method ConsumeForUnlock(roomName: string, requiredItems: seq<string>)
      modifies this
      ensures inventory == RemoveAll(old(inventory), requiredItems)
      ensures description == UnlockText(texts, roomName, requiredItems)
      ensures pending == Some(roomName)
      ensures currentRoom == old(currentRoom) && foundItems == old(foundItems)
      ensures exitsMenu == old(exitsMenu)
      ensures RoomStates() == old(RoomStates())
    {
      inventory := RemoveAll(inventory, requiredItems);
      description := UnlockText(texts, roomName, requiredItems);
      pending := Some(roomName);
    }

    /** Completes a move: the room becomes current, its entry text is shown
        and its exits are offered, as GameSpec.Enter says. */
    method UpdateRoomAfterUnlock(room: Room)
      requires Valid() && room.name in rooms && rooms[room.name] == room
      modifies this
      ensures Valid()
      ensures State() == Enter(old(State()), room.name)
    {
      currentRoom := Some(room.name);
      description := room.initialDescription;
      exitsMenu := room.exits;
    }

    /** The player's click after an unlock narration, as
        GameSpec.Acknowledge says. */
    method Acknowledge()
      requires Valid()
      modifies this
      ensures Valid()
      ensures State() == GameSpec.Acknowledge(old(State()))
    {
      if pending.Some? {
        var room := rooms[pending.value];
        pending := None;
        UpdateRoomAfterUnlock(room);
      }
    }

    /** Looking around, as GameSpec.Look says. */
    method HandleLookAction()
      requires Valid()
      modifies this
      ensures Valid()
      ensures State() == Look(old(State()))
    {
      if pending.None? && currentRoom.Some? {
        description := rooms[currentRoom.value].lookDescription;
      }
    }

    /** Searching the current room, as GameSpec.Search says: nothing
        happens without a current room or while an unlock awaits the
        click, an empty room yields the fixed text, and otherwise the
        items are collected. */
    method HandleSearchAction()
      requires Valid()
      modifies this, rooms.Values
      ensures Valid()
      ensures State() == Search(texts, old(State()))
    {
      if pending.Some? || currentRoom.None? {
        return;
      }
      var room := rooms[currentRoom.value];
      if room.items == [] {
        description := NothingFound;
        return;
      }
      CollectRoom(room);
    }

    /** Searching a current room that has items: the items are snapshot,
        collected and narrated, and then the room is emptied. */
    method CollectRoom(room: Room)
      requires Valid() && pending.None? && currentRoom == Some(room.name)
      requires room.name in rooms && rooms[room.name] == room && room.items != []
      modifies this, room
      ensures Valid()
      ensures State() == Search(texts, old(State()))
    {
      ghost var s := State();
      var items := room.items;
      ghost var d := Discover(foundItems, items);
      ghost var after := s.rooms[room.name := room.Data().(items := [])];
      TakeItems(items);
      EmptyRoom(room);
      assert RoomStates() == after;
      assert currentRoom == s.current && pending == s.pending && exitsMenu == s.exits;
      assert State() == GameState(after, s.current, s.inventory + items, d.found, s.pending,
                                  Trim(Narration(texts.discovery, d.narrated)), s.exits);
    }

    /** The items of a search go to the inventory, the new ones are
        recorded as discovered, and their narration is shown. */
    method TakeItems(items: seq<string>)
      modifies this
      ensures inventory == old(inventory) + items
      ensures foundItems == Discover(old(foundItems), items).found
      ensures description == Trim(Narration(texts.discovery, Discover(old(foundItems), items).narrated))
      ensures currentRoom == old(currentRoom) && pending == old(pending) && exitsMenu == old(exitsMenu)
      ensures RoomStates() == old(RoomStates())
    {
      var foundItemsDescription;
      inventory, foundItems, foundItemsDescription :=
        CollectItems(inventory, foundItems, texts.discovery, items);
      description := Trim(foundItemsDescription);
    }

    /** Unlocking one registered room changes that room's record and no
        other, since no other name holds the same room. */
    method UnlockRoom(room: Room)
      requires Valid() && room.name in rooms && rooms[room.name] == room
      modifies room
      ensures RoomStates() == old(RoomStates())[room.name := old(room.Data()).(locked := false)]
    {
      room.Unlock();
      assert forall k :: k in rooms && k != room.name ==> rooms[k] != room;
    }

    /** Emptying one registered room changes that room's record and no
        other. */
    method EmptyRoom(room: Room)
      requires Valid() && room.name in rooms && rooms[room.name] == room
      modifies room
      ensures RoomStates() == old(RoomStates())[room.name := old(room.Data()).(items := [])]
    {
      room.ClearItems();
      assert forall k :: k in rooms && k != room.name ==> rooms[k] != room;
    }
  }
}
