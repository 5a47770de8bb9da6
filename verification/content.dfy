/** The fixed content of the game: the room registry as the game window
    builds it at start-up, the one-time discovery narrations, the item
    inspection texts and the per-room custom lock and unlock narrations.
    The long prose of the game is represented by short labels; only the
    room topology, the item placement and the generic texts matter to the
    game logic. */
module Content {
  import opened Rooms

  // Labels standing for the game's prose.
  function Intro(room: string): string { room + ": entry narration" }
  function Survey(room: string): string { room + ": look narration" }

  /** The ending screen shows the same text on entry and on look. */
  const EndingText := "Small Door: ending narration"

  /** The rooms of the registry, in the order they are registered. */
  const FrontYard := RoomData("Front Yard", Intro("Front Yard"), Survey("Front Yard"),
    "file:src/resources/image/FrontYard.png", ["Front Hall"], false,
    ["Rusty Key", "Green Crystal"], [])
  const FrontHall := RoomData("Front Hall", Intro("Front Hall"), Survey("Front Hall"),
    "file:src/resources/image/FrontHall.png", ["Dining Room", "Parlor", "Upstairs Loft"], true,
    [], ["Rusty Key"])
  const Parlor := RoomData("Parlor", Intro("Parlor"), Survey("Parlor"),
    "file:src/resources/image/Parlor.png", ["Front Hall", "Piano"], true,
    [], ["Gold Key"])
  const DiningRoom := RoomData("Dining Room", Intro("Dining Room"), Survey("Dining Room"),
    "file:src/resources/image/DiningRoom.png", ["Front Hall", "Kitchen"], false,
    [], [])
  const Kitchen := RoomData("Kitchen", Intro("Kitchen"), Survey("Kitchen"),
    "file:src/resources/image/Kitchen.png", ["Dining Room", "Basement"], false,
    ["Red Crystal"], [])
  const Basement := RoomData("Basement", Intro("Basement"), Survey("Basement"),
    "file:src/resources/image/Basement.png", ["Kitchen", "Wine Cellar"], false,
    [], [])
  const WineCellar := RoomData("Wine Cellar", Intro("Wine Cellar"), Survey("Wine Cellar"),
    "file:src/resources/image/WineCellar.png", ["Basement"], true,
    ["Infernal Metal"], ["Silver Key"])
  const UpstairsLoft := RoomData("Upstairs Loft", Intro("Upstairs Loft"), Survey("Upstairs Loft"),
    "file:src/resources/image/Upstairs.png",
    ["Front Hall", "Master Bedroom", "Guest Bedroom", "Servants Quarters"], false,
    [], [])
  const MasterBedroom := RoomData("Master Bedroom", Intro("Master Bedroom"), Survey("Master Bedroom"),
    "file:src/resources/image/MasterBedroom.png", ["Library", "Upstairs Loft", "Small Washroom"], true,
    [], ["Gold Coin"])
  const Library := RoomData("Library", Intro("Library"), Survey("Library"),
    "file:src/resources/image/LibraryRoom.png", ["Master Bedroom"], false,
    ["Gold Key"], [])
  const SmallWashroom := RoomData("Small Washroom", Intro("Small Washroom"), Survey("Small Washroom"),
    "file:src/resources/image/Washroom.png", ["Master Bedroom"], false,
    ["Glass Eye"], [])
  const GuestBedroom := RoomData("Guest Bedroom", Intro("Guest Bedroom"), Survey("Guest Bedroom"),
    "file:src/resources/image/GuestBedroom.png", ["Closet Stairway", "Upstairs Loft"], false,
    [], [])
  const ClosetStairway := RoomData("Closet Stairway", Intro("Closet Stairway"), Survey("Closet Stairway"),
    "file:src/resources/image/Stairway.png", ["Attic", "Guest Bedroom"], false,
    [], [])
  const Attic := RoomData("Attic", Intro("Attic"), Survey("Attic"),
    "file:src/resources/image/Attic.png", ["Closet Stairway"], false,
    ["Gold Coin"], [])
  const ServantsQuarters := RoomData("Servants Quarters", Intro("Servants Quarters"), Survey("Servants Quarters"),
    "file:src/resources/image/ServantBedroom.png", ["Upstairs Loft"], false,
    ["Silver Key"], [])
  const Piano := RoomData("Piano", Intro("Piano"), Survey("Piano"),
    "file:src/resources/image/Hallway.png", ["Small Door"], true,
    [], ["Red Crystal", "Green Crystal", "Infernal Metal", "Glass Eye"])
  const SmallDoor := RoomData("Small Door", EndingText, EndingText,
    "file:src/resources/image/EndScreen.png", [], false,
    [], [])

  /** The template for adding rooms: it is built but never registered. */
  const Placeholder := RoomData("Placeholder", "Placeholder", "Placeholder",
    "file:src/resources/image/temp.png", [], false, [], [])

  /** The registry: room name to the values the room is built from. */
  function Registry(): map<string, RoomData>
  {
    map[
      "Front Yard" := FrontYard,
      "Front Hall" := FrontHall,
      "Parlor" := Parlor,
      "Dining Room" := DiningRoom,
      "Kitchen" := Kitchen,
      "Basement" := Basement,
      "Wine Cellar" := WineCellar,
      "Upstairs Loft" := UpstairsLoft,
      "Master Bedroom" := MasterBedroom,
      "Library" := Library,
      "Small Washroom" := SmallWashroom,
      "Guest Bedroom" := GuestBedroom,
      "Closet Stairway" := ClosetStairway,
      "Attic" := Attic,
      "Servants Quarters" := ServantsQuarters,
      "Piano" := Piano,
      "Small Door" := SmallDoor
    ]
  }

  /** The rooms in the order the registry receives them. */
  function RoomTable(): seq<RoomData>
  {
    [FrontYard, FrontHall, Parlor, DiningRoom, Kitchen, Basement, WineCellar, UpstairsLoft,
     MasterBedroom, Library, SmallWashroom, GuestBedroom, ClosetStairway, Attic,
     ServantsQuarters, Piano, SmallDoor]
  }

  /** The map that results from putting each room of `table` under its
      name, one after the other. */
  function Registered(table: seq<RoomData>): map<string, RoomData>
  {
    if table == [] then map[]
    else Registered(table[..|table| - 1])[table[|table| - 1].name := table[|table| - 1]]
  }

  /** Putting one more room adds it under its name. */
  lemma RegisteredStep(table: seq<RoomData>, i: nat)
    requires i < |table|
    ensures Registered(table[..i + 1]) == Registered(table[..i])[table[i].name := table[i]]
  {
    assert table[..i + 1][..i] == table[..i];
  }

  /** The first four puts. */
  lemma RegistryFirstFour()
    ensures Registered(RoomTable()[..4]) ==
      map[
        "Front Yard" := FrontYard,
        "Front Hall" := FrontHall,
        "Parlor" := Parlor,
        "Dining Room" := DiningRoom
      ]
  {
    var t := RoomTable();
    assert t[0] == FrontYard;
    RegisteredStep(t, 0);
    assert t[1] == FrontHall;
    RegisteredStep(t, 1);
    assert t[2] == Parlor;
    RegisteredStep(t, 2);
    assert t[3] == DiningRoom;
    RegisteredStep(t, 3);
  }

  /** The first eight puts. */
  lemma RegistryFirstEight()
    ensures Registered(RoomTable()[..8]) ==
      map[
        "Front Yard" := FrontYard,
        "Front Hall" := FrontHall,
        "Parlor" := Parlor,
        "Dining Room" := DiningRoom,
        "Kitchen" := Kitchen,
        "Basement" := Basement,
        "Wine Cellar" := WineCellar,
        "Upstairs Loft" := UpstairsLoft
      ]
  {
    var t := RoomTable();
    RegistryFirstFour();
    assert t[4] == Kitchen;
    RegisteredStep(t, 4);
    assert t[5] == Basement;
    RegisteredStep(t, 5);
    assert t[6] == WineCellar;
    RegisteredStep(t, 6);
    assert t[7] == UpstairsLoft;
    RegisteredStep(t, 7);
  }

  /** The first twelve puts. */
  lemma RegistryFirstTwelve()
    ensures Registered(RoomTable()[..12]) ==
      map[
        "Front Yard" := FrontYard,
        "Front Hall" := FrontHall,
        "Parlor" := Parlor,
        "Dining Room" := DiningRoom,
        "Kitchen" := Kitchen,
        "Basement" := Basement,
        "Wine Cellar" := WineCellar,
        "Upstairs Loft" := UpstairsLoft,
        "Master Bedroom" := MasterBedroom,
        "Library" := Library,
        "Small Washroom" := SmallWashroom,
        "Guest Bedroom" := GuestBedroom
      ]
  {
    var t := RoomTable();
    RegistryFirstEight();
    assert t[8] == MasterBedroom;
    RegisteredStep(t, 8);
    assert t[9] == Library;
    RegisteredStep(t, 9);
    assert t[10] == SmallWashroom;
    RegisteredStep(t, 10);
    assert t[11] == GuestBedroom;
    RegisteredStep(t, 11);
  }

  /** The first fourteen puts. */
  lemma RegistryFirstFourteen()
    ensures Registered(RoomTable()[..14]) ==
      map[
        "Front Yard" := FrontYard,
        "Front Hall" := FrontHall,
        "Parlor" := Parlor,
        "Dining Room" := DiningRoom,
        "Kitchen" := Kitchen,
        "Basement" := Basement,
        "Wine Cellar" := WineCellar,
        "Upstairs Loft" := UpstairsLoft,
        "Master Bedroom" := MasterBedroom,
        "Library" := Library,
        "Small Washroom" := SmallWashroom,
        "Guest Bedroom" := GuestBedroom,
        "Closet Stairway" := ClosetStairway,
        "Attic" := Attic
      ]
  {
    var t := RoomTable();
    RegistryFirstTwelve();
    assert t[12] == ClosetStairway;
    RegisteredStep(t, 12);
    assert t[13] == Attic;
    RegisteredStep(t, 13);
  }

  /** Putting the rooms one by one builds the registry. */
  lemma RegistryFromTable()
    ensures Registered(RoomTable()) == Registry()
  {
    var t := RoomTable();
    RegistryFirstFourteen();
    assert t[14] == ServantsQuarters;
    RegisteredStep(t, 14);
    assert t[15] == Piano;
    RegisteredStep(t, 15);
    assert t[16] == SmallDoor;
    RegisteredStep(t, 16);
    assert t[..17] == t;
  }

  /** The one-time narration shown when an item is first discovered. */
  function DiscoveryTexts(): map<string, string>
  {
    map[
      "Rusty Key" := "Rusty Key: discovery narration",
      "Green Crystal" := "Green Crystal: discovery narration",
      "Red Crystal" := "Red Crystal: discovery narration",
      "Infernal Metal" := "Infernal Metal: discovery narration",
      "Glass Eye" := "Glass Eye: discovery narration",
      "Silver Key" := "Silver Key: discovery narration",
      "Gold Coin" := "Gold Coin: discovery narration",
      "Gold Key" := "Gold Key: discovery narration"
    ]
  }

  /** Custom narration shown when a room is unlocked. */
  function UnlockTexts(): map<string, string>
  {
    map[
      "Front Hall" := "Front Hall: unlock narration\n\n(Click to continue...)",
      "Master Bedroom" := "Master Bedroom: unlock narration\n\n(Click to continue...)",
      "Wine Cellar" := "Wine Cellar: unlock narration\n\n(Click to continue...)",
      "Parlor" := "Parlor: unlock narration\n\n(Click to continue...)",
      "Piano" := "Piano: unlock narration\n\n(Click to continue...)"
    ]
  }

  /** Custom narration shown when a locked room cannot be opened yet. */
  function LockedTexts(): map<string, string>
  {
    map[
      "Front Hall" := "Front Hall: locked narration",
      "Master Bedroom" := "Master Bedroom: locked narration",
      "Wine Cellar" := "Wine Cellar: locked narration",
      "Parlor" := "Parlor: locked narration",
      "Piano" := "Piano: locked narration"
    ]
  }

  /** The narration tables of the game: one-time discovery narrations by
      item, and the custom unlock and locked narrations by room. */
  datatype Narrations = Narrations(
    discovery: map<string, string>,
    unlock: map<string, string>,
    locked: map<string, string>)

  function GameTexts(): Narrations
  {
    Narrations(DiscoveryTexts(), UnlockTexts(), LockedTexts())
  }

  /** The text shown when an inventory item is clicked. */
  function InspectTexts(): map<string, string>
  {
    map[
      "Green Crystal" := "Green Crystal: inspection text",
      "Rusty Key" := "Rusty Key: inspection text",
      "Red Crystal" := "Red Crystal: inspection text",
      "Infernal Metal" := "Infernal Metal: inspection text",
      "Glass Eye" := "Glass Eye: inspection text",
      "Gold Coin" := "Gold Coin: inspection text",
      "Silver Key" := "Silver Key: inspection text",
      "Gold Key" := "Gold Key: inspection text"
    ]
  }

  const MysteriousItem := "A mysterious item. You wonder what it could be used for. "

  /** Inspecting an item is total: a known item gets its own text, any
      other name the generic one, and no known item shares the generic
      text, so the fallback is shown exactly for the unknown names. */
  function Inspect(item: string): (text: string)
    ensures item in InspectTexts() ==> text == InspectTexts()[item]
    ensures text == MysteriousItem <==> item !in InspectTexts()
  {
    if item in InspectTexts() then InspectTexts()[item] else MysteriousItem
  }

  /** Every exit of every registered room names a registered room. */
  lemma RegistryExitsResolve()
    ensures forall k, e :: k in Registry() && e in Registry()[k].exits ==> e in Registry()
  {
  }

  /** Every item a locked room requires is placed in some room for the
      player to find. */
  lemma RegistryRequiredItemsPlaced()
    ensures forall k, x :: k in Registry() && Registry()[k].locked && x in Registry()[k].requiredItems ==>
      exists j :: j in Registry() && x in Registry()[j].items
  {
    var reg := Registry();
    assert "Rusty Key" in reg["Front Yard"].items;
    assert "Green Crystal" in reg["Front Yard"].items;
    assert "Red Crystal" in reg["Kitchen"].items;
    assert "Infernal Metal" in reg["Wine Cellar"].items;
    assert "Glass Eye" in reg["Small Washroom"].items;
    assert "Silver Key" in reg["Servants Quarters"].items;
    assert "Gold Coin" in reg["Attic"].items;
    assert "Gold Key" in reg["Library"].items;
  }

  /** Each room is registered under its own name. */
  lemma RegistryNames()
    ensures forall k :: k in Registry() ==> Registry()[k].name == k
  {
  }

  /** The template room is not registered. */
  lemma PlaceholderNotRegistered()
    ensures Placeholder.name !in Registry()
  {
  }

  /** Every locked room has both custom narrations. */
  lemma LockedRoomsNarrated()
    ensures forall k :: k in Registry() && Registry()[k].locked ==> k in UnlockTexts() && k in LockedTexts()
  {
  }
}
