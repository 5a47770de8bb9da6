/** A room of the mansion, as the game window builds and uses it: eight
    constructor arguments, of which only the locked flag and the list of
    discoverable items ever change. */
module Rooms {

  /** The eight values a room is built from, and (with `locked` and
      `items` read at some later moment) everything a room reports. */
  datatype RoomData = RoomData(
    name: string,
    initialDescription: string,
    lookDescription: string,
    imagePath: string,
    exits: seq<string>,
    locked: bool,
    items: seq<string>,
    requiredItems: seq<string>)

  /** Two records describe the same room layout when everything except the
      locked flag and the items is equal: name, both descriptions, image,
      exits and required items have no setter. */
  predicate SameLayout(a: RoomData, b: RoomData)
  {
    && a.name == b.name
    && a.initialDescription == b.initialDescription
    && a.lookDescription == b.lookDescription
    && a.imagePath == b.imagePath
    && a.exits == b.exits
    && a.requiredItems == b.requiredItems
  }

  class Room {
    const name: string
    const initialDescription: string
    const lookDescription: string
    const imagePath: string
    const exits: seq<string>
    var isLocked: bool
    var items: seq<string>
    const requiredItems: seq<string>

    /** Everything the room reports through its getters right now. */
    function Data(): RoomData
      reads this
    {
      RoomData(name, initialDescription, lookDescription, imagePath, exits,
               isLocked, items, requiredItems)
    }

    /** A new room reports exactly the values it was built from. */
    constructor (name: string, initialDescription: string, lookDescription: string,
                 imagePath: string, exits: seq<string>, isLocked: bool,
                 items: seq<string>, requiredItems: seq<string>)
      ensures Data() == RoomData(name, initialDescription, lookDescription, imagePath,
                                 exits, isLocked, items, requiredItems)
    {
      this.name := name;
      this.initialDescription := initialDescription;
      this.lookDescription := lookDescription;
      this.imagePath := imagePath;
      this.exits := exits;
      this.isLocked := isLocked;
      this.items := items;
      this.requiredItems := requiredItems;
    }

    /** Clears the locked flag and nothing else; calling it again changes
        nothing more, and no member of the class sets the flag back. */
    method Unlock()
      modifies this
      ensures Data() == old(Data()).(locked := false)
      ensures SameLayout(old(Data()), Data())
    {
      isLocked := false;
    }

    /** `getItems().clear()`: the room has no discoverable items left; the
        locked flag and the layout stay as they were. */
    method ClearItems()
      modifies this
      ensures Data() == old(Data()).(items := [])
      ensures SameLayout(old(Data()), Data())
    {
      items := [];
    }
  }
}
