// The rules of the text adventure, as functions on a snapshot of the game:
// where the player is, what lies in each location, what every player holds
// and which messages wait in their output queues. The handlers of
// dialog_game.dfy are proved to change the game exactly as these say.
module GameRules {
  import opened GoStrings
  import opened Slices

  /** A player's output queue holds at most this many pending messages. */
  const OutputCapacity: nat := 10

  const UnknownCommand: string := "неизвестная команда"

  const Kitchen: string := "кухня"
  const Corridor: string := "коридор"
  const Room: string := "комната"
  const Street: string := "улица"
  const Home: string := "домой"

  const Backpack: string := "рюкзак"
  const Keys: string := "ключи"
  const Notes: string := "конспекты"
  const Door: string := "дверь"

  const KitchenReady: string := "ты находишься на кухне, на столе чай, надо идти в универ"
  const KitchenStart: string := "ты находишься на кухне, на столе чай, надо собрать рюкзак и идти в универ"
  const EmptyRoom: string := "пустая комната"
  const NoSuchPlayer: string := "тут нет такого игрока"
  const DoorOpened: string := "дверь открыта"
  const NothingToApplyTo: string := "не к чему применить"

  function NotCarried(item: string): string {
    "нет предмета в инвентаре - " + item
  }

  /** SendMessage on the queue: appended while there is room, dropped
      otherwise; it never waits. */
  function Enqueue(queue: seq<string>, message: string): seq<string> {
    if |queue| < OutputCapacity then queue + [message] else queue
  }

  /** A queue within its capacity stays within it; earlier messages stay in
      place, and the message is lost exactly when the queue is full. */
  lemma EnqueueMeaning(queue: seq<string>, message: string)
    requires |queue| <= OutputCapacity
    ensures |Enqueue(queue, message)| <= OutputCapacity
    ensures Enqueue(queue, message)[..|queue|] == queue
    ensures Enqueue(queue, message) == queue <==> |queue| == OutputCapacity
    ensures |queue| < OutputCapacity ==> Enqueue(queue, message)[|queue|] == message
  {
  }

  // ---------------------------------------------------------------------
  // The world

  /** A location: its fixed description and exits, and the items lying
      there. */
  datatype Location = Location(description: string, exits: seq<string>, items: seq<string>)

  /** The world of a new game. */
  function InitialLocations(): map<string, Location> {
    map[
      Kitchen := Location(KitchenStart, [Corridor], []),
      Corridor := Location("ничего интересного", [Kitchen, Room, Street], []),
      Room := Location("ты в своей комнате", [Corridor], [Keys, Notes, Backpack]),
      Street := Location("на улице весна", [Home], [])
    ]
  }

  /** What the game knows of a player: where they are, what they wear and
      carry, and the messages waiting in their output queue. */
  datatype PlayerState = PlayerState(location: string, wearing: seq<string>, inventory: seq<string>, output: seq<string>)

  /** A new player: in the kitchen, wearing and carrying nothing. */
  const NewPlayerState: PlayerState := PlayerState(Kitchen, [], [], [])

  /** The game: the door, the locations, and the players by name. */
  datatype World = World(doorOpen: bool, locations: map<string, Location>, players: map<string, PlayerState>)

  /** A new game: the door is closed and nobody plays yet. */
  const NewWorld: World := World(false, InitialLocations(), map[])

  /** The named player is registered and stands in a known location. */
  predicate PlayerAt(w: World, name: string) {
    name in w.players && w.players[name].location in w.locations
  }

  /** Every player stands in a known location, and every queue is within
      its capacity. */
  predicate WorldValid(w: World) {
    forall name :: name in w.players ==>
      w.players[name].location in w.locations && |w.players[name].output| <= OutputCapacity
  }

  /** One message to one player. */
  function Tell(w: World, name: string, message: string): World
    requires name in w.players
  {
    var p := w.players[name];
    w.(players := w.players[name := p.(output := Enqueue(p.output, message))])
  }

  /** A location's items replaced. */
  function WithItems(w: World, place: string, items: seq<string>): World
    requires place in w.locations
  {
    w.(locations := w.locations[place := w.locations[place].(items := items)])
  }

  /** A player moved to a location. */
  function Relocated(w: World, name: string, direction: string): World
    requires name in w.players
  {
    w.(players := w.players[name := w.players[name].(location := direction)])
  }

  /** An item appended to a player's inventory. */
  function Stowed(w: World, name: string, item: string): World
    requires name in w.players
  {
    w.(players := w.players[name := w.players[name].(inventory := w.players[name].inventory + [item])])
  }

  /** An item appended to what a player wears. */
  function Donned(w: World, name: string, item: string): World
    requires name in w.players
  {
    w.(players := w.players[name := w.players[name].(wearing := w.players[name].wearing + [item])])
  }

  // ---------------------------------------------------------------------
  // Items

  /** The test of removeItem: keep what is not the item. */
  function Other(item: string): string -> bool {
    (x: string) => x != item
  }

  /** The test of the chair: the backpack. */
  function Same(item: string): string -> bool {
    (x: string) => x == item
  }

  /** removeItem: the list without any copy of the item, the rest in order. */
  function Without(items: seq<string>, item: string): seq<string> {
    Filter(items, Other(item))
  }

  /** Removing an item drops every copy of it and keeps every other element,
      in order; removing from a list without it changes nothing. */
  lemma WithoutMeaning(items: seq<string>, item: string, a: seq<string>, b: seq<string>)
    ensures forall x :: x in Without(items, item) <==> x in items && x != item
    ensures Without(a + b, item) == Without(a, item) + Without(b, item)
    ensures item !in items ==> Without(items, item) == items
  {
    FilterMeaning(items, Other(item));
    FilterAppend(a, b, Other(item));
    if item !in items {
      FilterAll(items, Other(item));
    }
  }

  /** Keeping the copies of an item that occurs once leaves just it. */
  lemma {:induction false} SameOnce(items: seq<string>, item: string)
    requires multiset(items)[item] == 1
    ensures Filter(items, Same(item)) == [item]
    decreases |items|
  {
    var init, last := items[..|items| - 1], items[|items| - 1];
    assert items == init + [last];
    if last == item {
      forall k | 0 <= k < |init| ensures init[k] != item {
        assert init[k] in multiset(init);
      }
      FilterNone(init, Same(item));
    } else {
      SameOnce(init, item);
    }
  }

  /** formatRoomItems: "пустая комната" for no items; otherwise what lies
      on the table (everything but the backpack), then the backpack on the
      chair, leaving out an empty part. */
  function RoomText(items: seq<string>): string {
    if |items| == 0 then EmptyRoom
    else
      var tableItems, chairItems := Filter(items, Other(Backpack)), Filter(items, Same(Backpack));
      Join((if |tableItems| > 0 then ["на столе: " + Join(tableItems, ", ")] else []) +
           (if |chairItems| > 0 then ["на стуле - " + Join(chairItems, ", ")] else []), ", ")
  }

  /** Without the backpack the room's text names the table's items in
      order. */
  lemma RoomTextTable(items: seq<string>)
    requires Backpack !in items && |items| > 0
    ensures RoomText(items) == "на столе: " + Join(items, ", ")
  {
    FilterAll(items, Other(Backpack));
    FilterNone(items, Same(Backpack));
  }

  /** With the backpack (once) the chair follows the table, and stands
      alone when nothing else lies in the room. */
  lemma RoomTextChair(items: seq<string>)
    requires multiset(items)[Backpack] == 1
    ensures |items| > 1 ==>
              RoomText(items) == "на столе: " + Join(Without(items, Backpack), ", ") + ", на стуле - " + Backpack
    ensures |items| == 1 ==> RoomText(items) == "на стуле - " + Backpack
  {
    var table := Without(items, Backpack);
    SplitOnce(items, Backpack);
    var chairPart := "на стуле - " + Join([Backpack], ", ");
    if |items| > 1 {
      var tablePart := "на столе: " + Join(table, ", ");
      assert RoomText(items) == Join([tablePart, chairPart], ", ");
      JoinTwo(tablePart, chairPart, ", ");
    } else {
      assert RoomText(items) == Join([chairPart], ", ");
    }
  }

  /** An item that occurs once: keeping its copies gives it alone, and
      removing it shortens the list by one. */
  lemma SplitOnce(items: seq<string>, item: string)
    requires multiset(items)[item] == 1
    ensures Filter(items, Same(item)) == [item]
    ensures |Without(items, item)| + 1 == |items|
  {
    SameOnce(items, item);
    WithoutOnce(items, item);
    assert |multiset(Without(items, item))| + 1 == |multiset(items)|;
  }

  /** Two parts joined: the separator between them. */
  lemma JoinTwo(a: string, b: string, sep: string)
    ensures Join([a, b], sep) == a + sep + b
  {
    assert [a, b][1..] == [b];
  }

  // ---------------------------------------------------------------------
  // Looking around

  /** The other players in the same location, in some order, each once. */
  ghost predicate IsOthers(w: World, name: string, others: seq<string>)
    requires name in w.players
  {
    && (forall n :: n in others <==> n in w.players && n != name && w.players[n].location == w.players[name].location)
    && (forall i, j :: 0 <= i < j < |others| ==> others[i] != others[j])
  }

  /** What a player sees of the location: the kitchen reminds them of the
      backpack until they carry the keys and the notes; the room lists its
      items; elsewhere the stored description. */
  function Description(w: World, name: string): string
    requires PlayerAt(w, name)
  {
    var p := w.players[name];
    if p.location == Kitchen then
      if Keys in p.inventory && Notes in p.inventory then KitchenReady else KitchenStart
    else if p.location == Room then
      var items := w.locations[Room].items;
      if |items| == 0 then EmptyRoom else RoomText(items)
    else w.locations[p.location].description
  }

  /** handleLook's message: the description, the exits, and the other
      players here when there are any. */
  function LookMessage(w: World, name: string, others: seq<string>): string
    requires PlayerAt(w, name)
  {
    var exits := w.locations[w.players[name].location].exits;
    var message := Description(w, name) + ". можно пройти - " + Join(exits, ", ");
    if |others| > 0 then message + ". Кроме вас тут ещё " + Join(others, ", ") else message
  }

  /** handleLook: only the caller's queue changes. */
  function Look(w: World, name: string, others: seq<string>): (r: World)
    requires PlayerAt(w, name)
    ensures r.locations == w.locations && r.doorOpen == w.doorOpen && r.players.Keys == w.players.Keys
    ensures r.players[name].location == w.players[name].location
  {
    Tell(w, name, LookMessage(w, name, others))
  }

  /** The kitchen's text tells the player to pack exactly until the keys
      and the notes are both carried; nobody else is named when alone. */
  lemma LookMeaning(w: World, name: string, others: seq<string>)
    requires PlayerAt(w, name) && IsOthers(w, name, others)
    ensures w.players[name].location == Kitchen ==>
              (Description(w, name) == KitchenReady <==> Keys in w.players[name].inventory && Notes in w.players[name].inventory)
    ensures others == [] <==> forall n :: n in w.players && n != name ==> w.players[n].location != w.players[name].location
    ensures Look(w, name, others).locations == w.locations && Look(w, name, others).doorOpen == w.doorOpen
    ensures forall n :: n in w.players && n != name ==> Look(w, name, others).players[n] == w.players[n]
  {
    if others != [] {
      assert others[0] in others;
    }
  }

  // ---------------------------------------------------------------------
  // Moving

  /** A move that passes the checks ends in a location the game defines
      (an exit without a location stops the game). */
  predicate MoveDefined(w: World, name: string, direction: string)
    requires PlayerAt(w, name)
  {
    var exits := w.locations[w.players[name].location].exits;
    direction in exits && (direction == Street ==> w.doorOpen) ==> direction in w.locations
  }

  /** handleMove: only along an exit, and onto the street only through the
      open door; the new location's stored description and exits. */
  function Move(w: World, name: string, direction: string): (r: World)
    requires PlayerAt(w, name) && MoveDefined(w, name, direction)
    ensures r.locations == w.locations && r.doorOpen == w.doorOpen && r.players.Keys == w.players.Keys
    ensures r.players[name].location in w.locations
  {
    var exits := w.locations[w.players[name].location].exits;
    if direction !in exits then Tell(w, name, "нет пути в " + direction)
    else if direction == Street && !w.doorOpen then Tell(w, name, "дверь закрыта")
    else
      var there := w.locations[direction];
      Tell(Relocated(w, name, direction), name, there.description + ". можно пройти - " + Join(there.exits, ", "))
  }

  /** A move changes the caller's location only along an exit and, for the
      street, only through the open door; nothing but the caller changes. */
  lemma MoveMeaning(w: World, name: string, direction: string)
    requires PlayerAt(w, name) && MoveDefined(w, name, direction)
    ensures var after := Move(w, name, direction);
            && after.locations == w.locations && after.doorOpen == w.doorOpen
            && after.players.Keys == w.players.Keys
            && (forall n :: n in w.players && n != name ==> after.players[n] == w.players[n])
            && (after.players[name].location != w.players[name].location ==>
                  direction in w.locations[w.players[name].location].exits && (direction == Street ==> w.doorOpen))
            && (after.players[name].location == direction <==>
                  direction == w.players[name].location ||
                  (direction in w.locations[w.players[name].location].exits && (direction == Street ==> w.doorOpen)))
  {
  }

  /** "домой" is an exit of the street without a location of its own. */
  lemma HomeIsUndefined()
    ensures Home in InitialLocations()[Street].exits && Home !in InitialLocations()
  {
  }

  // ---------------------------------------------------------------------
  // Items: take, wear, use

  /** handleTake: needs the backpack worn (checked first), then the item in
      this location; it leaves the location and joins the inventory. */
  function Take(w: World, name: string, item: string): (r: World)
    requires PlayerAt(w, name)
    ensures r.doorOpen == w.doorOpen && r.players.Keys == w.players.Keys && r.locations.Keys == w.locations.Keys
    ensures r.players[name].location == w.players[name].location
  {
    var p := w.players[name];
    var here := w.locations[p.location];
    if Backpack !in p.wearing then Tell(w, name, "некуда класть")
    else if item !in here.items then Tell(w, name, "нет такого")
    else
      var after := Stowed(WithItems(w, p.location, Without(here.items, item)), name, item);
      Tell(after, name, "предмет добавлен в инвентарь: " + item)
  }

  /** handleWear: needs the item in this location only (no backpack); it
      leaves the location and is worn. */
  function Wear(w: World, name: string, item: string): (r: World)
    requires PlayerAt(w, name)
    ensures r.doorOpen == w.doorOpen && r.players.Keys == w.players.Keys && r.locations.Keys == w.locations.Keys
    ensures r.players[name].location == w.players[name].location
  {
    var p := w.players[name];
    var here := w.locations[p.location];
    if item !in here.items then Tell(w, name, "нет такого")
    else
      var after := Donned(WithItems(w, p.location, Without(here.items, item)), name, item);
      Tell(after, name, "вы одели: " + item)
  }

  /** A take that succeeds moves a single item from the location to the
      inventory, so the two together still hold the same items; a refused
      one changes nothing but the caller's queue. */
  lemma TakeConserves(w: World, name: string, item: string)
    requires PlayerAt(w, name)
    requires multiset(w.locations[w.players[name].location].items)[item] <= 1
    ensures var loc, p := w.players[name].location, w.players[name];
            var took := Take(w, name, item);
            && multiset(took.locations[loc].items) + multiset(took.players[name].inventory) ==
               multiset(w.locations[loc].items) + multiset(p.inventory)
            && (took.players[name].inventory != p.inventory <==> Backpack in p.wearing && item in w.locations[loc].items)
            && took.players[name].location == loc && took.players[name].wearing == p.wearing
            && (forall n :: n in w.players && n != name ==> took.players[n] == w.players[n])
            && (forall l :: l in w.locations && l != loc ==> took.locations[l] == w.locations[l])
  {
    var p := w.players[name];
    var items := w.locations[p.location].items;
    if Backpack !in p.wearing {
      assert Take(w, name, item) == Tell(w, name, "некуда класть");
    } else if item !in items {
      assert Take(w, name, item) == Tell(w, name, "нет такого");
    } else {
      WithoutOnce(items, item);
      var after := Stowed(WithItems(w, p.location, Without(items, item)), name, item);
      assert Take(w, name, item) == Tell(after, name, "предмет добавлен в инвентарь: " + item);
    }
  }

  /** A wear that succeeds moves a single item from the location to what the
      player wears; a refused one changes nothing but the caller's queue. */
  lemma WearConserves(w: World, name: string, item: string)
    requires PlayerAt(w, name)
    requires multiset(w.locations[w.players[name].location].items)[item] <= 1
    ensures var loc, p := w.players[name].location, w.players[name];
            var wore := Wear(w, name, item);
            && multiset(wore.locations[loc].items) + multiset(wore.players[name].wearing) ==
               multiset(w.locations[loc].items) + multiset(p.wearing)
            && (wore.players[name].wearing != p.wearing <==> item in w.locations[loc].items)
            && wore.players[name].location == loc && wore.players[name].inventory == p.inventory
            && (forall n :: n in w.players && n != name ==> wore.players[n] == w.players[n])
            && (forall l :: l in w.locations && l != loc ==> wore.locations[l] == w.locations[l])
  {
    var loc := w.players[name].location;
    var items := w.locations[loc].items;
    if item in items {
      WithoutOnce(items, item);
    }
  }

  /** Removing an item that occurs once takes exactly one copy away. */
  lemma {:induction false} WithoutOnce(items: seq<string>, item: string)
    requires multiset(items)[item] == 1
    ensures multiset(Without(items, item)) + multiset{item} == multiset(items)
    decreases |items|
  {
    var init, last := items[..|items| - 1], items[|items| - 1];
    assert items == init + [last];
    assert Without(items, item) == Without(init, item) + (if last != item then [last] else []);
    if last == item {
      assert multiset(init)[item] == 0;
      WithoutMeaning(init, item, [], []);
      FilterAll(init, Other(item));
    } else {
      WithoutOnce(init, item);
    }
  }

  /** handleUse: the item must be carried; the keys open the door, nothing
      else applies to anything. */
  function Use(w: World, name: string, item: string, target: string): (r: World)
    requires name in w.players
    ensures r.locations == w.locations && r.players.Keys == w.players.Keys
    ensures r.doorOpen <==> w.doorOpen || (item == Keys && target == Door && Keys in w.players[name].inventory)
  {
    if item !in w.players[name].inventory then Tell(w, name, NotCarried(item))
    else if item == Keys && target == Door then Tell(w.(doorOpen := true), name, DoorOpened)
    else Tell(w, name, NothingToApplyTo)
  }

  // ---------------------------------------------------------------------
  // Talking

  /** handleSay: every player in the speaker's location hears it, the
      speaker too. */
  function Say(w: World, name: string, message: string): (r: World)
    requires name in w.players
    ensures r.locations == w.locations && r.doorOpen == w.doorOpen && r.players.Keys == w.players.Keys
  {
    Announce(w, w.players[name].location, name + " говорит: " + message, w.players.Keys)
  }

  /** The line delivered to those of `heard` who stand at `here`. */
  function Announce(w: World, here: string, line: string, heard: set<string>): World {
    w.(players := map n | n in w.players ::
                    if n in heard && w.players[n].location == here
                    then w.players[n].(output := Enqueue(w.players[n].output, line))
                    else w.players[n])
  }

  /** Nobody has heard the line yet: nothing changed. */
  lemma AnnounceNone(w: World, here: string, line: string)
    ensures Announce(w, here, line, {}) == w
  {
    assert Announce(w, here, line, {}).players == w.players;
  }

  /** One more player reached: the line is told to them when they stand
      here, and nothing changes otherwise. */
  lemma AnnounceStep(w: World, here: string, line: string, heard: set<string>, n: string)
    requires n in w.players && n !in heard
    ensures Announce(w, here, line, heard).players[n] == w.players[n]
    ensures Announce(w, here, line, heard + {n}) ==
              if w.players[n].location == here then Tell(Announce(w, here, line, heard), n, line)
              else Announce(w, here, line, heard)
  {
    var before, after := Announce(w, here, line, heard), Announce(w, here, line, heard + {n});
    if w.players[n].location == here {
      assert after.players == Tell(before, n, line).players;
    } else {
      assert after.players == before.players;
    }
  }

  /** handleSayToPlayer: only to a player in the same location; silence has
      its own line; a target who is not here makes the speaker hear so. */
  function SayTo(w: World, name: string, target: string, message: string): (r: World)
    requires name in w.players
    ensures r.locations == w.locations && r.doorOpen == w.doorOpen && r.players.Keys == w.players.Keys
    ensures forall n :: n in w.players && n != name && n != target ==> r.players[n] == w.players[n]
  {
    if target !in w.players || w.players[target].location != w.players[name].location then Tell(w, name, NoSuchPlayer)
    else if message == "" then Tell(w, target, name + " выразительно молчит, смотря на вас")
    else Tell(w, target, name + " говорит вам: " + message)
  }

  /** What one player receives from a say: one line if they share the
      speaker's location, nothing otherwise. */
  lemma SayMeaning(w: World, name: string, message: string, n: string)
    requires name in w.players && n in w.players
    ensures var heard := Say(w, name, message).players[n];
            && heard.location == w.players[n].location && heard.wearing == w.players[n].wearing
            && heard.inventory == w.players[n].inventory
            && heard.output == if w.players[n].location == w.players[name].location
                               then Enqueue(w.players[n].output, name + " говорит: " + message)
                               else w.players[n].output
    ensures Say(w, name, message).players.Keys == w.players.Keys
  {
  }

  /** A private message reaches only its target, and only in the same
      location; the speaker hears back otherwise. */
  lemma SayToMeaning(w: World, name: string, target: string, message: string, n: string)
    requires name in w.players && n in w.players
    ensures var here := target in w.players && w.players[target].location == w.players[name].location;
            var after := SayTo(w, name, target, message);
            && after.locations == w.locations && after.doorOpen == w.doorOpen
            && (n != target && n != name ==> after.players[n] == w.players[n])
            && (!here ==> after == Tell(w, name, NoSuchPlayer))
            && (here && message == "" ==>
                  after.players[target].output == Enqueue(w.players[target].output, name + " выразительно молчит, смотря на вас"))
  {
  }

  // ---------------------------------------------------------------------
  // Commands

  datatype Command =
    | Unknown
    | LookAround
    | Go(direction: string)
    | TakeItem(item: string)
    | WearItem(item: string)
    | Apply(item: string, target: string)
    | SayAll(message: string)
    | SayToPlayer(target: string, message: string)

  /** HandleCommand's parse: the command's words; the first picks the
      handler, and a handler missing its words is an unknown command. */
  function Parse(command: string): Command {
    Dispatch(Fields(command))
  }

  /** The handler the words of a command pick. */
  function Dispatch(parts: seq<string>): Command {
    if |parts| == 0 then Unknown
    else
      var cmd := parts[0];
      if cmd == "осмотреться" then LookAround
      else if cmd == "идти" then (if |parts| < 2 then Unknown else Go(parts[1]))
      else if cmd == "взять" then (if |parts| < 2 then Unknown else TakeItem(parts[1]))
      else if cmd == "одеть" then (if |parts| < 2 then Unknown else WearItem(parts[1]))
      else if cmd == "применить" then (if |parts| < 3 then Unknown else Apply(parts[1], parts[2]))
      else if cmd == "сказать" then (if |parts| < 2 then Unknown else SayAll(Join(parts[1..], " ")))
      else if cmd == "сказать_игроку" then
        (if |parts| < 2 then Unknown else SayToPlayer(parts[1], if |parts| > 2 then Join(parts[2..], " ") else ""))
      else Unknown
  }

  /** A blank command is unknown, and so is a verb alone that needs an
      argument. */
  lemma ParseUnknown(command: string, verb: string)
    ensures AllSpace(command) ==> Parse(command) == Unknown
    ensures Fields(command) == [verb] && verb in ["идти", "взять", "одеть", "применить", "сказать", "сказать_игроку"] ==>
              Parse(command) == Unknown
  {
    FieldsEmpty(command);
  }

  /** "сказать" passes the rest of the words joined by single spaces,
      whatever spacing the player typed; "сказать_игроку" with a name alone
      says nothing. */
  lemma ParseSay(words: seq<string>)
    requires forall k :: 0 <= k < |words| ==> |words[k]| > 0
    requires forall k, j :: 0 <= k < |words| && 0 <= j < |words[k]| ==> !IsSpace(words[k][j])
    ensures |words| > 1 && words[0] == "сказать" ==> Parse(Join(words, " ")) == SayAll(Join(words[1..], " "))
    ensures |words| == 2 && words[0] == "сказать_игроку" ==> Parse(Join(words, " ")) == SayToPlayer(words[1], "")
  {
    FieldsJoin(words);
    DispatchSay(words);
  }

  lemma DispatchSay(words: seq<string>)
    ensures |words| > 1 && words[0] == "сказать" ==> Dispatch(words) == SayAll(Join(words[1..], " "))
    ensures |words| == 2 && words[0] == "сказать_игроку" ==> Dispatch(words) == SayToPlayer(words[1], "")
  {
  }

  /** The call needs a registered caller in a known location, and a move
      that passes the checks needs a defined target. */
  predicate StepDefined(w: World, name: string, cmd: Command) {
    PlayerAt(w, name) && (cmd.Go? ==> MoveDefined(w, name, cmd.direction))
  }

  /** The game after one command of the named player; `others` is the order
      in which a look lists the other players. */
  function Step(w: World, name: string, cmd: Command, others: seq<string>): (r: World)
    requires StepDefined(w, name, cmd)
    ensures r.players.Keys == w.players.Keys && r.locations.Keys == w.locations.Keys
    ensures w.doorOpen ==> r.doorOpen
  {
    match cmd
    case Unknown => Tell(w, name, UnknownCommand)
    case LookAround => Look(w, name, others)
    case Go(direction) => Move(w, name, direction)
    case TakeItem(item) => Take(w, name, item)
    case WearItem(item) => Wear(w, name, item)
    case Apply(item, target) => Use(w, name, item, target)
    case SayAll(message) => Say(w, name, message)
    case SayToPlayer(target, message) => SayTo(w, name, target, message)
  }

  /** What every command keeps: who plays, which locations exist, a valid
      game and an open door. */
  predicate Keeps(w: World, after: World) {
    && after.players.Keys == w.players.Keys
    && after.locations.Keys == w.locations.Keys
    && WorldValid(after)
    && (w.doorOpen ==> after.doorOpen)
  }

  lemma TellKeeps(w: World, name: string, message: string)
    requires WorldValid(w) && name in w.players
    ensures Keeps(w, Tell(w, name, message)) && Tell(w, name, message).doorOpen == w.doorOpen
  {
    EnqueueMeaning(w.players[name].output, message);
  }

  lemma MoveKeeps(w: World, name: string, direction: string)
    requires WorldValid(w) && PlayerAt(w, name) && MoveDefined(w, name, direction)
    ensures Keeps(w, Move(w, name, direction)) && Move(w, name, direction).doorOpen == w.doorOpen
  {
    var exits := w.locations[w.players[name].location].exits;
    if direction in exits && (direction == Street ==> w.doorOpen) {
      var there := w.locations[direction];
      TellKeeps(Relocated(w, name, direction), name, there.description + ". можно пройти - " + Join(there.exits, ", "));
    } else {
      TellKeeps(w, name, "нет пути в " + direction);
      TellKeeps(w, name, "дверь закрыта");
    }
  }

  lemma TakeKeeps(w: World, name: string, item: string)
    requires WorldValid(w) && PlayerAt(w, name)
    ensures Keeps(w, Take(w, name, item)) && Take(w, name, item).doorOpen == w.doorOpen
  {
    var p := w.players[name];
    var here := w.locations[p.location];
    if Backpack in p.wearing && item in here.items {
      var after := Stowed(WithItems(w, p.location, Without(here.items, item)), name, item);
      TellKeeps(after, name, "предмет добавлен в инвентарь: " + item);
    } else {
      TellKeeps(w, name, "некуда класть");
      TellKeeps(w, name, "нет такого");
    }
  }

  lemma WearKeeps(w: World, name: string, item: string)
    requires WorldValid(w) && PlayerAt(w, name)
    ensures Keeps(w, Wear(w, name, item)) && Wear(w, name, item).doorOpen == w.doorOpen
  {
    var p := w.players[name];
    var here := w.locations[p.location];
    if item in here.items {
      var after := Donned(WithItems(w, p.location, Without(here.items, item)), name, item);
      TellKeeps(after, name, "вы одели: " + item);
    } else {
      TellKeeps(w, name, "нет такого");
    }
  }

  lemma UseKeeps(w: World, name: string, item: string, target: string)
    requires WorldValid(w) && name in w.players
    ensures Keeps(w, Use(w, name, item, target))
    ensures !w.doorOpen && Use(w, name, item, target).doorOpen ==>
              item == Keys && target == Door && Keys in w.players[name].inventory
  {
    TellKeeps(w, name, "нет предмета в инвентаре - " + item);
    TellKeeps(w.(doorOpen := true), name, "дверь открыта");
    TellKeeps(w, name, "не к чему применить");
  }

  lemma SayKeeps(w: World, name: string, message: string)
    requires WorldValid(w) && name in w.players
    ensures Keeps(w, Say(w, name, message)) && Say(w, name, message).doorOpen == w.doorOpen
  {
    var after := Say(w, name, message);
    forall n | n in after.players
      ensures after.players[n].location in after.locations && |after.players[n].output| <= OutputCapacity
    {
      EnqueueMeaning(w.players[n].output, name + " говорит: " + message);
    }
  }

  lemma SayToKeeps(w: World, name: string, target: string, message: string)
    requires WorldValid(w) && name in w.players
    ensures Keeps(w, SayTo(w, name, target, message)) && SayTo(w, name, target, message).doorOpen == w.doorOpen
  {
    TellKeeps(w, name, NoSuchPlayer);
    if target in w.players {
      TellKeeps(w, target, name + " выразительно молчит, смотря на вас");
      TellKeeps(w, target, name + " говорит вам: " + message);
    }
  }

  /** Every command keeps the game valid, never closes the door, never
      changes who plays, and opens the door only as the keys applied to it
      by a player who carries them. */
  lemma StepInvariants(w: World, name: string, cmd: Command, others: seq<string>)
    requires WorldValid(w) && StepDefined(w, name, cmd)
    ensures Keeps(w, Step(w, name, cmd, others))
    ensures !w.doorOpen && Step(w, name, cmd, others).doorOpen ==>
              cmd == Apply(Keys, Door) && Keys in w.players[name].inventory
  {
    match cmd
    case Unknown => TellKeeps(w, name, UnknownCommand);
    case LookAround => TellKeeps(w, name, LookMessage(w, name, others));
    case Go(direction) => MoveKeeps(w, name, direction);
    case TakeItem(item) => TakeKeeps(w, name, item);
    case WearItem(item) => WearKeeps(w, name, item);
    case Apply(item, target) => UseKeeps(w, name, item, target);
    case SayAll(message) => SayKeeps(w, name, message);
    case SayToPlayer(target, message) => SayToKeeps(w, name, target, message);
  }
}
