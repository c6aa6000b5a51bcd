// The game server's objects: the players, whose fields the handlers update
// in place, and the game handler that holds the door, the locations and the
// players by name. Each handler is proved to change the game exactly as the
// rule of the same name in game_rules.dfy says, so what is proved there of
// the rules holds of the server.
module DialogGame {
  import opened Outcomes
  import opened GoStrings
  import opened Slices
  import opened MapIteration
  import opened GameRules

  class Player {
    const name: string
    var location: string
    var wearing: seq<string>
    var inventory: seq<string>
    /** The buffered output channel: the pending messages, oldest first. */
    var output: seq<string>

    ghost function State(): PlayerState
      reads this
    {
      PlayerState(location, wearing, inventory, output)
    }

    /** NewPlayer: in the kitchen, wearing and carrying nothing, with no
        message waiting. */
    constructor(name: string)
      ensures this.name == name && State() == NewPlayerState
    {
      this.name := name;
      location := Kitchen;
      wearing := [];
      inventory := [];
      output := [];
    }

    /** SendMessage: a send on the output channel that never waits; a full
        channel drops the message. */
    method SendMessage(message: string)
      modifies this`output
      ensures output == Enqueue(old(output), message)
    {
      if |output| < OutputCapacity {
        output := output + [message];
      }
    }

    /** A receive without waiting from the channel GetOutput hands out: the
        oldest pending message, if there is one. */
    method ReceiveOutput() returns (message: Option<string>)
      modifies this`output
      ensures message.None? <==> old(output) == []
      ensures message.Some? ==> old(output) == [message.value] + output
      ensures message.None? ==> output == old(output)
    {
      if |output| == 0 {
        return None;
      }
      message := Some(output[0]);
      output := output[1..];
    }
  }

  /** hasItem: the loop that looks for the item. */
  method HasItem(items: seq<string>, item: string) returns (found: bool)
    ensures found <==> item in items
  {
    var i := 0;
    while i < |items|
      invariant 0 <= i <= |items|
      invariant item !in items[..i]
    {
      if items[i] == item {
        return true;
      }
      i := i + 1;
    }
    assert items[..i] == items;
    return false;
  }

  /** removeItem: the loop that copies every element but the item. */
  method RemoveItem(items: seq<string>, item: string) returns (result: seq<string>)
    ensures result == Without(items, item)
  {
    result := [];
    var i := 0;
    while i < |items|
      invariant 0 <= i <= |items|
      invariant result == Without(items[..i], item)
    {
      assert items[..i + 1][..i] == items[..i];
      if items[i] != item {
        result := result + [items[i]];
      }
      i := i + 1;
    }
    assert items[..i] == items;
  }

  /** formatRoomItems: the loop that parts the items between the table and
      the chair, then the parts joined. */
  method FormatRoomItems(items: seq<string>) returns (text: string)
    ensures text == RoomText(items)
  {
    if |items| == 0 {
      return EmptyRoom;
    }
    var tableItems, chairItems := [], [];
    var i := 0;
    while i < |items|
      invariant 0 <= i <= |items|
      invariant tableItems == Filter(items[..i], Other(Backpack))
      invariant chairItems == Filter(items[..i], Same(Backpack))
    {
      assert items[..i + 1][..i] == items[..i];
      if items[i] == Backpack {
        chairItems := chairItems + [items[i]];
      } else {
        tableItems := tableItems + [items[i]];
      }
      i := i + 1;
    }
    assert items[..i] == items;
    var parts := [];
    if |tableItems| > 0 {
      parts := parts + ["на столе: " + Join(tableItems, ", ")];
    }
    if |chairItems| > 0 {
      parts := parts + ["на стуле - " + Join(chairItems, ", ")];
    }
    text := Join(parts, ", ");
  }

  /** Everyone is filed under their own name. */
  predicate FiledByName(ps: map<string, Player>) {
    forall n :: n in ps ==> ps[n].name == n
  }

  class GameHandler {
    var doorOpen: bool
    var locations: map<string, Location>
    var players: map<string, Player>

    /** Each player is filed under their own name, stands in a known
        location, and has no more messages waiting than the channel holds. */
    ghost predicate Valid()
      reads this, players.Values
    {
      && FiledByName(players)
      && forall n :: n in players ==> players[n].location in locations && |players[n].output| <= OutputCapacity
    }

    /** The game as the rules see it. */
    ghost function State(): World
      reads this, players.Values
    {
      World(doorOpen, locations, map n | n in players :: players[n].State())
    }

    /** The player is the one filed under their name. */
    predicate Registered(player: Player)
      reads this
    {
      player.name in players && players[player.name] == player
    }

    /** NewGameHandler: the door closed, the four locations, no players. */
    constructor()
      ensures Valid() && State() == NewWorld
    {
      doorOpen := false;
      locations := InitialLocations();
      players := map[];
    }

    /** AddPlayer: files the player under their name, replacing any player
        of that name. */
    method AddPlayer(player: Player)
      requires Valid() && player.location in locations && |player.output| <= OutputCapacity
      modifies this`players
      ensures Valid() && Registered(player)
      ensures State() == old(State()).(players := old(State()).players[player.name := player.State()])
    {
      ghost var w := State();
      players := players[player.name := player];
      assert State().players == w.players[player.name := player.State()];
    }

    // The handlers' writes, each seen as a change of the game.

    /** player.SendMessage from a handler: one message to one player. */
    method Send(player: Player, message: string)
      requires Valid() && Registered(player)
      modifies player`output
      ensures Valid() && State() == Tell(old(State()), player.name, message)
    {
      ghost var w := State();
      player.SendMessage(message);
      EnqueueMeaning(w.players[player.name].output, message);
      assert State().players == Tell(w, player.name, message).players;
    }

    /** The door flag set. */
    method OpenDoor()
      requires Valid()
      modifies this`doorOpen
      ensures Valid() && State() == old(State()).(doorOpen := true)
    {
      doorOpen := true;
    }

    /** A location's items replaced. */
    method SetItems(place: string, items: seq<string>)
      requires Valid() && place in locations
      modifies this`locations
      ensures Valid() && State() == WithItems(old(State()), place, items)
    {
      locations := locations[place := locations[place].(items := items)];
    }

    /** The player's location set to a known one. */
    method Relocate(player: Player, direction: string)
      requires Valid() && Registered(player) && direction in locations
      modifies player`location
      ensures Valid() && State() == Relocated(old(State()), player.name, direction)
    {
      ghost var w := State();
      player.location := direction;
      assert State().players == Relocated(w, player.name, direction).players;
    }

    /** The item appended to the player's inventory. */
    method AddToInventory(player: Player, item: string)
      requires Valid() && Registered(player)
      modifies player`inventory
      ensures Valid() && State() == Stowed(old(State()), player.name, item)
    {
      ghost var w := State();
      player.inventory := player.inventory + [item];
      assert State().players == Stowed(w, player.name, item).players;
    }

    /** The item appended to what the player wears. */
    method AddToWearing(player: Player, item: string)
      requires Valid() && Registered(player)
      modifies player`wearing
      ensures Valid() && State() == Donned(old(State()), player.name, item)
    {
      ghost var w := State();
      player.wearing := player.wearing + [item];
      assert State().players == Donned(w, player.name, item).players;
    }

    // The handlers.

    /** getOtherPlayersInLocation: the loop over the players (in the map's
        order) that collects the names of the others here. */
    method GetOtherPlayersInLocation(player: Player) returns (others: seq<string>)
      requires Valid() && Registered(player)
      ensures IsOthers(State(), player.name, others)
    {
      others := [];
      var rest := players.Keys;
      while rest != {}
        invariant rest <= players.Keys
        invariant forall n :: n in others <==>
                    n in players && n !in rest && n != player.name && players[n].location == player.location
        invariant forall i, j :: 0 <= i < j < |others| ==> others[i] != others[j]
        decreases |rest|
      {
        var n := Pick(rest);
        var p := players[n];
        if p.name != player.name && p.location == player.location {
          others := others + [p.name];
        }
        rest := rest - {n};
      }
    }

    /** The first part of handleLook: the kitchen's text depends on what is
        carried, the room's on the items left in it, any other location has
        its stored description. */
    method DescribeLocation(player: Player) returns (description: string)
      requires Valid() && Registered(player)
      ensures description == Description(State(), player.name)
    {
      assert State().players[player.name] == player.State();
      var location := locations[player.location];
      if player.location == Kitchen {
        var hasKeys := HasItem(player.inventory, Keys);
        var hasNotes := HasItem(player.inventory, Notes);
        if hasKeys && hasNotes {
          description := KitchenReady;
        } else {
          description := KitchenStart;
        }
      } else if player.location == Room {
        if |location.items| == 0 {
          description := EmptyRoom;
        } else {
          description := FormatRoomItems(location.items);
        }
      } else {
        description := location.description;
      }
    }

    /** handleLook: the description, the exits and the others here, sent to
        the caller. */
    method HandleLook(player: Player) returns (ghost others: seq<string>)
      requires Valid() && Registered(player)
      modifies player`output
      ensures Valid() && IsOthers(old(State()), player.name, others)
      ensures State() == Look(old(State()), player.name, others)
    {
      ghost var w := State();
      var description := DescribeLocation(player);
      assert State() == w;
      var exits := locations[player.location].exits;
      var message := description + ". можно пройти - " + Join(exits, ", ");
      var otherPlayers := GetOtherPlayersInLocation(player);
      assert State() == w;
      if |otherPlayers| > 0 {
        message := message + ". Кроме вас тут ещё " + Join(otherPlayers, ", ");
      }
      others := otherPlayers;
      Send(player, message);
    }

    /** handleMove */
    method HandleMove(player: Player, direction: string)
      requires Valid() && Registered(player) && MoveDefined(State(), player.name, direction)
      modifies player`location, player`output
      ensures Valid() && State() == Move(old(State()), player.name, direction)
    {
      ghost var w := State();
      assert w.players[player.name] == player.State();
      var exits := locations[player.location].exits;
      var isExit := HasItem(exits, direction);
      assert State() == w;
      if !isExit {
        Send(player, "нет пути в " + direction);
        return;
      }
      if direction == Street && !doorOpen {
        Send(player, "дверь закрыта");
        return;
      }
      Relocate(player, direction);
      var newLocation := locations[direction];
      Send(player, newLocation.description + ". можно пройти - " + Join(newLocation.exits, ", "));
    }

    /** handleTake */
    method HandleTake(player: Player, item: string)
      requires Valid() && Registered(player)
      modifies this`locations, player`inventory, player`output
      ensures Valid() && State() == Take(old(State()), player.name, item)
    {
      ghost var w := State();
      assert w.players[player.name] == player.State();
      var wearsBackpack := HasItem(player.wearing, Backpack);
      assert State() == w;
      if !wearsBackpack {
        Send(player, "некуда класть");
        return;
      }
      var location := locations[player.location];
      var found := HasItem(location.items, item);
      assert State() == w;
      if !found {
        Send(player, "нет такого");
        return;
      }
      var newItems := RemoveItem(location.items, item);
      assert State() == w;
      SetItems(player.location, newItems);
      AddToInventory(player, item);
      Send(player, "предмет добавлен в инвентарь: " + item);
      assert State() == Take(w, player.name, item);
    }

    /** handleWear */
    method HandleWear(player: Player, item: string)
      requires Valid() && Registered(player)
      modifies this`locations, player`wearing, player`output
      ensures Valid() && State() == Wear(old(State()), player.name, item)
    {
      ghost var w := State();
      assert w.players[player.name] == player.State();
      var location := locations[player.location];
      var found := HasItem(location.items, item);
      assert State() == w;
      if !found {
        Send(player, "нет такого");
        return;
      }
      var newItems := RemoveItem(location.items, item);
      assert State() == w;
      SetItems(player.location, newItems);
      AddToWearing(player, item);
      Send(player, "вы одели: " + item);
    }

    /** handleUse */
    method HandleUse(player: Player, item: string, target: string)
      requires Valid() && Registered(player)
      modifies this`doorOpen, player`output
      ensures Valid() && State() == Use(old(State()), player.name, item, target)
    {
      ghost var w := State();
      assert w.players[player.name] == player.State();
      var carried := HasItem(player.inventory, item);
      assert State() == w;
      if !carried {
        Send(player, NotCarried(item));
        return;
      }
      if item == Keys && target == Door {
        OpenDoor();
        Send(player, DoorOpened);
        return;
      }
      Send(player, NothingToApplyTo);
    }

    /** The body of handleSay's loop, for the player of one name: the line
        goes out when they stand in the speaker's location. */
    method Deliver(n: string, here: string, line: string, ghost w: World, ghost heard: set<string>)
      requires Valid() && n in w.players && n !in heard
      requires State() == Announce(w, here, line, heard)
      modifies players.Values
      ensures Valid() && State() == Announce(w, here, line, heard + {n})
    {
      AnnounceStep(w, here, line, heard, n);
      assert n in State().players;
      var p := players[n];
      assert p.State() == w.players[n];
      if p.location == here {
        Send(p, line);
      }
    }

    /** handleSay: the line goes to everyone in the speaker's location. */
    method HandleSay(player: Player, message: string)
      requires Valid() && Registered(player)
      modifies players.Values
      ensures Valid() && State() == Say(old(State()), player.name, message)
    {
      ghost var w := State();
      assert w.players[player.name] == player.State();
      Broadcast(player.location, player.name + " говорит: " + message, w);
    }

    /** handleSay's loop over the players (in the map's order): the line
        goes out to each one standing at `here`. */
    method Broadcast(here: string, msg: string, ghost w: World)
      requires Valid() && State() == w
      modifies players.Values
      ensures Valid() && State() == Announce(w, here, msg, w.players.Keys)
    {
      var rest := players.Keys;
      ghost var heard: set<string> := {};
      AnnounceNone(w, here, msg);
      while rest != {}
        invariant Valid() && rest !! heard && rest + heard == w.players.Keys
        invariant State() == Announce(w, here, msg, heard)
        decreases |rest|
      {
        var n := DeliverNext(rest, here, msg, w, heard);
        rest, heard := rest - {n}, heard + {n};
      }
      assert heard == w.players.Keys;
    }

    /** One turn of handleSay's loop: the next name in the map's order gets
        the line if they stand at `here`. */
    method DeliverNext(rest: set<string>, here: string, msg: string, ghost w: World, ghost heard: set<string>)
      returns (n: string)
      requires rest != {} && rest !! heard && rest + heard == w.players.Keys
      requires Valid() && State() == Announce(w, here, msg, heard)
      modifies players.Values
      ensures n in rest && |rest - {n}| < |rest|
      ensures rest - {n} !! heard + {n} && (rest - {n}) + (heard + {n}) == w.players.Keys
      ensures Valid() && State() == Announce(w, here, msg, heard + {n})
    {
      n := Pick(rest);
      Deliver(n, here, msg, w, heard);
      Visit(rest, heard, w.players.Keys, n);
    }

    /** handleSayToPlayer */
    method HandleSayToPlayer(player: Player, targetName: string, message: string)
      requires Valid() && Registered(player)
      modifies players.Values
      ensures Valid() && State() == SayTo(old(State()), player.name, targetName, message)
    {
      ghost var w := State();
      if targetName !in players || players[targetName].location != player.location {
        Send(player, NoSuchPlayer);
        return;
      }
      var targetPlayer := players[targetName];
      if message == "" {
        Send(targetPlayer, player.name + " выразительно молчит, смотря на вас");
      } else {
        Send(targetPlayer, player.name + " говорит вам: " + message);
      }
    }

    /** HandleCommand: the command's words pick the handler; a command
        without its words is unknown. `others` is the order in which a look
        lists the other players. */
    method HandleCommand(player: Player, command: string) returns (ghost others: seq<string>)
      requires Valid() && Registered(player) && StepDefined(State(), player.name, Parse(command))
      modifies this`doorOpen, this`locations, players.Values
      ensures Valid() && State() == Step(old(State()), player.name, Parse(command), others)
    {
      others := [];
      var parts := Fields(command);
      ghost var c := Parse(command);
      assert c == Dispatch(parts);
      if |parts| == 0 {
        assert c == Unknown;
        Send(player, UnknownCommand);
        return;
      }
      var cmd := parts[0];
      if cmd == "осмотреться" {
        assert c == LookAround;
        others := HandleLook(player);
      } else if cmd == "идти" {
        if |parts| < 2 {
          assert c == Unknown;
          Send(player, UnknownCommand);
          return;
        }
        assert c == Go(parts[1]);
        HandleMove(player, parts[1]);
      } else if cmd == "взять" {
        if |parts| < 2 {
          assert c == Unknown;
          Send(player, UnknownCommand);
          return;
        }
        assert c == TakeItem(parts[1]);
        HandleTake(player, parts[1]);
      } else if cmd == "одеть" {
        if |parts| < 2 {
          assert c == Unknown;
          Send(player, UnknownCommand);
          return;
        }
        assert c == WearItem(parts[1]);
        HandleWear(player, parts[1]);
      } else if cmd == "применить" {
        if |parts| < 3 {
          assert c == Unknown;
          Send(player, UnknownCommand);
          return;
        }
        assert c == Apply(parts[1], parts[2]);
        HandleUse(player, parts[1], parts[2]);
      } else if cmd == "сказать" {
        if |parts| < 2 {
          assert c == Unknown;
          Send(player, UnknownCommand);
          return;
        }
        assert c == SayAll(Join(parts[1..], " "));
        HandleSay(player, Join(parts[1..], " "));
      } else if cmd == "сказать_игроку" {
        if |parts| < 2 {
          assert c == Unknown;
          Send(player, UnknownCommand);
          return;
        }
        var message := "";
        if |parts| > 2 {
          message := Join(parts[2..], " ");
        }
        assert c == SayToPlayer(parts[1], message);
        HandleSayToPlayer(player, parts[1], message);
      } else {
        assert c == Unknown;
        Send(player, UnknownCommand);
      }
    }
  }
}
