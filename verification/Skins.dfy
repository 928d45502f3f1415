// handlers/skins.go: the saver object and its players.

module SkinsObject {
  import opened SkinNames

  class SkinPlayer {
    const uuid: Uuid
    var name: string
    var altName: string
    var nameFinal: bool

    constructor (uuid: Uuid)
      ensures this.uuid == uuid && name == "" && altName == "" && !nameFinal
    {
      this.uuid, name, altName, nameFinal := uuid, "", "", false;
    }

    function Abs(): Player
      reads this
    {
      Player(name, altName, nameFinal)
    }
  }

  class SkinSaver {
    const names: Names
    var playersById: map<Uuid, SkinPlayer>
    var playersByName: map<string, Uuid>

    // A player is filed under his own id, so no two entries are one object.
    ghost predicate Valid()
      reads this
    {
      forall id :: id in playersById ==> playersById[id].uuid == id
    }

    ghost function Players(): map<Uuid, Player>
      reads this, playersById.Values
    {
      map id | id in playersById :: playersById[id].Abs()
    }

    ghost function Abs(): Saver
      reads this, playersById.Values
    {
      Saver(Players(), playersByName)
    }

    twostate lemma OnePlayer(id: Uuid)
      requires id in playersById && playersById.Keys == old(playersById).Keys + {id}
      requires forall i :: i in old(playersById) && i != id ==>
                 playersById[i] == old(playersById[i]) && playersById[i].Abs() == old(playersById[i].Abs())
      ensures Players() == old(Players())[id := playersById[id].Abs()]
    {
    }

    constructor (names: Names)
      ensures Valid() && Abs() == Saver(map[], map[]) && this.names == names
    {
      this.names := names;
      playersById, playersByName := map[], map[];
    }

    method AddOrGetPlayer(id: Uuid, name: string) returns (player: SkinPlayer)
      requires Valid()
      modifies this`playersById, playersById.Values
      ensures Valid() && id in playersById && playersById[id] == player
      ensures Abs() == AddOrGet(names, old(Abs()), id, name)
    {
      if id in playersById {
        player := playersById[id];
      } else {
        player := new SkinPlayer(id);
        playersById := playersById[id := player];
      }
      ghost var before := player.Abs();
      assert before == if id in old(Players()) then old(Players())[id] else Player("", "", false);
      if player.name == "" && name != "" {
        player.name := names.cleanup(name);
      }
      OnePlayer(id);
    }

    // The player of an AddPlayer packet (lines 241-242).
    method SetAltName(player: SkinPlayer, altName: string)
      requires Valid() && player.uuid in playersById && playersById[player.uuid] == player
      modifies player`altName
      ensures Valid() && Abs() == SkinNames.SetAltName(old(Abs()), player.uuid, altName)
    {
      player.altName := altName;
      OnePlayer(player.uuid);
    }

    // The loop over the suffixes (lines 113-122).
    method FindName(name: string) returns (nameIt: string)
      ensures nameIt == Candidate(name, FirstFree(playersByName, name, 0))
    {
      var i := 0;
      nameIt := name;
      while nameIt in playersByName
        invariant nameIt == Candidate(name, i)
        invariant forall j :: 0 <= j < i ==> Candidate(name, j) in playersByName
        invariant FirstFree(playersByName, name, i) == FirstFree(playersByName, name, 0)
        decreases |playersByName| + 1 - i
      {
        TakenBound(playersByName, name, i + 1);
        i := i + 1;
        nameIt := name + "_" + Decimal(i);
      }
    }

    method EnsureFinalName(player: SkinPlayer)
      requires Valid() && player.uuid in playersById && playersById[player.uuid] == player
      modifies this`playersByName, player`name, player`nameFinal
      ensures Valid() && Abs() == EnsureFinal(names, old(Abs()), player.uuid)
    {
      hide FirstFree, Candidate;
      if !player.nameFinal {
        var name := if player.name != "" then player.name
                    else if player.altName != "" then player.altName
                    else names.show(player.uuid);
        assert name == BaseName(names, player.Abs(), player.uuid);
        player.nameFinal := true;
        var nameIt := FindName(name);
        player.name := nameIt;
        playersByName := playersByName[player.name := player.uuid];
        assert player.Abs() == old(player.Abs()).(name := nameIt, nameFinal := true);
        OnePlayer(player.uuid);
        hide BaseName;
      }
    }
  }
}
