/** A player of the current engine (models/player.ts): an id fixed at creation
    and a name, score and play order that the game overwrites in place. */
module PlayerModel {
  import opened DartsTypes

  class Player {
    const id: int
    var name: string
    var score: int
    var order: int

    /** A new player has no name, the given score (0 by default) and plays in
        the position given by its id. */
    constructor(id: int, score: int := 0)
      ensures this.id == id && name == "" && this.score == score && order == id
    {
      this.id := id;
      name := "";
      this.score := score;
      order := id;
    }

    /** The plain data of this player, as a snapshot stores it. */
    function Data(): (d: PlayerData)
      reads this
      ensures d.id == id && d.name == name && d.score == score && d.order == order
    {
      PlayerData(id, name, score, order)
    }

    method GetId() returns (r: int)
      ensures r == id
    {
      return id;
    }

    method GetName() returns (r: string)
      ensures r == name
    {
      return name;
    }

    method GetScore() returns (r: int)
      ensures r == score
    {
      return score;
    }

    method GetOrder() returns (r: int)
      ensures r == order
    {
      return order;
    }

    method SetName(name: string)
      modifies this
      ensures this.name == name && score == old(score) && order == old(order)
    {
      this.name := name;
    }

    method SetScore(score: int)
      modifies this
      ensures this.score == score && name == old(name) && order == old(order)
    {
      this.score := score;
    }

    method SetOrder(order: int)
      modifies this
      ensures this.order == order && name == old(name) && score == old(score)
    {
      this.order := order;
    }

    /** Overwrites name, score and order from stored data; the id stays. */
    method Hydrate(data: PlayerData)
      modifies this
      ensures name == data.name && score == data.score && order == data.order
    {
      name := data.name;
      score := data.score;
      order := data.order;
    }
  }

  /** `new Player(data.id)` followed by `hydrate(data)`, the way the engine
      rebuilds a player from a snapshot: the copy holds exactly the data. */
  method Rebuild(data: PlayerData) returns (p: Player)
    ensures fresh(p) && p.Data() == data
  {
    p := new Player(data.id);
    p.Hydrate(data);
  }

  /** `data.map(d => { const p = new Player(d.id); p.hydrate(d); return p; })`:
      a fresh copy of every stored player, in order. */
  method RebuildAll(data: seq<PlayerData>) returns (ps: seq<Player>)
    ensures |ps| == |data|
    ensures forall i :: 0 <= i < |ps| ==> fresh(ps[i]) && ps[i].Data() == data[i]
  {
    ps := [];
    for i := 0 to |data|
      invariant |ps| == i
      invariant forall j :: 0 <= j < i ==> fresh(ps[j]) && ps[j].Data() == data[j]
    {
      var p := Rebuild(data[i]);
      ps := ps + [p];
    }
  }
}
