/** The player record of the legacy setup screen (entities/player.ts): an id
    fixed at creation, and a name, score and play order set one at a time. */
module LegacyPlayer {

  class Player {
    const id: int
    var name: string
    var score: int
    var order: int

    /** A new player has no name, no score and plays in the position given by its id. */
    constructor(id: int)
      ensures this.id == id && name == "" && score == 0 && order == id
    {
      this.id := id;
      name := "";
      score := 0;
      order := id;
    }

    method GetId() returns (r: int)
      ensures r == id
    {
      return id;
    }

    method GetName() returns (r: string)
      ensures r == name
    {
      return name;
    }

    method GetScore() returns (r: int)
      ensures r == score
    {
      return score;
    }

    method GetOrder() returns (r: int)
      ensures r == order
    {
      return order;
    }

    method SetName(name: string)
      modifies this
      ensures this.name == name && score == old(score) && order == old(order)
    {
      this.name := name;
    }

    method SetScore(score: int)
      modifies this
      ensures this.score == score && name == old(name) && order == old(order)
    {
      this.score := score;
    }

    method SetOrder(order: int)
      modifies this
      ensures this.order == order && name == old(name) && score == old(score)
    {
      this.order := order;
    }
  }
}
