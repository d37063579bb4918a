/** The game record of the legacy setup screen (entities/game.ts): an id, a
    game type and the list of players being set up. */
module LegacyGame {
  import opened LegacyPlayer

  /** `players.map(p => p.id === player.id ? player : p)`: every player with
      the same id as `player` is replaced by it. */
  function Replaced(ps: seq<Player>, player: Player): (r: seq<Player>)
    ensures |r| == |ps|
    ensures forall i :: 0 <= i < |ps| ==> r[i] == (if ps[i].id == player.id then player else ps[i])
  {
    if ps == [] then [] else [if ps[0].id == player.id then player else ps[0]] + Replaced(ps[1..], player)
  }

  /** After an update, `player` is the only player carrying its id, and it
      is there exactly where a player with that id was. */
  lemma {:induction false} ReplacedHoldsPlayer(ps: seq<Player>, player: Player)
    ensures var r := Replaced(ps, player);
      (forall i :: 0 <= i < |r| && r[i].id == player.id ==> r[i] == player) &&
      (player in r <==> player in ps || exists i :: 0 <= i < |ps| && ps[i].id == player.id)
  {
    var r := Replaced(ps, player);
    if player in r {
      var i :| 0 <= i < |r| && r[i] == player;
      assert ps[i].id == player.id;
    }
    if player in ps {
      var i :| 0 <= i < |ps| && ps[i] == player;
      assert r[i] == player;
    }
  }

  /** Updating twice with the same player is the same as updating once. */
  lemma ReplacedIdempotent(ps: seq<Player>, player: Player)
    ensures Replaced(Replaced(ps, player), player) == Replaced(ps, player)
  {
    var r := Replaced(ps, player);
    assert forall i :: 0 <= i < |r| ==> Replaced(r, player)[i] == r[i];
  }

  class Game {
    var id: string
    var kind: string
    var players: seq<Player>

    /** A new game has the given id, type "501" and no players. */
    constructor(id: string)
      ensures this.id == id && kind == "501" && players == []
    {
      this.id := id;
      kind := "501";
      players := [];
    }

    method GetGameId() returns (r: string)
      ensures r == id
    {
      return id;
    }

    method GetType() returns (r: string)
      ensures r == kind
    {
      return kind;
    }

    method GetPlayers() returns (r: seq<Player>)
      ensures r == players
    {
      return players;
    }

    /** Appends a player. */
    method AddPlayer(player: Player)
      modifies this
      ensures players == old(players) + [player] && id == old(id) && kind == old(kind)
    {
      players := players + [player];
    }

    /** One more than the number of players. */
    method GetNextPlayerId() returns (r: int)
      ensures r == |players| + 1
    {
      return |players| + 1;
    }

    method GetPlayersCount() returns (r: int)
      ensures r == |players|
    {
      return |players|;
    }

    /** Changes the game type only. */
    method SetType(kind: string)
      modifies this
      ensures this.kind == kind && id == old(id) && players == old(players)
    {
      this.kind := kind;
    }

    /** Replaces every player with the same id as `player` by it. */
    method UpdatePlayer(player: Player)
      modifies this
      ensures players == Replaced(old(players), player) && id == old(id) && kind == old(kind)
    {
      players := Replaced(players, player);
    }
  }
}
