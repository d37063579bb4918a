/** One player's turn within a round (models/playerInRow.ts): the player, the
    points scored in this turn and up to three darts. */
module TurnModel {
  import opened DartsTypes
  import opened PlayerModel

  /** The darts after `addDart`: the dart appended, or the error raised when
      three darts are already there. */
  function Pushed(darts: seq<Dart>, d: Dart): (r: Result<seq<Dart>>)
    ensures r.Failure? <==> |darts| == 3
    ensures r.Failure? ==> r.error == TooManyDarts
    ensures r.Success? ==> |r.value| == |darts| + 1 && r.value[..|darts|] == darts && r.value[|darts|] == d
  {
    if |darts| == 3 then Failure(TooManyDarts) else Success(darts + [d])
  }

  /** The dart `removerLastDart` returns and the darts it leaves, or the error
      raised on an empty turn. */
  function Popped(darts: seq<Dart>): (r: Result<(Dart, seq<Dart>)>)
    ensures r.Failure? <==> darts == []
    ensures r.Failure? ==> r.error == NoDart
    ensures r.Success? ==> r.value.1 + [r.value.0] == darts
  {
    if darts == [] then Failure(NoDart) else Success((darts[|darts| - 1], darts[..|darts| - 1]))
  }

  /** Adding a dart and removing the last one gives the dart back and restores the turn. */
  lemma PushThenPop(darts: seq<Dart>, d: Dart)
    requires |darts| < 3
    ensures Pushed(darts, d).Success? && Popped(Pushed(darts, d).value) == Success((d, darts))
  {
    assert (darts + [d])[..|darts|] == darts;
  }

  /** A turn never holds more than three darts. */
  lemma PushKeepsAtMostThree(darts: seq<Dart>, d: Dart)
    requires |darts| <= 3
    ensures Pushed(darts, d).Success? ==> |Pushed(darts, d).value| <= 3
  {
  }

  class PlayerInRow {
    var player: Player
    var score: int
    var darts: seq<Dart>

    constructor(player: Player, score: int, darts: seq<Dart>)
      ensures this.player == player && this.score == score && this.darts == darts
    {
      this.player := player;
      this.score := score;
      this.darts := darts;
    }

    /** The plain data of this turn, as a snapshot stores it. */
    function Data(): (d: TurnData)
      reads this, player
      ensures d.player == player.Data() && d.score == score && d.darts == darts
    {
      TurnData(player.Data(), score, darts)
    }

    /** Records a dart; fails, changing nothing, when three are already recorded. */
    method AddDart(d: Dart) returns (o: Outcome)
      modifies this
      ensures match Pushed(old(darts), d)
        case Failure(e) => o == Fail(e) && unchanged(this)
        case Success(ds) => o == Ok && darts == ds
      ensures player == old(player) && score == old(score)
    {
      if |darts| == 3 {
        return Fail(TooManyDarts);
      }
      darts := darts + [d];
      return Ok;
    }

    /** `removerLastDart`: drops and returns the last dart; fails on an empty turn. */
    method RemoveLastDart() returns (r: Result<Dart>)
      modifies this
      ensures match Popped(old(darts))
        case Failure(e) => r == Failure(e) && unchanged(this)
        case Success(p) => r == Success(p.0) && darts == p.1
      ensures player == old(player) && score == old(score)
    {
      if darts == [] {
        return Failure(NoDart);
      }
      var d := darts[|darts| - 1];
      darts := darts[..|darts| - 1];
      return Success(d);
    }

    method GetScore() returns (r: int)
      ensures r == score
    {
      return score;
    }

    method SetScore(score: int)
      modifies this
      ensures this.score == score && player == old(player) && darts == old(darts)
    {
      this.score := score;
    }

    method GetDartsCount() returns (r: int)
      ensures r == |darts|
    {
      return |darts|;
    }

    method GetDarts() returns (r: seq<Dart>)
      ensures r == darts
    {
      return darts;
    }

    method GetPlayer() returns (r: Player)
      ensures r == player
    {
      return player;
    }

    /** Rebuilds the turn from stored data, with a fresh copy of its player. */
    method Hydrate(data: TurnData)
      modifies this
      ensures fresh(player) && Data() == data
    {
      player := new Player(data.player.id);
      player.Hydrate(data.player);
      score := data.score;
      darts := data.darts;
    }
  }

  /** One stored round rebuilt the way `hydrate` does it: every turn a new
      `PlayerInRow` over a fresh copy of its player. */
  method RebuildRow(data: seq<TurnData>) returns (row: seq<PlayerInRow>)
    ensures |row| == |data|
    ensures forall i :: 0 <= i < |row| ==>
      fresh(row[i]) && fresh(row[i].player) && row[i].Data() == data[i]
  {
    row := [];
    for i := 0 to |data|
      invariant |row| == i
      invariant forall j :: 0 <= j < i ==>
        fresh(row[j]) && fresh(row[j].player) && row[j].Data() == data[j]
    {
      var p := Rebuild(data[i].player);
      var t := new PlayerInRow(p, data[i].score, data[i].darts);
      row := row + [t];
    }
  }

  /** All stored rounds rebuilt, round by round. */
  method RebuildRows(data: seq<seq<TurnData>>) returns (rows: seq<seq<PlayerInRow>>)
    ensures |rows| == |data|
    ensures forall i :: 0 <= i < |rows| ==> |rows[i]| == |data[i]|
    ensures forall i, j :: 0 <= i < |rows| && 0 <= j < |rows[i]| ==>
      fresh(rows[i][j]) && fresh(rows[i][j].player) && rows[i][j].Data() == data[i][j]
  {
    rows := [];
    for i := 0 to |data|
      invariant |rows| == i
      invariant forall k :: 0 <= k < i ==> |rows[k]| == |data[k]|
      invariant forall k, j :: 0 <= k < i && 0 <= j < |rows[k]| ==>
        fresh(rows[k][j]) && fresh(rows[k][j].player) && rows[k][j].Data() == data[k][j]
    {
      var row := RebuildRow(data[i]);
      rows := rows + [row];
    }
  }
}
