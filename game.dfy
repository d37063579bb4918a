/** The game engine (models/game.ts): the players, the rounds of turns, the
    ranking of finishers and the status, and the operations that score darts
    and hand the turn on. Persistence (`save`) and `alert` are no-ops here. */
module GameModel {
  import opened DartsTypes
  import opened PlayerModel
  import opened TurnModel
  import opened GameRules
  import CapitalContracts

  // ---------------------------------------------------------------- lookups

  /** Index `i` holds the first player with id `id`. */
  predicate FirstWithId(ps: seq<Player>, i: int, id: int) {
    0 <= i < |ps| && ps[i].id == id && forall j :: 0 <= j < i ==> ps[j].id != id
  }

  /** Index `i` holds the first player with play order `o`. */
  predicate FirstWithOrder(ps: seq<Player>, i: int, o: int)
    reads ps
  {
    0 <= i < |ps| && ps[i].order == o && forall j :: 0 <= j < i ==> ps[j].order != o
  }

  /** `players.find(p => p.id === id)`: the first player with that id. */
  function FindById(ps: seq<Player>, id: int): (r: Option<Player>)
    ensures r.None? <==> forall i :: 0 <= i < |ps| ==> ps[i].id != id
    ensures r.Some? ==> exists i :: FirstWithId(ps, i, id) && ps[i] == r.value
  {
    if ps == [] then None
    else if ps[0].id == id then (assert FirstWithId(ps, 0, id); Some(ps[0]))
    else
      var r := FindById(ps[1..], id);
      assert r.Some? ==> exists i :: FirstWithId(ps, i, id) && ps[i] == r.value by {
        if r.Some? {
          var i :| FirstWithId(ps[1..], i, id) && ps[1..][i] == r.value;
          assert FirstWithId(ps, i + 1, id);
        }
      }
      r
  }

  /** `players.find(p => p.order === o)`: the first player with that order. */
  function FindByOrder(ps: seq<Player>, o: int): (r: Option<Player>)
    reads ps
    ensures r.None? <==> forall i :: 0 <= i < |ps| ==> ps[i].order != o
    ensures r.Some? ==> exists i :: FirstWithOrder(ps, i, o) && ps[i] == r.value
  {
    if ps == [] then None
    else if ps[0].order == o then (assert FirstWithOrder(ps, 0, o); Some(ps[0]))
    else
      var r := FindByOrder(ps[1..], o);
      assert r.Some? ==> exists i :: FirstWithOrder(ps, i, o) && ps[i] == r.value by {
        if r.Some? {
          var i :| FirstWithOrder(ps[1..], i, o) && ps[1..][i] == r.value;
          assert FirstWithOrder(ps, i + 1, o);
        }
      }
      r
  }

  // ---------------------------------------------------------------- ordering by score

  /** Ascending by score. */
  predicate SortedByScore(ps: seq<Player>)
    reads ps
  {
    forall i, j :: 0 <= i < j < |ps| ==> ps[i].score <= ps[j].score
  }

  /** The players with score `v`, in the order they appear. */
  function WithScore(ps: seq<Player>, v: int): seq<Player>
    reads ps
  {
    if ps == [] then [] else (if ps[0].score == v then [ps[0]] else []) + WithScore(ps[1..], v)
  }

  /** Puts `p` before the first player that does not score less. */
  function InsertByScore(p: Player, ps: seq<Player>): (r: seq<Player>)
    reads p, ps
    ensures |r| == |ps| + 1
    ensures forall i :: 0 <= i < |r| ==> r[i] == p || r[i] in ps[..]
  {
    if ps == [] || p.score <= ps[0].score then [p] + ps
    else [ps[0]] + InsertByScore(p, ps[1..])
  }

  /** `players.sort((a, b) => a.score - b.score)`: the stable sort by score
      that ECMAScript's `Array.prototype.sort` performs. */
  function SortByScore(ps: seq<Player>): (r: seq<Player>)
    reads ps
    ensures |r| == |ps|
    ensures forall i :: 0 <= i < |r| ==> r[i] in ps
  {
    if ps == [] then []
    else InsertByScore(ps[0], SortByScore(ps[1..]))
  }

  lemma {:induction false} InsertPermutes(p: Player, ps: seq<Player>)
    ensures multiset(InsertByScore(p, ps)) == multiset(ps) + multiset{p}
  {
    if ps != [] && p.score > ps[0].score {
      InsertPermutes(p, ps[1..]);
      assert ps == [ps[0]] + ps[1..];
    }
  }

  /** The sort only reorders: every player comes out as often as it went in. */
  lemma {:induction false} SortByScorePermutes(ps: seq<Player>)
    ensures multiset(SortByScore(ps)) == multiset(ps)
  {
    if ps != [] {
      SortByScorePermutes(ps[1..]);
      InsertPermutes(ps[0], SortByScore(ps[1..]));
      assert ps == [ps[0]] + ps[1..];
    }
  }

  lemma {:induction false} InsertKeepsSorted(p: Player, ps: seq<Player>)
    requires SortedByScore(ps)
    ensures SortedByScore(InsertByScore(p, ps))
  {
    if ps == [] || p.score <= ps[0].score {
      SortedCons(p, ps);
    } else {
      InsertKeepsSorted(p, ps[1..]);
      var tail := InsertByScore(p, ps[1..]);
      forall k | 0 <= k < |tail|
        ensures ps[0].score <= tail[k].score
      {
        if tail[k] != p {
          var j :| 0 <= j < |ps[1..]| && ps[1..][j] == tail[k];
          assert ps[j + 1] == tail[k];
        }
      }
      SortedCons(ps[0], tail);
    }
  }

  /** A player scoring no more than any of a sorted line can go in front of it. */
  lemma SortedCons(x: Player, tail: seq<Player>)
    requires SortedByScore(tail)
    requires forall k :: 0 <= k < |tail| ==> x.score <= tail[k].score
    ensures SortedByScore([x] + tail)
  {
    var r := [x] + tail;
    forall i, j | 0 <= i < j < |r|
      ensures r[i].score <= r[j].score
    {
      assert r[j] == tail[j - 1];
      if i > 0 {
        assert r[i] == tail[i - 1];
      }
    }
  }

  /** The players come out in ascending order of score. */
  lemma {:induction false} SortByScoreSorted(ps: seq<Player>)
    ensures SortedByScore(SortByScore(ps))
  {
    if ps != [] {
      SortByScoreSorted(ps[1..]);
      InsertKeepsSorted(ps[0], SortByScore(ps[1..]));
    }
  }

  lemma {:induction false} InsertKeepsTies(p: Player, ps: seq<Player>, v: int)
    requires SortedByScore(ps)
    ensures WithScore(InsertByScore(p, ps), v) == (if p.score == v then [p] else []) + WithScore(ps, v)
  {
    if ps == [] || p.score <= ps[0].score {
      WithScoreCons(p, ps, v);
    } else {
      var tail := InsertByScore(p, ps[1..]);
      InsertKeepsTies(p, ps[1..], v);
      WithScoreCons(ps[0], tail, v);
      var mine := if p.score == v then [p] else [];
      var head := if ps[0].score == v then [ps[0]] else [];
      var rest := WithScore(ps[1..], v);
      SwapEmpty(head, mine, rest);
    }
  }

  lemma WithScoreCons(x: Player, xs: seq<Player>, v: int)
    ensures WithScore([x] + xs, v) == (if x.score == v then [x] else []) + WithScore(xs, v)
  {
    assert ([x] + xs)[1..] == xs;
  }

  /** The sort is stable: players with equal scores keep their relative order. */
  lemma {:induction false} SortByScoreStable(ps: seq<Player>, v: int)
    ensures WithScore(SortByScore(ps), v) == WithScore(ps, v)
  {
    if ps != [] {
      SortByScoreStable(ps[1..], v);
      SortByScoreSorted(ps[1..]);
      InsertKeepsTies(ps[0], SortByScore(ps[1..]), v);
    }
  }

  // ---------------------------------------------------------------- setup

  /** `players.filter(p => p.name !== "")`. */
  function Named(ps: seq<Player>): (r: seq<Player>)
    reads ps
    ensures |r| <= |ps|
    ensures forall i :: 0 <= i < |r| ==> r[i] in ps && r[i].name != ""
    ensures forall i :: 0 <= i < |ps| && ps[i].name != "" ==> ps[i] in r
  {
    if ps == [] then []
    else (if ps[0].name != "" then [ps[0]] else []) + Named(ps[1..])
  }

  /** The positions of `ps` whose player has a name. */
  function NamedPositions(ps: seq<Player>): seq<nat>
    reads ps
  {
    if ps == [] then []
    else (if ps[0].name != "" then [0] else []) + Shift(NamedPositions(ps[1..]))
  }

  /** `Named` keeps the players at `NamedPositions`, in that order. */
  lemma {:induction false} NamedPicks(ps: seq<Player>)
    ensures var idx := NamedPositions(ps);
      |idx| == |Named(ps)| && forall k :: 0 <= k < |idx| ==> idx[k] < |ps| && Named(ps)[k] == ps[idx[k]]
  {
    if ps != [] {
      var tail := Named(ps[1..]);
      var rest := NamedPositions(ps[1..]);
      NamedPicks(ps[1..]);
      var d := if ps[0].name != "" then 1 else 0;
      var idx := NamedPositions(ps);
      assert idx == if d == 1 then [0] + Shift(rest) else Shift(rest);
      assert Named(ps) == if d == 1 then [ps[0]] + tail else tail;
      forall k | d <= k < |idx|
        ensures idx[k] < |ps| && Named(ps)[k] == ps[idx[k]]
      {
        assert idx[k] == rest[k - d] + 1 && Named(ps)[k] == tail[k - d];
        assert tail[k - d] == ps[1..][rest[k - d]];
      }
    }
  }

  /** The named positions increase strictly: `Named` keeps the players' order. */
  lemma {:induction false} NamedPositionsIncrease(ps: seq<Player>)
    ensures StrictlyIncreasing(NamedPositions(ps))
  {
    if ps != [] {
      NamedPositionsIncrease(ps[1..]);
      ShiftIncreasing(NamedPositions(ps[1..]));
    }
  }

  /** A position is among `NamedPositions` exactly when its player has a name. */
  lemma {:induction false} NamedPositionsExact(ps: seq<Player>, i: nat)
    requires i < |ps|
    ensures i in NamedPositions(ps) <==> ps[i].name != ""
  {
    var rest := NamedPositions(ps[1..]);
    ShiftMember(rest, i);
    if i >= 1 {
      NamedPositionsExact(ps[1..], i - 1);
    }
  }

  // ---------------------------------------------------------------- rounds

  /** All turns, round after round. */
  function Flatten(rows: seq<seq<PlayerInRow>>): seq<PlayerInRow> {
    if rows == [] then [] else Flatten(rows[..|rows| - 1]) + rows[|rows| - 1]
  }

  /** No round holds more turns than there are players. */
  predicate RowsFit(rows: seq<seq<PlayerInRow>>, n: int) {
    forall i :: 0 <= i < |rows| ==> |rows[i]| <= n
  }

  /** The rounds after a new turn is placed: it opens a new round when there
      is none or the current one holds `n` turns, and joins the current one
      otherwise. */
  function Appended(rows: seq<seq<PlayerInRow>>, t: PlayerInRow, n: int): seq<seq<PlayerInRow>> {
    if rows == [] || |rows[|rows| - 1]| == n then rows + [[t]]
    else rows[..|rows| - 1] + [rows[|rows| - 1] + [t]]
  }

  /** Placing a turn adds exactly that turn after all earlier ones, and makes it current. */
  lemma AppendedTurns(rows: seq<seq<PlayerInRow>>, t: PlayerInRow, n: int)
    ensures Flatten(Appended(rows, t, n)) == Flatten(rows) + [t]
    ensures var r := Appended(rows, t, n); r != [] && r[|r| - 1] != [] && r[|r| - 1][|r[|r| - 1]| - 1] == t
  {
    var r := Appended(rows, t, n);
    if rows == [] || |rows[|rows| - 1]| == n {
      assert r[..|r| - 1] == rows;
    } else {
      assert r[..|r| - 1] == rows[..|rows| - 1];
    }
  }

  /** With at least one player, placing a turn keeps every round within the player count. */
  lemma AppendedFits(rows: seq<seq<PlayerInRow>>, t: PlayerInRow, n: int)
    requires n >= 1 && RowsFit(rows, n)
    ensures RowsFit(Appended(rows, t, n), n)
  {
  }

  /** The rounds after the turns `ts` are placed one after another. */
  function AppendedAll(rows: seq<seq<PlayerInRow>>, ts: seq<PlayerInRow>, n: int): seq<seq<PlayerInRow>>
    decreases |ts|
  {
    if ts == [] then rows else Appended(AppendedAll(rows, ts[..|ts| - 1], n), ts[|ts| - 1], n)
  }

  /** Placing one more turn after `ts` is placing `ts + [t]`. */
  lemma AppendedAllStep(rows: seq<seq<PlayerInRow>>, ts: seq<PlayerInRow>, t: PlayerInRow, n: int)
    ensures AppendedAll(rows, ts + [t], n) == Appended(AppendedAll(rows, ts, n), t, n)
  {
    assert (ts + [t])[..|ts|] == ts;
  }

  /** Placing turns one by one adds exactly those turns, in order, after all earlier ones. */
  lemma {:induction false} AppendedAllTurns(rows: seq<seq<PlayerInRow>>, ts: seq<PlayerInRow>, n: int)
    ensures Flatten(AppendedAll(rows, ts, n)) == Flatten(rows) + ts
    decreases |ts|
  {
    if ts != [] {
      var init := ts[..|ts| - 1];
      AppendedAllTurns(rows, init, n);
      AppendedTurns(AppendedAll(rows, init, n), ts[|ts| - 1], n);
      AppendAssoc(Flatten(rows), init, [ts[|ts| - 1]]);
      assert ts == init + [ts[|ts| - 1]];
    }
  }

  /** With at least one player, placing turns one by one keeps every round
      within the player count. */
  lemma {:induction false} AppendedAllFits(rows: seq<seq<PlayerInRow>>, ts: seq<PlayerInRow>, n: int)
    requires RowsFit(rows, n) && (ts == [] || n >= 1)
    ensures RowsFit(AppendedAll(rows, ts, n), n)
    decreases |ts|
  {
    if ts != [] {
      AppendedAllFits(rows, ts[..|ts| - 1], n);
      AppendedFits(AppendedAll(rows, ts[..|ts| - 1], n), ts[|ts| - 1], n);
    }
  }

  /** Under Capital, `nextPlayer` ends the game instead of opening a new
      round once the rounds `rows` number 14 or more and the last one holds
      a turn for each of the `n` players. */
  predicate CapitalCloses(rows: seq<seq<PlayerInRow>>, n: int) {
    rows != [] && |rows[|rows| - 1]| == n && |rows| >= 14
  }

  // ---------------------------------------------------------------- one dart, on values

  /** What a dart the turn accepts leaves behind: the thrower's score, the
      turn's score and darts, whether the thrower joined the ranking, and the
      game status. */
  datatype Throw = Throw(playerScore: int, turnScore: int, darts: seq<Dart>, ranked: bool, status: Status)

  /** The effect of `addDart` once the dart is recorded, for a thrower on
      `pre` in a turn that scored `turnScore` with the darts `earlier`, in a
      game with `ranked` of `count` players already ranked. Capital only
      records the dart; a countdown game busts, finishes or subtracts. */
  function ThrowEffect(capital: bool, ft: FinishType, atFirst: bool, status: Status, ranked: int, count: int,
                       pre: int, turnScore: int, earlier: seq<Dart>, d: Dart): Throw
  {
    var darts := earlier + [d];
    if capital then Throw(pre, turnScore + Points(d), darts, false, status)
    else if IsBust(pre, d, ft) then Throw(CountdownScore(pre, earlier, d, ft), 0, PaddedToThree(darts), false, status)
    else if pre - Points(d) == 0 then
      var s := AlertStatus(status, atFirst, ranked + 1, count);
      Throw(0, turnScore + Points(d), if s == Finished then darts else PaddedToThree(darts), true, s)
    else Throw(pre - Points(d), turnScore + Points(d), darts, false, status)
  }

  /** Every accepted dart is recorded after the earlier ones; only fillers
      may follow it, and the turn never exceeds three darts. */
  lemma ThrowRecordsDart(capital: bool, ft: FinishType, atFirst: bool, status: Status, ranked: int, count: int,
                         pre: int, turnScore: int, earlier: seq<Dart>, d: Dart)
    requires |earlier| < 3
    ensures var e := ThrowEffect(capital, ft, atFirst, status, ranked, count, pre, turnScore, earlier, d);
      |earlier| < |e.darts| <= 3 && e.darts[..|earlier|] == earlier && e.darts[|earlier|] == d &&
      (forall i :: |earlier| < i < |e.darts| ==> e.darts[i] == Filler) &&
      Total(e.darts) == Total(earlier) + Points(d)
  {
    var darts := earlier + [d];
    var e := ThrowEffect(capital, ft, atFirst, status, ranked, count, pre, turnScore, earlier, d);
    assert e.darts == darts || e.darts == PaddedToThree(darts);
    PaddedShape(darts);
    PaddingKeepsTotal(darts);
    TotalAppend(earlier, [d]);
    assert Total([d]) == Total([]) + Points(d);
  }

  lemma PaddedShape(ds: seq<Dart>)
    requires |ds| <= 3
    ensures var p := PaddedToThree(ds);
      |p| == 3 && p[..|ds|] == ds && forall i :: |ds| <= i < 3 ==> p[i] == Filler
  {
  }

  /** Capital scores nothing while darts are thrown: the turn's score counts
      them and nothing else changes. */
  lemma CapitalThrowOnlyRecords(ft: FinishType, atFirst: bool, status: Status, ranked: int, count: int,
                                pre: int, turnScore: int, earlier: seq<Dart>, d: Dart)
    ensures var e := ThrowEffect(true, ft, atFirst, status, ranked, count, pre, turnScore, earlier, d);
      e.playerScore == pre && e.turnScore == turnScore + Points(d) && e.darts == earlier + [d] &&
      !e.ranked && e.status == status
  {
  }

  /** A bust closes the turn with three darts, clears its score, and leaves
      the thrower on the turn's starting score plus the busting dart. */
  lemma BustClosesTurn(ft: FinishType, atFirst: bool, status: Status, ranked: int, count: int,
                       start: int, turnScore: int, earlier: seq<Dart>, d: Dart)
    requires |earlier| < 3 && IsBust(start - Total(earlier), d, ft)
    ensures var e := ThrowEffect(false, ft, atFirst, status, ranked, count, start - Total(earlier), turnScore, earlier, d);
      |e.darts| == 3 && e.turnScore == 0 && e.playerScore == start + Points(d) && !e.ranked && e.status == status
  {
    PaddingKeepsTotal(earlier + [d]);
    BustOverCredits(start, earlier, d, ft);
  }

  /** A finish puts the thrower on zero and into the ranking. The game ends
      when it ends at the first finisher, or when every player is now ranked
      and it is not a lone player practising; if it goes on, the turn is
      closed with three darts. */
  lemma FinishRanks(ft: FinishType, atFirst: bool, status: Status, ranked: int, count: int,
                    pre: int, turnScore: int, earlier: seq<Dart>, d: Dart)
    requires |earlier| < 3 && status != Finished && ranked >= 0
    requires !IsBust(pre, d, ft) && pre == Points(d)
    ensures var e := ThrowEffect(false, ft, atFirst, status, ranked, count, pre, turnScore, earlier, d);
      e.playerScore == 0 && e.ranked &&
      (e.status == Finished <==> atFirst || (ranked + 1 == count && count != 1)) &&
      (e.status != Finished ==> e.status == status && |e.darts| == 3) &&
      (ft == DoubleOut ==> d.multiplier == 2)
  {
    PaddingKeepsTotal(earlier + [d]);
  }

  /** Any other countdown dart takes its points off and leaves the rest alone. */
  lemma PlainThrowSubtracts(ft: FinishType, atFirst: bool, status: Status, ranked: int, count: int,
                            pre: int, turnScore: int, earlier: seq<Dart>, d: Dart)
    requires !IsBust(pre, d, ft) && pre != Points(d)
    ensures var e := ThrowEffect(false, ft, atFirst, status, ranked, count, pre, turnScore, earlier, d);
      e.playerScore == pre - Points(d) && e.playerScore > 0 && e.turnScore == turnScore + Points(d) &&
      e.darts == earlier + [d] && !e.ranked && e.status == status &&
      (ft == DoubleOut ==> e.playerScore >= 2)
  {
  }

  /** With darts worth no negative points, a countdown score that starts
      non-negative stays non-negative. */
  lemma ThrowKeepsScoreNonNegative(ft: FinishType, atFirst: bool, status: Status, ranked: int, count: int,
                                   pre: int, turnScore: int, earlier: seq<Dart>, d: Dart)
    requires pre >= 0 && Points(d) >= 0 && forall i :: 0 <= i < |earlier| ==> Points(earlier[i]) >= 0
    ensures ThrowEffect(false, ft, atFirst, status, ranked, count, pre, turnScore, earlier, d).playerScore >= 0
  {
    ScoreStaysNonNegative(pre, earlier, d, ft);
  }

  /** Taking back a dart that neither bust nor finished restores the thrower's
      and the turn's scores and the turn's darts. */
  lemma ThrowThenTakeBack(capital: bool, ft: FinishType, atFirst: bool, status: Status, ranked: int, count: int,
                          pre: int, turnScore: int, earlier: seq<Dart>, d: Dart)
    requires capital || (!IsBust(pre, d, ft) && pre != Points(d))
    ensures var e := ThrowEffect(capital, ft, atFirst, status, ranked, count, pre, turnScore, earlier, d);
      Popped(e.darts) == Success((d, earlier)) && e.turnScore - Points(d) == turnScore &&
      (capital || e.playerScore + Points(d) == pre)
  {
    assert (earlier + [d])[..|earlier|] == earlier;
  }

  /** What Capital credits the outgoing player at the end of a turn in a game
      with `rowCount` rounds: the points of the round's contract when they are
      positive. */
  function CapitalCredit(rowCount: int, darts: seq<Dart>): int {
    var contract := CapitalContracts.GetContractForRound(if rowCount - 1 > 0 then rowCount - 1 else 0);
    var points := CapitalContracts.ComputeContractPoints(contract.key, darts);
    if points > 0 then points else 0
  }

  /** The credit is the turn's total when the round's contract is met and that
      total is positive, and nothing otherwise. */
  lemma CapitalCreditMeaning(rowCount: int, darts: seq<Dart>)
    ensures var key := CapitalContracts.GetContractForRound(if rowCount - 1 > 0 then rowCount - 1 else 0).key;
      CapitalCredit(rowCount, darts) ==
        if CapitalContracts.EvaluateContract(key, darts) && Total(darts) > 0 then Total(darts) else 0
  {
    var key := CapitalContracts.GetContractForRound(if rowCount - 1 > 0 then rowCount - 1 else 0).key;
    CapitalContracts.PointsAreTotalWhenMet(key, darts);
  }

  // ---------------------------------------------------------------- the game

  /** Pads a turn with filler darts until it holds three (the `while` loops
      that close a turn after a bust or a finish). */
  method PadTurn(t: PlayerInRow)
    modifies t
    ensures t.darts == PaddedToThree(old(t.darts))
    ensures t.player == old(t.player) && t.score == old(t.score)
  {
    ghost var start := t.darts;
    while |t.darts| < 3
      invariant |start| <= |t.darts| && (|start| < 3 ==> |t.darts| <= 3) && (|start| >= 3 ==> t.darts == start)
      invariant t.darts == start + Fillers(|t.darts| - |start|)
      invariant t.player == old(t.player) && t.score == old(t.score)
      decreases 3 - |t.darts|
    {
      var added := t.AddDart(Filler);
      assert Fillers(|t.darts| - |start|) == Fillers(|t.darts| - 1 - |start|) + [Filler];
    }
  }

  /** The play orders of the players, in list order. */
  function OrdersOf(ps: seq<Player>): (r: seq<int>)
    reads ps
    ensures |r| == |ps| && forall i :: 0 <= i < |ps| ==> r[i] == ps[i].order
  {
    if ps == [] then [] else [ps[0].order] + OrdersOf(ps[1..])
  }

  /** The names of the players, in list order. */
  function NamesOf(ps: seq<Player>): (r: seq<string>)
    reads ps
    ensures |r| == |ps| && forall i :: 0 <= i < |ps| ==> r[i] == ps[i].name
  {
    if ps == [] then [] else [ps[0].name] + NamesOf(ps[1..])
  }

  /** The first position holding `target`. */
  function IndexOfOrder(orders: seq<int>, target: int): (r: Option<nat>)
    ensures r.Some? ==> r.value < |orders| && orders[r.value] == target
  {
    if orders == [] then None
    else if orders[0] == target then Some(0)
    else match IndexOfOrder(orders[1..], target)
      case None => None
      case Some(i) => Some(i + 1)
  }

  /** `IndexOfOrder` finds the first position holding `target`, and finds
      none exactly when no position holds it. */
  lemma {:induction false} IndexOfOrderFirst(orders: seq<int>, target: int)
    ensures var r := IndexOfOrder(orders, target);
      (r.Some? ==> forall j :: 0 <= j < r.value ==> orders[j] != target) &&
      (r.None? <==> forall j :: 0 <= j < |orders| ==> orders[j] != target)
  {
    if orders != [] && orders[0] != target {
      IndexOfOrderFirst(orders[1..], target);
      assert forall j :: 1 <= j < |orders| ==> orders[j] == orders[1..][j - 1];
    }
  }

  function Located(ps: seq<Player>, at: Option<nat>): Option<Player>
    requires at.Some? ==> at.value < |ps|
  {
    match at
    case None => None
    case Some(i) => Some(ps[i])
  }

  /** Which player holds an order is decided by the orders alone. */
  lemma {:induction false} FindByOrderIndexed(ps: seq<Player>, target: int)
    ensures FindByOrder(ps, target) == Located(ps, IndexOfOrder(OrdersOf(ps), target))
  {
    if ps != [] && ps[0].order != target {
      FindByOrderIndexed(ps[1..], target);
      assert OrdersOf(ps)[1..] == OrdersOf(ps[1..]);
    }
  }

  lemma FindByOrderIndexedAll(ps: seq<Player>)
    ensures forall target :: FindByOrder(ps, target) == Located(ps, IndexOfOrder(OrdersOf(ps), target))
  {
    forall target
      ensures FindByOrder(ps, target) == Located(ps, IndexOfOrder(OrdersOf(ps), target))
    {
      FindByOrderIndexed(ps, target);
    }
  }

  /** The position of the player `nextPlayer` reaches after passing over
      `k` players, starting from order `first`. */
  function CandidateIndex(orders: seq<int>, first: int, k: nat): (r: Option<nat>)
    ensures r.Some? ==> r.value < |orders|
  {
    IndexOfOrder(orders, Iterate(first, |orders|, k))
  }

  /** `nextPlayer` stops at candidate `k`: there is none, or it is not on
      zero once the outgoing turn is settled. */
  predicate StopsWith(orders: seq<int>, settled: seq<int>, first: int, k: nat)
    requires |settled| == |orders|
  {
    match CandidateIndex(orders, first, k)
    case None => true
    case Some(i) => settled[i] != 0
  }

  /** The players hold play orders `orders` and scores `scores`, position
      by position. */
  ghost predicate Holding(ps: seq<Player>, orders: seq<int>, scores: seq<int>)
    reads ps
  {
    |orders| == |ps| && |scores| == |ps| &&
    forall j :: 0 <= j < |ps| ==> ps[j].order == orders[j] && ps[j].score == scores[j]
  }

  /** `t` is the new, unscored turn of candidate `k` of a hand-over among `ps`. */
  ghost predicate TurnOfCandidate(t: PlayerInRow, ps: seq<Player>, orders: seq<int>, first: int, k: nat)
    reads t
  {
    |orders| == |ps| && CandidateIndex(orders, first, k).Some? && t.score == 0 &&
    t.player == ps[CandidateIndex(orders, first, k).value]
  }

  /** `ts` are the turns of candidates 0, 1, ... of a hand-over, each given
      to a player on zero and passed over with three fillers. */
  ghost predicate PassedOver(ts: seq<PlayerInRow>, ps: seq<Player>, orders: seq<int>, settled: seq<int>, first: int)
    reads ts
  {
    |settled| == |orders| &&
    forall i :: 0 <= i < |ts| ==>
      TurnOfCandidate(ts[i], ps, orders, first, i) && ts[i].darts == Fillers(3) &&
      settled[CandidateIndex(orders, first, i).value] == 0
  }

  lemma PassedOverExtend(ts: seq<PlayerInRow>, t: PlayerInRow, ps: seq<Player>, orders: seq<int>, settled: seq<int>, first: int)
    requires PassedOver(ts, ps, orders, settled, first)
    requires TurnOfCandidate(t, ps, orders, first, |ts|) && t.darts == Fillers(3)
    requires settled[CandidateIndex(orders, first, |ts|).value] == 0
    ensures PassedOver(ts + [t], ps, orders, settled, first)
  {
    assert forall i :: 0 <= i < |ts| ==> (ts + [t])[i] == ts[i];
  }

  /** With every order in 1..n held by one player, `nextPlayer` stops no
      later than the first time it reaches a player who is not on zero:
      whenever someone still has points to score, the recursion ends. */
  lemma HandOverReachesScorer(orders: seq<int>, settled: seq<int>, first: int, j: nat) returns (k: nat)
    requires |settled| == |orders| && j < |orders| && settled[j] != 0
    requires 1 <= first <= |orders| && 1 <= orders[j] <= |orders|
    requires forall i :: 0 <= i < j ==> orders[i] != orders[j]
    ensures 1 <= k <= |orders| && StopsWith(orders, settled, first, k)
  {
    k := EveryOrderComesRound(first, |orders|, orders[j]);
    IndexOfOrderFirst(orders, orders[j]);
    assert CandidateIndex(orders, first, k) == Some(j);
  }

  /** With every order in 1..n held and every player on zero, `nextPlayer`
      never stops: each candidate exists and is passed over in turn, so the
      recursion of the source does not end. */
  lemma AllOnZeroNeverStops(orders: seq<int>, settled: seq<int>, first: int, k: nat)
    requires |settled| == |orders| && 1 <= first <= |orders|
    requires forall o :: 1 <= o <= |orders| ==> o in orders
    requires forall j :: 0 <= j < |settled| ==> settled[j] == 0
    ensures CandidateIndex(orders, first, k).Some? && !StopsWith(orders, settled, first, k)
  {
    IterateStaysInRange(first, |orders|, k);
    var target := Iterate(first, |orders|, k);
    assert target in orders;
    IndexOfOrderFirst(orders, target);
  }

  class Game {
    var id: string
    var kind: string
    var status: Status
    var players: seq<Player>
    var rows: seq<seq<PlayerInRow>>
    var ranking: seq<Player>
    var finishType: FinishType
    var isFinishAtFirst: bool

    /** A game of type "501" by default, pending, with no players, rounds or
        ranking, classic finish and no end at the first finisher. */
    constructor(id: string, kind: string := "501", status: Status := Pending, players: seq<Player> := [],
                rows: seq<seq<PlayerInRow>> := [], ranking: seq<Player> := [],
                finishType: FinishType := Classic, isFinishAtFirst: bool := false)
      ensures this.id == id && this.kind == kind && this.status == status && this.players == players
      ensures this.rows == rows && this.ranking == ranking
      ensures this.finishType == finishType && this.isFinishAtFirst == isFinishAtFirst
    {
      this.id := id;
      this.kind := kind;
      this.status := status;
      this.players := players;
      this.rows := rows;
      this.ranking := ranking;
      this.finishType := finishType;
      this.isFinishAtFirst := isFinishAtFirst;
    }

    method GetPlayers() returns (r: seq<Player>)
      ensures r == players
    {
      return players;
    }

    /** `addPlayer`: appends a player to the list. */
    method AddPlayer(player: Player)
      modifies this
      ensures players == old(players) + [player]
      ensures id == old(id) && kind == old(kind) && status == old(status) && rows == old(rows)
      ensures ranking == old(ranking) && finishType == old(finishType) && isFinishAtFirst == old(isFinishAtFirst)
    {
      players := players + [player];
    }

    method SetType(kind: string)
      modifies this
      ensures this.kind == kind
      ensures id == old(id) && status == old(status) && players == old(players) && rows == old(rows)
      ensures ranking == old(ranking) && finishType == old(finishType) && isFinishAtFirst == old(isFinishAtFirst)
    {
      this.kind := kind;
    }

    /** `setTypesFinish`: chooses the classic or double-out finish. */
    method SetTypesFinish(finishType: FinishType)
      modifies this
      ensures this.finishType == finishType
      ensures id == old(id) && kind == old(kind) && status == old(status) && players == old(players)
      ensures rows == old(rows) && ranking == old(ranking) && isFinishAtFirst == old(isFinishAtFirst)
    {
      this.finishType := finishType;
    }

    method SetFinishAtFirst(isFinishAtFirst: bool)
      modifies this
      ensures this.isFinishAtFirst == isFinishAtFirst
      ensures id == old(id) && kind == old(kind) && status == old(status) && players == old(players)
      ensures rows == old(rows) && ranking == old(ranking) && finishType == old(finishType)
    {
      this.isFinishAtFirst := isFinishAtFirst;
    }

    method GetRows() returns (r: seq<seq<PlayerInRow>>)
      ensures r == rows
    {
      return rows;
    }

    /** The round being played: the last one, if any. */
    function CurrentRow(): (r: Option<seq<PlayerInRow>>)
      reads this
      ensures r.None? <==> rows == []
      ensures r.Some? ==> r.value == rows[|rows| - 1]
    {
      if rows == [] then None else Some(rows[|rows| - 1])
    }

    /** The turn being played: the last turn of the current round, if any.
        It is always the last of all turns played so far. */
    function CurrentTurn(): (r: Option<PlayerInRow>)
      reads this
      ensures r.None? <==> CurrentRow().None? || CurrentRow().value == []
      ensures r.Some? ==> Flatten(rows) != [] && r.value == Flatten(rows)[|Flatten(rows)| - 1]
    {
      if rows == [] || rows[|rows| - 1] == [] then None
      else Some(rows[|rows| - 1][|rows[|rows| - 1]| - 1])
    }

    /** The objects the current turn occupies. */
    function TurnSet(): set<object>
      reads this
    {
      if CurrentTurn().Some? then {CurrentTurn().value} else {}
    }

    /** The player object the current turn points at. */
    function TurnPlayerSet(): set<object>
      reads this, TurnSet()
    {
      if CurrentTurn().Some? then {CurrentTurn().value.player} else {}
    }

    /** `getPlayerById`: the first player with that id. */
    function PlayerById(id: int): (r: Option<Player>)
      reads this
      ensures r.Some? ==> r.value in players && r.value.id == id
      ensures r.None? <==> forall i :: 0 <= i < |players| ==> players[i].id != id
    {
      FindById(players, id)
    }

    /** `players.find` returns the first player with the id, so when ids
        repeat the earliest one is found. */
    lemma PlayerByIdFirst(id: int)
      ensures PlayerById(id).Some? ==> exists i :: FirstWithId(players, i, id) && players[i] == PlayerById(id).value
    {
    }

    /** `currentPlayer`: the player whose id the current turn's player
        carries; none without a current turn. */
    function CurrentPlayer(): (r: Option<Player>)
      reads this, TurnSet()
      ensures r.Some? ==> CurrentTurn().Some? && r.value in players && r.value.id == CurrentTurn().value.player.id
      ensures CurrentTurn().Some? && r.None? ==> forall i :: 0 <= i < |players| ==> players[i].id != CurrentTurn().value.player.id
    {
      match CurrentTurn()
      case None => None
      case Some(t) => PlayerById(t.player.id)
    }

    /** The player object the current player is. */
    function PlayerSet(): set<Player>
      reads this, TurnSet()
    {
      if CurrentPlayer().Some? then {CurrentPlayer().value} else {}
    }

    /** `getNextPlayerId`: one more than the number of players. */
    function GetNextPlayerId(): (r: int)
      reads this
      ensures r == |players| + 1 && r >= 1
    {
      |players| + 1
    }

    /** The play order `getNextPlayerToPlay` looks for: order 1 without a
        current turn, else the order after the current turn's player's,
        wrapping from the number of players back to 1. */
    function NextOrderToPlay(): int
      reads this, TurnSet(), TurnPlayerSet()
    {
      match CurrentTurn()
      case None => 1
      case Some(t) => NextOrder(t.player.order, |players|)
    }

    /** `getNextPlayerToPlay`: nobody without players; otherwise the first
        player holding the next order, or nobody if none holds it. */
    function NextPlayerToPlay(): (r: Option<Player>)
      reads this, players, TurnSet(), TurnPlayerSet()
      ensures players == [] ==> r.None?
      ensures r.Some? ==> r.value in players && r.value.order == NextOrderToPlay()
      ensures CurrentTurn().None? && r.Some? ==> r.value.order == 1
      ensures CurrentTurn().Some? && r.Some? ==>
        r.value.order == (if CurrentTurn().value.player.order == |players| then 1 else CurrentTurn().value.player.order + 1)
      ensures players != [] && r.None? ==> forall i :: 0 <= i < |players| ==> players[i].order != NextOrderToPlay()
      ensures r == FindByOrder(players, NextOrderToPlay())
    {
      if players == [] then None
      else if rows == [] then FindByOrder(players, 1)
      else match CurrentTurn()
        case None => FindByOrder(players, 1)
        case Some(t) => FindByOrder(players, NextOrder(t.player.order, |players|))
    }

    /** `playerHasAgainDart`: the current turn exists and holds fewer than three darts. */
    function PlayerHasAgainDart(): (r: bool)
      reads this, TurnSet()
      ensures r <==> CurrentTurn().Some? && |CurrentTurn().value.darts| < 3
    {
      match CurrentTurn()
      case None => false
      case Some(t) => |t.darts| < 3
    }

    /** `playerHasOverScore`: the current player exists and is below zero. */
    function PlayerHasOverScore(): (r: bool)
      reads this, players, TurnSet()
      ensures r ==> CurrentPlayer().Some? && CurrentPlayer().value.score < 0
      ensures CurrentPlayer().Some? && CurrentPlayer().value.score < 0 ==> r
    {
      match CurrentPlayer()
      case None => false
      case Some(p) => p.score < 0
    }

    /** `playerCanPlay`: a dart is still due and the player is not below zero. */
    function PlayerCanPlay(): (r: bool)
      reads this, players, TurnSet()
      ensures r <==> PlayerHasAgainDart() && !PlayerHasOverScore()
      ensures r ==> CurrentTurn().Some? && |CurrentTurn().value.darts| < 3
    {
      if !PlayerHasAgainDart() then false
      else if PlayerHasOverScore() then false
      else true
    }

    /** `playerFinishIsValid`: the player is on zero and, under double-out,
        the dart was a double. */
    function PlayerFinishIsValid(p: Player, d: Dart): (r: bool)
      reads this, p
      ensures r ==> p.score == 0
      ensures finishType == Classic ==> (r <==> p.score == 0)
      ensures finishType == DoubleOut ==> (r <==> p.score == 0 && d.multiplier == 2)
    {
      if p.score != 0 then false
      else if finishType == Classic then true
      else d.multiplier == 2
    }
  
    /** `resetCurrentPlayerInRow`: credits the player with the points of the
        current turn's darts and clears the turn's score. */
    method ResetCurrentPlayerInRow(player: Option<Player>) returns (o: Outcome)
      modifies TurnSet(), if player.Some? then {player.value} else {}
      ensures player.None? ==> o == Fail(PlayerNotFound)
      ensures player.Some? && CurrentTurn().None? ==> o == Fail(NoCurrentTurn)
      ensures o.Ok? <==> player.Some? && CurrentTurn().Some?
      ensures o.Fail? ==> unchanged(old(TurnSet())) && (player.Some? ==> unchanged(player.value))
      ensures o.Ok? ==> (player.Some? && CurrentTurn().Some? &&
        var t := CurrentTurn().value;
        player.value.score == old(player.value.score) + Total(t.darts) && t.score == 0 &&
        t.darts == old(t.darts) && t.player == old(t.player) &&
        player.value.name == old(player.value.name) && player.value.order == old(player.value.order))
    {
      if player.None? {
        return Fail(PlayerNotFound);
      }
      var turn := CurrentTurn();
      if turn.None? {
        return Fail(NoCurrentTurn);
      }
      var t := turn.value;
      var p := player.value;
      var credit := Total(t.darts);
      p.SetScore(p.score + credit);
      t.score := 0;
      return Ok;
    }

    /** `alertFinish`: ends the game at the first finisher when so set, or
        once every player is ranked unless a lone player is practising. */
    method AlertFinish()
      modifies this
      ensures status == AlertStatus(old(status), isFinishAtFirst, |ranking|, |players|)
      ensures id == old(id) && kind == old(kind) && players == old(players) && rows == old(rows)
      ensures ranking == old(ranking) && finishType == old(finishType) && isFinishAtFirst == old(isFinishAtFirst)
    {
      if isFinishAtFirst && |ranking| >= 1 {
        status := Finished;
        return;
      }
      if |ranking| == |players| {
        if |players| == 1 && !isFinishAtFirst {
          return;
        }
        status := Finished;
        return;
      }
    }

    /** `playerFinish`: a valid finish appends the player to the ranking and
        settles the status; an invalid one changes nothing. */
    method PlayerFinish(p: Player, d: Dart)
      modifies this
      ensures old(PlayerFinishIsValid(p, d)) ==>
        ranking == old(ranking) + [p] && status == AlertStatus(old(status), isFinishAtFirst, |ranking|, |players|)
      ensures !old(PlayerFinishIsValid(p, d)) ==> ranking == old(ranking) && status == old(status)
      ensures id == old(id) && kind == old(kind) && players == old(players) && rows == old(rows)
      ensures finishType == old(finishType) && isFinishAtFirst == old(isFinishAtFirst)
    {
      if !PlayerFinishIsValid(p, d) {
        return;
      }
      ranking := ranking + [p];
      AlertFinish();
    }

    /** `addDart`: records a dart in the current turn and scores it as
        `ThrowEffect` describes. Without a current turn, without a player
        for it, or with three darts already thrown, it fails and changes
        nothing. */
    method AddDart(score: int, multiplier: int) returns (o: Outcome)
      modifies this, TurnSet(), PlayerSet()
      ensures id == old(id) && kind == old(kind) && players == old(players) && rows == old(rows)
      ensures finishType == old(finishType) && isFinishAtFirst == old(isFinishAtFirst)
      ensures old(CurrentTurn()).None? ==> o == Fail(NoCurrentTurn)
      ensures old(CurrentTurn()).Some? && old(CurrentPlayer()).None? ==> o == Fail(PlayerNotFound)
      ensures old(CurrentPlayer()).Some? && |old(CurrentTurn().value.darts)| == 3 ==> o == Fail(TooManyDarts)
      ensures o.Fail? ==> (status == old(status) && ranking == old(ranking) &&
        unchanged(old(TurnSet())) && unchanged(old(PlayerSet())))
      ensures o.Ok? ==> (old(CurrentPlayer()).Some? && |old(CurrentTurn().value.darts)| != 3 &&
        var t := old(CurrentTurn()).value;
        var p := old(CurrentPlayer()).value;
        var e := ThrowEffect(kind == "Capital", finishType, isFinishAtFirst, old(status), |old(ranking)|, |players|,
                             old(p.score), old(t.score), old(t.darts), Dart(score, multiplier));
        p.score == e.playerScore && p.name == old(p.name) && p.order == old(p.order) &&
        t.score == e.turnScore && t.darts == e.darts && t.player == old(t.player) &&
        status == e.status && ranking == (if e.ranked then old(ranking) + [p] else old(ranking)))
    {
      var d := Dart(score, multiplier);
      var turn := CurrentTurn();
      if turn.None? {
        return Fail(NoCurrentTurn);
      }
      var t := turn.value;
      var found := PlayerById(t.player.id);
      if found.None? {
        return Fail(PlayerNotFound);
      }
      var p := found.value;
      assert found == CurrentPlayer();
      ghost var pre0, score0, darts0 := p.score, t.score, t.darts;
      var recorded := t.AddDart(d);
      if recorded.Fail? {
        return recorded;
      }
      t.SetScore(t.score + Points(d));
      if kind == "Capital" {
        assert p.score == pre0 && t.score == score0 + Points(d) && t.darts == darts0 + [d];
        return Ok;
      }
      var pre := p.score;
      var post := pre - Points(d);
      if IsBust(pre, d, finishType) {
        var reset := ResetCurrentPlayerInRow(Some(p));
        assert p.score == pre0 + Total(darts0 + [d]);
        PadTurn(t);
        return Ok;
      }
      if post == 0 {
        p.SetScore(0);
        PlayerFinish(p, d);
        if status != Finished {
          PadTurn(t);
        }
        return Ok;
      }
      p.SetScore(post);
      return Ok;
    }

    /** `removeLastDart`: takes the last dart out of the current turn and
        its points off the turn's score, giving them back to the player
        outside Capital. Fails without a current turn or on an empty one. */
    method RemoveLastDart() returns (o: Outcome)
      modifies TurnSet(), PlayerSet()
      ensures old(CurrentTurn()).None? ==> o == Fail(NoCurrentTurn)
      ensures old(CurrentTurn()).Some? ==>
        var t := old(CurrentTurn()).value;
        match Popped(old(t.darts))
        case Failure(e) => o == Fail(e) && unchanged(t) && unchanged(old(PlayerSet()))
        case Success(pd) =>
          o == Ok && t.darts == pd.1 && t.score == old(t.score) - Points(pd.0) && t.player == old(t.player) &&
          (old(CurrentPlayer()).Some? ==>
            var p := old(CurrentPlayer()).value;
            p.score == old(p.score) + (if kind == "Capital" then 0 else Points(pd.0)) &&
            p.name == old(p.name) && p.order == old(p.order))
    {
      var turn := CurrentTurn();
      if turn.None? {
        return Fail(NoCurrentTurn);
      }
      var t := turn.value;
      var popped := t.RemoveLastDart();
      if popped.Failure? {
        return Fail(popped.error);
      }
      var d := popped.value;
      var player := PlayerById(t.player.id);
      if kind != "Capital" && player.Some? {
        player.value.SetScore(player.value.score + Points(d));
      }
      t.SetScore(t.score - Points(d));
      return Ok;
    }
  
    /** The score player `q` holds after `nextPlayer`'s first step: the
        current player, when below zero, gets the turn's points back. */
    function ScoreAfterReset(q: Player): int
      reads this, TurnSet(), q
    {
      if CurrentPlayer() == Some(q) && q.score < 0 then q.score + Total(CurrentTurn().value.darts) else q.score
    }

    /** The score player `q` holds once the outgoing turn is settled: after
        the reset, Capital credits the current player with the round's contract. */
    function ScoreAfterSettle(q: Player): int
      reads this, TurnSet(), q
    {
      ScoreAfterReset(q) + if kind == "Capital" && CurrentPlayer() == Some(q) then CapitalCredit(|rows|, CurrentTurn().value.darts) else 0
    }

    /** `if (playerHasOverScore()) resetCurrentPlayerInRow(currentPlayer())`. */
    method ResetOverScore()
      modifies TurnSet(), PlayerSet()
      ensures CurrentPlayer() == old(CurrentPlayer()) && NextOrderToPlay() == old(NextOrderToPlay())
      ensures forall j :: 0 <= j < |players| ==> players[j].score == old(ScoreAfterReset(players[j]))
      ensures forall j :: 0 <= j < |players| ==> players[j].order == old(players[j].order) && players[j].name == old(players[j].name)
      ensures CurrentTurn().Some? ==> (var t := CurrentTurn().value;
        t.darts == old(t.darts) && t.player == old(t.player) &&
        t.score == if old(PlayerHasOverScore()) then 0 else old(t.score))
    {
      if PlayerHasOverScore() {
        var reset := ResetCurrentPlayerInRow(CurrentPlayer());
      }
    }

    /** Capital's end-of-turn scoring: the current player gains the round
        contract's points when positive. Fails without a current turn or its player. */
    method CreditContract() returns (o: Outcome)
      modifies PlayerSet()
      ensures o == Fail(NoCurrentTurn) <==> CurrentTurn().None?
      ensures o == Fail(PlayerNotFound) <==> CurrentTurn().Some? && CurrentPlayer().None?
      ensures o.Ok? <==> CurrentPlayer().Some?
      ensures forall j :: 0 <= j < |players| ==>
        players[j].score == old(players[j].score) +
          if CurrentPlayer() == Some(players[j]) then CapitalCredit(|rows|, CurrentTurn().value.darts) else 0
      ensures forall j :: 0 <= j < |players| ==> players[j].order == old(players[j].order) && players[j].name == old(players[j].name)
    {
      var turn := CurrentTurn();
      if turn.None? {
        return Fail(NoCurrentTurn);
      }
      var t := turn.value;
      var found := PlayerById(t.player.id);
      if found.None? {
        return Fail(PlayerNotFound);
      }
      var p := found.value;
      var roundIndex := if |rows| - 1 > 0 then |rows| - 1 else 0;
      var contract := CapitalContracts.GetContractForRound(roundIndex);
      var points := CapitalContracts.ComputeContractPoints(contract.key, t.darts);
      assert CapitalCredit(|rows|, t.darts) == if points > 0 then points else 0;
      if points > 0 {
        p.SetScore(p.score + points);
      }
      assert CurrentTurn() == Some(t) && CurrentPlayer() == Some(p);
      return Ok;
    }

    /** The first part of `nextPlayer`: resets an outgoing player below zero
        and, under Capital, credits the round's contract. Under Capital it
        fails without a current turn or its player, having changed nothing. */
    method SettleTurn() returns (o: Outcome)
      modifies TurnSet(), PlayerSet()
      ensures kind == "Capital" && CurrentTurn().None? ==> o == Fail(NoCurrentTurn)
      ensures kind == "Capital" && CurrentTurn().Some? && old(CurrentPlayer()).None? ==> o == Fail(PlayerNotFound)
      ensures o.Ok? <==> kind != "Capital" || old(CurrentPlayer()).Some?
      ensures forall j :: 0 <= j < |players| ==> players[j].score == old(ScoreAfterSettle(players[j]))
      ensures forall j :: 0 <= j < |players| ==> players[j].order == old(players[j].order) && players[j].name == old(players[j].name)
      ensures CurrentTurn().Some? ==> (var t := CurrentTurn().value;
        t.darts == old(t.darts) && t.player == old(t.player) &&
        t.score == if old(PlayerHasOverScore()) then 0 else old(t.score))
      ensures NextOrderToPlay() == old(NextOrderToPlay())
    {
      ResetOverScore();
      o := Ok;
      if kind == "Capital" {
        o := CreditContract();
      }
    }

    /** The second part of `nextPlayer`: a new turn for the next player to
        play, pre-filled with three fillers for a countdown player already on
        zero, placed as `Appended` says; under Capital a full 14th round ends
        the game instead. `again` tells whether the new player is skipped. */
    method Advance() returns (o: Outcome, again: bool, ghost added: Option<PlayerInRow>)
      modifies this
      ensures id == old(id) && kind == old(kind) && players == old(players) && ranking == old(ranking)
      ensures finishType == old(finishType) && isFinishAtFirst == old(isFinishAtFirst)
      ensures o.Fail? <==> old(NextPlayerToPlay()).None?
      ensures o.Fail? ==> o == Fail(NoPlayer) && rows == old(rows) && status == old(status) && !again && added.None?
      ensures o.Ok? ==> (var p := old(NextPlayerToPlay()).value;
        var closing := kind == "Capital" && CapitalCloses(old(rows), |players|);
        (closing ==> status == Finished && rows == old(rows) && added.None? && !again) &&
        (!closing ==> (added.Some? && fresh(added.value) && rows == Appended(old(rows), added.value, |players|) &&
          status == old(status) && added.value.player == p && added.value.score == 0 &&
          added.value.darts == (if kind != "Capital" && p.score == 0 then Fillers(3) else []) &&
          (again <==> kind != "Capital" && p.score == 0))))
    {
      var next := NextPlayerToPlay();
      if next.None? {
        return Fail(NoPlayer), false, None;
      }
      var p := next.value;
      var t := new PlayerInRow(p, 0, []);
      if kind != "Capital" && p.score == 0 {
        t.SetScore(0);
        t.darts := [Filler, Filler, Filler];
        assert t.darts == Fillers(3);
      }
      var row := CurrentRow();
      if row.None? || |row.value| == |players| {
        if kind == "Capital" && row.Some? && |row.value| == |players| {
          if |rows| >= 14 {
            status := Finished;
            return Ok, false, None;
          }
        }
        rows := rows + [[t]];
      } else {
        rows := rows[..|rows| - 1] + [row.value + [t]];
      }
      again := kind != "Capital" && p.score == 0;
      return Ok, again, Some(t);
    }
  
    /** The scores the players hold once the outgoing turn is settled. */
    function SettledScores(ps: seq<Player>): (r: seq<int>)
      reads this, TurnSet(), ps
      ensures |r| == |ps| && forall i :: 0 <= i < |ps| ==> r[i] == ScoreAfterSettle(ps[i])
    {
      if ps == [] then [] else [ScoreAfterSettle(ps[0])] + SettledScores(ps[1..])
    }

    /** A countdown `nextPlayer` stops at latest at candidate `k`. */
    predicate HandOverStopsAt(k: nat)
      reads this, players, TurnSet(), TurnPlayerSet()
    {
      StopsWith(OrdersOf(players), SettledScores(players), NextOrderToPlay(), k)
    }

    /** One pass of `nextPlayer`'s recursion in a countdown game whose
        current turn, three fillers, went to candidate `k`: settles that
        turn, which changes no score, and gives candidate `k + 1` a turn.
        `orders`, `settled` and `first` are the orders, settled scores and
        first order to play when the hand-over began. */
    method PassOver(ghost orders: seq<int>, ghost settled: seq<int>, ghost first: int, ghost k: nat)
      returns (o: Outcome, again: bool, ghost t: Option<PlayerInRow>)
      requires kind != "Capital" && Holding(players, orders, settled)
      requires CurrentTurn().Some? && CurrentTurn().value.darts == Fillers(3)
      requires TurnOfCandidate(CurrentTurn().value, players, orders, first, k)
      modifies this, TurnSet(), players
      ensures id == old(id) && kind == old(kind) && players == old(players) && ranking == old(ranking)
      ensures finishType == old(finishType) && isFinishAtFirst == old(isFinishAtFirst) && status == old(status)
      ensures Holding(players, orders, settled) && forall j :: 0 <= j < |players| ==> players[j].name == old(players[j].name)
      ensures var c := old(CurrentTurn()).value; c.score == 0 && c.darts == old(c.darts) && c.player == old(c.player)
      ensures o.Fail? <==> CandidateIndex(orders, first, k + 1).None?
      ensures o.Fail? ==> o == Fail(NoPlayer) && rows == old(rows) && !again && t.None?
      ensures o.Ok? ==> (t.Some? && fresh(t.value) && rows == Appended(old(rows), t.value, |players|) &&
        TurnOfCandidate(t.value, players, orders, first, k + 1) &&
        var idx := CandidateIndex(orders, first, k + 1).value;
        t.value.darts == (if settled[idx] == 0 then Fillers(3) else []) && (again <==> settled[idx] == 0))
    {
      SettleFillers(orders, settled, first, k);
      FindByOrderIndexed(players, NextOrderToPlay());
      assert OrdersOf(players) == orders;
      o, again, t := Advance();
    }

    /** The settling step of a pass-over: a turn of three fillers by a
        countdown player on zero changes no score, and the next order to
        play is candidate `k + 1`'s. */
    method SettleFillers(ghost orders: seq<int>, ghost settled: seq<int>, ghost first: int, ghost k: nat)
      requires kind != "Capital" && Holding(players, orders, settled)
      requires CurrentTurn().Some? && CurrentTurn().value.darts == Fillers(3)
      requires TurnOfCandidate(CurrentTurn().value, players, orders, first, k)
      modifies TurnSet(), PlayerSet()
      ensures Holding(players, orders, settled)
      ensures forall j :: 0 <= j < |players| ==> players[j].name == old(players[j].name)
      ensures var c := CurrentTurn().value; c.score == 0 && c.darts == Fillers(3) && c.player == old(c.player)
      ensures NextOrderToPlay() == Iterate(first, |players|, k + 1)
    {
      TotalOfFillers(3);
      assert forall j :: 0 <= j < |players| ==> ScoreAfterSettle(players[j]) == players[j].score;
      var settledNow := SettleTurn();
      IterateAdds(first, |players|, k, 1);
    }

    /** Where a countdown `nextPlayer` stands after giving the turns `added`,
        having started from the rounds `rows0`: every turn but the last
        passed a player on zero over, the last went to the next candidate,
        and `again` says whether that one is to be passed over too. */
    ghost predicate Passing(rows0: seq<seq<PlayerInRow>>, added: seq<PlayerInRow>, o: Outcome, again: bool,
                            orders: seq<int>, settled: seq<int>, first: int, bound: nat)
      reads this, players, added
    {
      Holding(players, orders, settled) &&
      rows == AppendedAll(rows0, added, |players|) &&
      added != [] &&
      PassedOver(added[..|added| - 1], players, orders, settled, first) &&
      added[|added| - 1] !in added[..|added| - 1] &&
      TurnOfCandidate(added[|added| - 1], players, orders, first, |added| - 1) &&
      (o.Ok? ==> added[|added| - 1].darts == (if again then Fillers(3) else []) &&
                 (again <==> settled[CandidateIndex(orders, first, |added| - 1).value] == 0)) &&
      (o.Fail? ==> o == Fail(NoPlayer) && !again) &&
      (again ==> CurrentTurn() == Some(added[|added| - 1]) && StopsWith(orders, settled, first, bound) && |added| - 1 < bound)
    }

    /** One recursive call of a countdown `nextPlayer`, from a state where
        the last turn given is to be passed over. */
    method PassOverStep(ghost rows0: seq<seq<PlayerInRow>>, ghost added: seq<PlayerInRow>,
                        ghost orders: seq<int>, ghost settled: seq<int>, ghost first: int, ghost bound: nat)
      returns (o: Outcome, again: bool, ghost t: Option<PlayerInRow>)
      requires kind != "Capital" && Passing(rows0, added, Ok, true, orders, settled, first, bound)
      modifies this, TurnSet(), players
      ensures id == old(id) && kind == old(kind) && players == old(players) && ranking == old(ranking)
      ensures finishType == old(finishType) && isFinishAtFirst == old(isFinishAtFirst) && status == old(status)
      ensures forall j :: 0 <= j < |players| ==> players[j].name == old(players[j].name)
      ensures o.Fail? ==> t.None? && Passing(rows0, added, o, again, orders, settled, first, bound)
      ensures o.Ok? ==> t.Some? && fresh(t.value) && Passing(rows0, added + [t.value], o, again, orders, settled, first, bound)
    {
      ghost var before := rows;
      ghost var passed := added[..|added| - 1];
      ghost var current := added[|added| - 1];
      assert added == passed + [current];
      o, again, t := PassOver(orders, settled, first, |added| - 1);
      if o.Ok? {
        PassedOverExtend(passed, current, players, orders, settled, first);
        PassingAfterPassOver(rows0, before, added, t.value, again, orders, settled, first, bound);
      }
    }

    /** The state a pass-over leaves: the turns `added`, all passed over,
        are followed by `t`, the turn of the next candidate, appended to the
        rounds `before`. */
    lemma PassingAfterPassOver(rows0: seq<seq<PlayerInRow>>, before: seq<seq<PlayerInRow>>, added: seq<PlayerInRow>,
                               t: PlayerInRow, again: bool,
                               orders: seq<int>, settled: seq<int>, first: int, bound: nat)
      requires Holding(players, orders, settled)
      requires before == AppendedAll(rows0, added, |players|)
      requires added != [] && PassedOver(added, players, orders, settled, first)
      requires StopsWith(orders, settled, first, bound) && |added| - 1 < bound
      requires t !in added && rows == Appended(before, t, |players|)
      requires TurnOfCandidate(t, players, orders, first, |added|)
      requires var idx := CandidateIndex(orders, first, |added|).value;
        t.darts == (if settled[idx] == 0 then Fillers(3) else []) && (again <==> settled[idx] == 0)
      ensures Passing(rows0, added + [t], Ok, again, orders, settled, first, bound)
    {
      AppendedTurns(before, t, |players|);
      ghost var now := added + [t];
      assert now[..|now| - 1] == added && now[|now| - 1] == t;
      AppendedAllStep(rows0, added, t, |players|);
      assert PassedOver(now[..|now| - 1], players, orders, settled, first);
      assert TurnOfCandidate(now[|now| - 1], players, orders, first, |now| - 1);
      if again {
        assert StopsWith(orders, settled, first, bound) != StopsWith(orders, settled, first, |added|);
        assert |now| - 1 < bound;
        assert CurrentTurn() == Some(t);
      }
    }

    /** The recursion of a countdown `nextPlayer`: passes over player after
        player until one is not on zero or none holds the next order. */
    method PassOverAll(ghost rows0: seq<seq<PlayerInRow>>, ghost added: seq<PlayerInRow>,
                       ghost orders: seq<int>, ghost settled: seq<int>, ghost first: int, ghost bound: nat)
      returns (o: Outcome, ghost all: seq<PlayerInRow>)
      requires kind != "Capital" && Passing(rows0, added, Ok, true, orders, settled, first, bound)
      modifies this, players, TurnSet()
      ensures id == old(id) && kind == old(kind) && players == old(players) && ranking == old(ranking)
      ensures finishType == old(finishType) && isFinishAtFirst == old(isFinishAtFirst) && status == old(status)
      ensures Passing(rows0, all, o, false, orders, settled, first, bound)
      ensures forall j :: 0 <= j < |players| ==> players[j].name == old(players[j].name)
      ensures |added| <= |all| && all[..|added|] == added
      ensures forall i :: |added| <= i < |all| ==> fresh(all[i])
    {
      o := Ok;
      all := added;
      var again := true;
      while again
        invariant id == old(id) && kind == old(kind) && players == old(players) && ranking == old(ranking)
        invariant finishType == old(finishType) && isFinishAtFirst == old(isFinishAtFirst) && status == old(status)
        invariant Passing(rows0, all, o, again, orders, settled, first, bound)
        invariant forall j :: 0 <= j < |players| ==> players[j].name == old(players[j].name)
        invariant |added| <= |all| && all[..|added|] == added
        invariant forall i :: |added| <= i < |all| ==> fresh(all[i])
        decreases if again then bound + 1 - |all| else 0
      {
        ghost var t;
        o, again, t := PassOverStep(rows0, all, orders, settled, first, bound);
        if o.Ok? {
          all := all + [t.value];
        }
      }
    }

    /** What `Passing` says of each turn given. */
    lemma PassingTurns(rows0: seq<seq<PlayerInRow>>, added: seq<PlayerInRow>, o: Outcome, again: bool,
                       orders: seq<int>, settled: seq<int>, first: int, bound: nat)
      requires kind != "Capital" && !again && Passing(rows0, added, o, again, orders, settled, first, bound)
      ensures HandedOn(rows0, added, o, orders, settled, first)
    {
      forall i | 0 <= i < |added| - 1
        ensures TurnOfCandidate(added[i], players, orders, first, i)
        ensures added[i].darts == Fillers(3) && settled[CandidateIndex(orders, first, i).value] == 0
      {
        assert added[i] == added[..|added| - 1][i];
      }
    }

    /** The first pass of `nextPlayer`: settles the outgoing turn and gives
        the next player to play a new turn, unless a Capital game closes.
        `orders`, `settled` and `first` are the orders, settled scores and
        next order to play as the hand-over begins. */
    method HandOver(ghost orders: seq<int>, ghost settled: seq<int>, ghost first: int)
      returns (o: Outcome, again: bool, ghost t: Option<PlayerInRow>)
      requires orders == OrdersOf(players) && settled == SettledScores(players) && first == NextOrderToPlay()
      modifies this, players, TurnSet()
      ensures id == old(id) && kind == old(kind) && players == old(players) && ranking == old(ranking)
      ensures finishType == old(finishType) && isFinishAtFirst == old(isFinishAtFirst)
      ensures status == old(status) || (kind == "Capital" && status == Finished)
      ensures !(o.Ok? && t.None?) ==> status == old(status)
      ensures Holding(players, orders, settled) && NamesOf(players) == old(NamesOf(players))
      ensures old(CurrentTurn()).Some? ==> (var c := old(CurrentTurn()).value;
        c.darts == old(c.darts) && c.player == old(c.player) &&
        c.score == if old(PlayerHasOverScore()) then 0 else old(c.score))
      ensures o.Ok? ==> (t.None? <==> kind == "Capital" && CapitalCloses(old(rows), |players|))
      ensures o.Fail? ==> (rows == old(rows) && !again && t.None? &&
        (o == Fail(NoPlayer) || (kind == "Capital" && (o == Fail(NoCurrentTurn) || o == Fail(PlayerNotFound)))))
      ensures o.Ok? && t.None? ==> kind == "Capital" && status == Finished && rows == old(rows) && !again
      ensures o.Ok? && kind != "Capital" ==> t.Some?
      ensures o.Ok? && t.Some? ==> (fresh(t.value) && rows == Appended(old(rows), t.value, |players|) &&
        TurnOfCandidate(t.value, players, orders, first, 0) &&
        var idx := CandidateIndex(orders, first, 0).value;
        t.value.darts == (if kind != "Capital" && settled[idx] == 0 then Fillers(3) else []) &&
        (again <==> kind != "Capital" && settled[idx] == 0))
    {
      ghost var outgoing := CurrentTurn();
      o := SettleTurn();
      assert CurrentTurn() == outgoing;
      if o.Fail? {
        return o, false, None;
      }
      FirstCandidate(orders, settled, first);
      o, again, t := Advance();
    }

    /** The next player to play is candidate 0 of the hand-over. */
    lemma FirstCandidate(orders: seq<int>, settled: seq<int>, first: int)
      requires Holding(players, orders, settled) && first == NextOrderToPlay()
      ensures NextPlayerToPlay().Some? ==> (var idx := CandidateIndex(orders, first, 0);
        idx.Some? && players[idx.value] == NextPlayerToPlay().value && settled[idx.value] == NextPlayerToPlay().value.score)
    {
      FindByOrderIndexed(players, first);
      assert OrdersOf(players) == orders;
    }

    /** `nextPlayer`: settles the outgoing turn, then gives the next player
        in turn order a new turn; in a countdown game every next player
        already on zero gets a turn of three fillers and is passed over.
        The turns added are `added`, in order: turn `i` goes to the player
        holding order `i` hand-overs past `first`, the next order to play
        on entry, among the `orders` the players hold; `settled` are the
        players' scores once the outgoing turn is settled. The recursion is
        bounded by `bound`, a candidate it stops at. */
    method NextPlayer(ghost bound: nat)
      returns (o: Outcome, ghost added: seq<PlayerInRow>, ghost orders: seq<int>, ghost settled: seq<int>, ghost first: int)
      requires kind == "Capital" || HandOverStopsAt(bound)
      modifies this, players, TurnSet()
      ensures orders == old(OrdersOf(players)) && settled == old(SettledScores(players)) && first == old(NextOrderToPlay())
      ensures id == old(id) && kind == old(kind) && players == old(players) && ranking == old(ranking)
      ensures finishType == old(finishType) && isFinishAtFirst == old(isFinishAtFirst)
      ensures status == old(status) || (kind == "Capital" && status == Finished)
      ensures !(o.Ok? && added == []) ==> status == old(status)
      ensures Holding(players, orders, settled) && NamesOf(players) == old(NamesOf(players))
      ensures old(CurrentTurn()).Some? ==> (var c := old(CurrentTurn()).value;
        c.darts == old(c.darts) && c.player == old(c.player) &&
        c.score == if old(PlayerHasOverScore()) then 0 else old(c.score))
      ensures o.Ok? ==> (added == [] <==> kind == "Capital" && CapitalCloses(old(rows), |players|))
      ensures rows == AppendedAll(old(rows), added, |players|)
      ensures Flatten(rows) == Flatten(old(rows)) + added
      ensures RowsFit(old(rows), |players|) ==> RowsFit(rows, |players|)
      ensures forall i :: 0 <= i < |added| ==> fresh(added[i]) && TurnOfCandidate(added[i], players, orders, first, i)
      ensures |added| > 1 ==> kind != "Capital"
      ensures forall i :: 0 <= i < |added| - 1 ==> (added[i].darts == Fillers(3) &&
        CandidateIndex(orders, first, i).Some? && settled[CandidateIndex(orders, first, i).value] == 0)
      ensures o.Ok? && added != [] ==> (added[|added| - 1].darts == [] &&
        (kind != "Capital" ==> StopsWith(orders, settled, first, |added| - 1)))
      ensures o.Ok? && added == [] ==> kind == "Capital" && status == Finished
      ensures o.Fail? ==>
        o == Fail(NoPlayer) || (kind == "Capital" && added == [] && (o == Fail(NoCurrentTurn) || o == Fail(PlayerNotFound)))
    {
      first := NextOrderToPlay();
      orders := OrdersOf(players);
      settled := SettledScores(players);
      if kind == "Capital" {
        o, added := HandOnCapital(orders, settled, first);
      } else {
        o, added := HandOnCountdown(orders, settled, first, bound);
      }
      HandedOnMeans(old(rows), added, o, orders, settled, first);
    }

    /** `nextPlayer` under Capital: one hand-over, which gives at most one turn. */
    method HandOnCapital(ghost orders: seq<int>, ghost settled: seq<int>, ghost first: int)
      returns (o: Outcome, ghost added: seq<PlayerInRow>)
      requires kind == "Capital"
      requires orders == OrdersOf(players) && settled == SettledScores(players) && first == NextOrderToPlay()
      modifies this, players, TurnSet()
      ensures id == old(id) && kind == old(kind) && players == old(players) && ranking == old(ranking)
      ensures finishType == old(finishType) && isFinishAtFirst == old(isFinishAtFirst)
      ensures status == old(status) || status == Finished
      ensures !(o.Ok? && added == []) ==> status == old(status)
      ensures NamesOf(players) == old(NamesOf(players))
      ensures old(CurrentTurn()).Some? ==> (var c := old(CurrentTurn()).value;
        c.darts == old(c.darts) && c.player == old(c.player) &&
        c.score == if old(PlayerHasOverScore()) then 0 else old(c.score))
      ensures forall i :: 0 <= i < |added| ==> fresh(added[i])
      ensures HandedOn(old(rows), added, o, orders, settled, first)
    {
      var again;
      ghost var t;
      o, again, t := HandOver(orders, settled, first);
      added := if t.Some? then [t.value] else [];
      HandedOnWithoutPassing(old(rows), t, o, orders, settled, first);
    }

    /** `nextPlayer` in a countdown game: a hand-over, then a pass-over of
        every next player on zero, up to the candidate `bound` at latest. */
    method HandOnCountdown(ghost orders: seq<int>, ghost settled: seq<int>, ghost first: int, ghost bound: nat)
      returns (o: Outcome, ghost added: seq<PlayerInRow>)
      requires kind != "Capital"
      requires orders == OrdersOf(players) && settled == SettledScores(players) && first == NextOrderToPlay()
      requires StopsWith(orders, settled, first, bound)
      modifies this, players, TurnSet()
      ensures id == old(id) && kind == old(kind) && players == old(players) && ranking == old(ranking)
      ensures finishType == old(finishType) && isFinishAtFirst == old(isFinishAtFirst) && status == old(status)
      ensures NamesOf(players) == old(NamesOf(players))
      ensures old(CurrentTurn()).Some? ==> (var c := old(CurrentTurn()).value;
        c.darts == old(c.darts) && c.player == old(c.player) &&
        c.score == if old(PlayerHasOverScore()) then 0 else old(c.score))
      ensures forall i :: 0 <= i < |added| ==> fresh(added[i])
      ensures HandedOn(old(rows), added, o, orders, settled, first)
    {
      var again;
      ghost var t;
      ghost var outgoing := CurrentTurn();
      o, again, t := HandOver(orders, settled, first);
      if o.Fail? {
        added := [];
        HandedOnWithoutPassing(old(rows), t, o, orders, settled, first);
        return;
      }
      assert outgoing.Some? ==> outgoing.value != t.value;
      o, added := PassOn(old(rows), t.value, again, orders, settled, first, bound);
    }

    /** A countdown `nextPlayer` once its first turn `t` is placed after the
        rounds `rows0`: passes over players while the last turn given went to
        a player on zero. */
    method PassOn(ghost rows0: seq<seq<PlayerInRow>>, ghost t: PlayerInRow, again: bool,
                  ghost orders: seq<int>, ghost settled: seq<int>, ghost first: int, ghost bound: nat)
      returns (o: Outcome, ghost added: seq<PlayerInRow>)
      requires kind != "Capital" && Holding(players, orders, settled)
      requires rows == Appended(rows0, t, |players|)
      requires TurnOfCandidate(t, players, orders, first, 0)
      requires var idx := CandidateIndex(orders, first, 0).value;
        t.darts == (if settled[idx] == 0 then Fillers(3) else []) && (again <==> settled[idx] == 0)
      requires StopsWith(orders, settled, first, bound)
      modifies this, players, t
      ensures id == old(id) && kind == old(kind) && players == old(players) && ranking == old(ranking)
      ensures finishType == old(finishType) && isFinishAtFirst == old(isFinishAtFirst) && status == old(status)
      ensures NamesOf(players) == old(NamesOf(players))
      ensures |added| >= 1 && added[0] == t && forall i :: 1 <= i < |added| ==> fresh(added[i])
      ensures HandedOn(rows0, added, o, orders, settled, first)
    {
      PlacedIsCurrent(rows0, t);
      PassingAfterHandOver(rows0, t, again, orders, settled, first, bound);
      o, added := PassAlong(rows0, t, again, orders, settled, first, bound);
      PassingTurns(rows0, added, o, false, orders, settled, first, bound);
    }

    /** Where `nextPlayer` leaves the game, having started from the rounds
        `rows0`: the turns `added` are appended, turn `i` to candidate `i`;
        all but the last passed a countdown player on zero over, and the
        last is where the hand-over stops. */
    ghost predicate HandedOn(rows0: seq<seq<PlayerInRow>>, added: seq<PlayerInRow>, o: Outcome,
                             orders: seq<int>, settled: seq<int>, first: int)
      reads this, players, added
    {
      Holding(players, orders, settled) &&
      rows == AppendedAll(rows0, added, |players|) &&
      (forall i :: 0 <= i < |added| ==> TurnOfCandidate(added[i], players, orders, first, i)) &&
      (|added| > 1 ==> kind != "Capital") &&
      (forall i :: 0 <= i < |added| - 1 ==> (added[i].darts == Fillers(3) &&
        CandidateIndex(orders, first, i).Some? && settled[CandidateIndex(orders, first, i).value] == 0)) &&
      (o.Ok? && added != [] ==> (added[|added| - 1].darts == [] &&
        (kind != "Capital" ==> StopsWith(orders, settled, first, |added| - 1)))) &&
      (o.Ok? && added == [] ==> kind == "Capital" && status == Finished) &&
      (o.Ok? ==> (added == [] <==> kind == "Capital" && CapitalCloses(rows0, |players|))) &&
      (o.Fail? ==>
        o == Fail(NoPlayer) || (kind == "Capital" && added == [] && (o == Fail(NoCurrentTurn) || o == Fail(PlayerNotFound))))
    }

    lemma HandedOnMeans(rows0: seq<seq<PlayerInRow>>, added: seq<PlayerInRow>, o: Outcome,
                        orders: seq<int>, settled: seq<int>, first: int)
      requires HandedOn(rows0, added, o, orders, settled, first)
      ensures Holding(players, orders, settled)
      ensures rows == AppendedAll(rows0, added, |players|)
      ensures Flatten(rows) == Flatten(rows0) + added
      ensures RowsFit(rows0, |players|) ==> RowsFit(rows, |players|)
      ensures forall i :: 0 <= i < |added| ==> TurnOfCandidate(added[i], players, orders, first, i)
      ensures |added| > 1 ==> kind != "Capital"
      ensures forall i :: 0 <= i < |added| - 1 ==> (added[i].darts == Fillers(3) &&
        CandidateIndex(orders, first, i).Some? && settled[CandidateIndex(orders, first, i).value] == 0)
      ensures o.Ok? && added != [] ==> (added[|added| - 1].darts == [] &&
        (kind != "Capital" ==> StopsWith(orders, settled, first, |added| - 1)))
      ensures o.Ok? && added == [] ==> kind == "Capital" && status == Finished
      ensures o.Ok? ==> (added == [] <==> kind == "Capital" && CapitalCloses(rows0, |players|))
      ensures o.Fail? ==>
        o == Fail(NoPlayer) || (kind == "Capital" && added == [] && (o == Fail(NoCurrentTurn) || o == Fail(PlayerNotFound)))
    {
      forall i | 0 <= i < |added| - 1
        ensures added[i].darts == Fillers(3)
        ensures CandidateIndex(orders, first, i).Some? && settled[CandidateIndex(orders, first, i).value] == 0
      {
      }
      AppendedAllTurns(rows0, added, |players|);
      if RowsFit(rows0, |players|) {
        assert added != [] ==> TurnOfCandidate(added[0], players, orders, first, 0);
        AppendedAllFits(rows0, added, |players|);
      }
    }

    /** A Capital hand-over, or one that failed, gives at most one turn. */
    lemma HandedOnWithoutPassing(rows0: seq<seq<PlayerInRow>>, t: Option<PlayerInRow>, o: Outcome,
                                 orders: seq<int>, settled: seq<int>, first: int)
      requires kind == "Capital" || o.Fail?
      requires Holding(players, orders, settled)
      requires o.Fail? ==> (rows == rows0 && t.None? &&
        (o == Fail(NoPlayer) || (kind == "Capital" && (o == Fail(NoCurrentTurn) || o == Fail(PlayerNotFound)))))
      requires o.Ok? && t.None? ==> kind == "Capital" && status == Finished && rows == rows0
      requires o.Ok? ==> (t.None? <==> kind == "Capital" && CapitalCloses(rows0, |players|))
      requires o.Ok? && t.Some? ==> (rows == Appended(rows0, t.value, |players|) &&
        TurnOfCandidate(t.value, players, orders, first, 0) && t.value.darts == [])
      ensures HandedOn(rows0, if t.Some? then [t.value] else [], o, orders, settled, first)
    {
      if t.Some? {
        AppendedAllStep(rows0, [], t.value, |players|);
      }
    }

    /** The rest of a countdown `nextPlayer` once turn `t` is given: passes
        over players while the last turn given went to a player on zero. */
    method PassAlong(ghost rows0: seq<seq<PlayerInRow>>, ghost t: PlayerInRow, again: bool,
                     ghost orders: seq<int>, ghost settled: seq<int>, ghost first: int, ghost bound: nat)
      returns (o: Outcome, ghost added: seq<PlayerInRow>)
      requires kind != "Capital" && Passing(rows0, [t], Ok, again, orders, settled, first, bound)
      modifies this, players, TurnSet()
      ensures id == old(id) && kind == old(kind) && players == old(players) && ranking == old(ranking)
      ensures finishType == old(finishType) && isFinishAtFirst == old(isFinishAtFirst) && status == old(status)
      ensures Passing(rows0, added, o, false, orders, settled, first, bound)
      ensures NamesOf(players) == old(NamesOf(players))
      ensures |added| >= 1 && added[0] == t && forall i :: 1 <= i < |added| ==> fresh(added[i])
    {
      o := Ok;
      added := [t];
      if again {
        o, added := PassOverAll(rows0, added, orders, settled, first, bound);
      }
    }

    /** A turn just placed is the current turn. */
    lemma PlacedIsCurrent(rows0: seq<seq<PlayerInRow>>, t: PlayerInRow)
      requires rows == Appended(rows0, t, |players|)
      ensures CurrentTurn() == Some(t) && TurnSet() == {t}
    {
      AppendedTurns(rows0, t, |players|);
    }

    /** The state the first pass of a countdown `nextPlayer` leaves: one
        turn, for candidate 0, appended to the rounds `rows0`. */
    lemma PassingAfterHandOver(rows0: seq<seq<PlayerInRow>>, t: PlayerInRow, again: bool,
                               orders: seq<int>, settled: seq<int>, first: int, bound: nat)
      requires Holding(players, orders, settled)
      requires rows == Appended(rows0, t, |players|)
      requires TurnOfCandidate(t, players, orders, first, 0)
      requires var idx := CandidateIndex(orders, first, 0).value;
        t.darts == (if settled[idx] == 0 then Fillers(3) else []) && (again <==> settled[idx] == 0)
      requires StopsWith(orders, settled, first, bound)
      ensures Passing(rows0, [t], Ok, again, orders, settled, first, bound)
    {
      AppendedAllStep(rows0, [], t, |players|);
      assert [t][..0] == [];
      if again {
        assert !StopsWith(orders, settled, first, 0);
      }
    }

    // ------------------------------------------------------------ setup

    /** `hydrate`: overwrites every field from stored data; players, turns
        (each with its own copy of its player) and ranking are fresh copies. */
    method Hydrate(data: GameData)
      modifies this
      ensures id == data.id && kind == data.kind && status == data.status
      ensures finishType == data.finishType && isFinishAtFirst == data.isFinishAtFirst
      ensures |players| == |data.players|
      ensures forall i :: 0 <= i < |players| ==> fresh(players[i]) && players[i].Data() == data.players[i]
      ensures |ranking| == |data.ranking|
      ensures forall i :: 0 <= i < |ranking| ==> fresh(ranking[i]) && ranking[i].Data() == data.ranking[i]
      ensures |rows| == |data.rows|
      ensures forall i :: 0 <= i < |rows| ==> |rows[i]| == |data.rows[i]|
      ensures forall i, j :: 0 <= i < |rows| && 0 <= j < |rows[i]| ==>
        fresh(rows[i][j]) && fresh(rows[i][j].player) && rows[i][j].Data() == data.rows[i][j]
    {
      id := data.id;
      kind := data.kind;
      status := data.status;
      finishType := data.finishType;
      isFinishAtFirst := data.isFinishAtFirst;
      players := RebuildAll(data.players);
      rows := RebuildRows(data.rows);
      ranking := RebuildAll(data.ranking);
    }

    /** `start`, given what storage holds for this game: hydrates from it,
        marks the game started and, when no round has been played, opens
        the first round with a turn for the player of order 1; without one
        it fails, the game left hydrated and started. */
    method Start(data: GameData) returns (o: Outcome)
      modifies this
      ensures id == data.id && kind == data.kind && status == Started
      ensures finishType == data.finishType && isFinishAtFirst == data.isFinishAtFirst
      ensures |players| == |data.players|
      ensures forall i :: 0 <= i < |players| ==> fresh(players[i]) && players[i].Data() == data.players[i]
      ensures |ranking| == |data.ranking|
      ensures forall i :: 0 <= i < |ranking| ==> fresh(ranking[i]) && ranking[i].Data() == data.ranking[i]
      ensures data.rows != [] ==> o == Ok && |rows| == |data.rows|
      ensures data.rows != [] ==> forall i :: 0 <= i < |rows| ==> |rows[i]| == |data.rows[i]|
      ensures data.rows != [] ==> forall i, j :: 0 <= i < |rows| && 0 <= j < |rows[i]| ==>
        fresh(rows[i][j]) && fresh(rows[i][j].player) && rows[i][j].Data() == data.rows[i][j]
      ensures data.rows == [] ==> (o.Ok? <==> FindByOrder(players, 1).Some?)
      ensures data.rows == [] && o.Fail? ==> o == Fail(NoPlayer) && rows == []
      ensures data.rows == [] && o.Ok? ==>
        |rows| == 1 && |rows[0]| == 1 && fresh(rows[0][0]) &&
        rows[0][0].player == FindByOrder(players, 1).value && rows[0][0].score == 0 && rows[0][0].darts == []
    {
      Hydrate(data);
      status := Started;
      o := OpenFirstRound();
    }

    /** The part of `start` that, when no round has been played, opens the
        first round with a turn for the player of order 1. */
    method OpenFirstRound() returns (o: Outcome)
      modifies this
      ensures id == old(id) && kind == old(kind) && status == old(status)
      ensures players == old(players) && ranking == old(ranking)
      ensures finishType == old(finishType) && isFinishAtFirst == old(isFinishAtFirst)
      ensures old(rows) != [] ==> o == Ok && rows == old(rows)
      ensures old(rows) == [] ==> (o.Ok? <==> FindByOrder(players, 1).Some?)
      ensures old(rows) == [] && o.Fail? ==> o == Fail(NoPlayer) && rows == []
      ensures old(rows) == [] && o.Ok? ==>
        |rows| == 1 && |rows[0]| == 1 && fresh(rows[0][0]) &&
        rows[0][0].player == FindByOrder(players, 1).value && rows[0][0].score == 0 && rows[0][0].darts == []
    {
      o := Ok;
      if rows == [] {
        var next := NextPlayerToPlay();
        if next.None? {
          return Fail(NoPlayer);
        }
        var t := new PlayerInRow(next.value, 0, []);
        rows := [[t]];
      }
    }

    /** `resetGame`: forgets every round and the ranking, makes the game
        pending again and puts every player back on the type's starting
        score. */
    method ResetGame()
      modifies this, players
      ensures id == old(id) && kind == old(kind) && players == old(players)
      ensures finishType == old(finishType) && isFinishAtFirst == old(isFinishAtFirst)
      ensures rows == [] && ranking == [] && status == Pending
      ensures forall j :: 0 <= j < |players| ==>
        players[j].score == StartScore(kind) && players[j].name == old(players[j].name) && players[j].order == old(players[j].order)
    {
      rows := [];
      ranking := [];
      status := Pending;
      var start := StartScore(kind);
      for i := 0 to |players|
        invariant id == old(id) && kind == old(kind) && players == old(players)
        invariant finishType == old(finishType) && isFinishAtFirst == old(isFinishAtFirst)
        invariant rows == [] && ranking == [] && status == Pending
        invariant forall j :: 0 <= j < i ==> players[j].score == start
        invariant forall j :: 0 <= j < |players| ==>
          players[j].name == old(players[j].name) && players[j].order == old(players[j].order)
      {
        players[i].score := start;
      }
    }

    /** `checkSetup`: refuses a game without players; otherwise drops every
        player left without a name. */
    method CheckSetup() returns (o: Outcome)
      modifies this
      ensures id == old(id) && kind == old(kind) && status == old(status) && rows == old(rows)
      ensures ranking == old(ranking) && finishType == old(finishType) && isFinishAtFirst == old(isFinishAtFirst)
      ensures |old(players)| < 1 ==> o == Fail(NotEnoughPlayers) && players == old(players)
      ensures |old(players)| >= 1 ==> o == Ok && players == Named(old(players))
    {
      if |players| < 1 {
        return Fail(NotEnoughPlayers);
      }
      players := Named(players);
      o := Ok;
    }

    /** `getPlayerOrderByScore`: sorts the players in place by ascending
        score, keeping ties in their order, and returns them. */
    method GetPlayerOrderByScore() returns (r: seq<Player>)
      modifies this
      ensures id == old(id) && kind == old(kind) && status == old(status) && rows == old(rows)
      ensures ranking == old(ranking) && finishType == old(finishType) && isFinishAtFirst == old(isFinishAtFirst)
      ensures players == SortByScore(old(players)) && r == players
    {
      players := SortByScore(players);
      r := players;
    }
  }
}
