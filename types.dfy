/** Record shapes shared by the scorekeeper's engine (types/index.ts), plus the
    error outcomes its operations raise. */
module DartsTypes {

  datatype Option<T> = None | Some(value: T)

  /** One throw: the value of the sector hit and its multiplier (DartsType).
      The engine stores whatever it is given; fillers use multiplier 0. */
  datatype Dart = Dart(score: int, multiplier: int)

  /** The dart the engine pads a closed turn with: `{score: 0, multiplier: 0}`. */
  const Filler: Dart := Dart(0, 0)

  /** Points a dart is worth: score times multiplier. */
  function Points(d: Dart): int {
    d.score * d.multiplier
  }

  /** Sum of the points of a list of darts (the `reduce` the engine uses). */
  function Total(ds: seq<Dart>): int {
    if ds == [] then 0 else Total(ds[..|ds| - 1]) + Points(ds[|ds| - 1])
  }

  /** `n` filler darts. */
  function Fillers(n: nat): (r: seq<Dart>)
    ensures |r| == n
    ensures forall i :: 0 <= i < n ==> r[i] == Filler
  {
    if n == 0 then [] else Fillers(n - 1) + [Filler]
  }

  /** A turn padded with fillers up to three darts, as the engine's padding loops leave it. */
  function PaddedToThree(ds: seq<Dart>): seq<Dart> {
    if |ds| < 3 then ds + Fillers(3 - |ds|) else ds
  }

  lemma {:induction false} TotalOfFillers(n: nat)
    ensures Total(Fillers(n)) == 0
  {
    if n > 0 {
      TotalOfFillers(n - 1);
      assert Fillers(n)[..n - 1] == Fillers(n - 1);
    }
  }

  lemma {:induction false} TotalAppend(a: seq<Dart>, b: seq<Dart>)
    ensures Total(a + b) == Total(a) + Total(b)
  {
    if b != [] {
      TotalAppend(a, b[..|b| - 1]);
      assert (a + b)[..|a + b| - 1] == a + b[..|b| - 1];
    } else {
      assert a + b == a;
    }
  }

  /** Padding adds no points. */
  lemma PaddingKeepsTotal(ds: seq<Dart>)
    ensures Total(PaddedToThree(ds)) == Total(ds)
    ensures |ds| <= 3 ==> |PaddedToThree(ds)| == 3
  {
    if |ds| < 3 {
      TotalAppend(ds, Fillers(3 - |ds|));
      TotalOfFillers(3 - |ds|);
    }
  }

  predicate IsDigit(c: char) {
    '0' <= c <= '9'
  }

  /** The number a string of decimal digits denotes, most significant first. */
  function DecimalValue(s: string): nat
    requires forall i :: 0 <= i < |s| ==> IsDigit(s[i])
  {
    if s == [] then 0
    else
      var last := s[|s| - 1];
      assert IsDigit(last);
      10 * DecimalValue(s[..|s| - 1]) + (last as int - '0' as int)
  }

  function DigitChar(d: int): (c: char)
    requires 0 <= d < 10
    ensures IsDigit(c) && c as int - '0' as int == d
  {
    ('0' as int + d) as char
  }

  /** Decimal text of a natural number (the `${n}` of a template string). */
  function NatToString(n: nat): (s: string)
    ensures |s| >= 1
  {
    if n < 10 then [DigitChar(n)] else NatToString(n / 10) + [DigitChar(n % 10)]
  }

  /** The text reads back as the number, and has no leading zero. */
  lemma {:induction false} NatToStringReadsBack(n: nat)
    ensures var s := NatToString(n);
      (forall i :: 0 <= i < |s| ==> IsDigit(s[i])) && DecimalValue(s) == n && (n >= 10 ==> s[0] != '0')
  {
    if n >= 10 {
      NatToStringReadsBack(n / 10);
      var s := NatToString(n);
      assert s[..|s| - 1] == NatToString(n / 10);
    }
  }

  /** Plain data of a player (PlayerType), as a snapshot holds it. */
  datatype PlayerData = PlayerData(id: int, name: string, score: int, order: int)

  /** Plain data of one player's turn in a round (PlayerInRowType). */
  datatype TurnData = TurnData(player: PlayerData, score: int, darts: seq<Dart>)

  datatype Status = Pending | Started | Finished

  /** Finish rule: "classic" or "double" (double-out). */
  datatype FinishType = Classic | DoubleOut

  /** A stored game (GameType); what `start` loads and hydrates from. */
  datatype GameData = GameData(
    id: string,
    kind: string,
    status: Status,
    players: seq<PlayerData>,
    rows: seq<seq<TurnData>>,
    ranking: seq<PlayerData>,
    finishType: FinishType,
    isFinishAtFirst: bool)

  /** The errors the engine throws. */
  datatype EngineError =
    | NoCurrentTurn     // "Aucun joueur en cours"
    | PlayerNotFound    // "...playernotfound", "Joueur introuvable"
    | TooManyDarts      // "Trop de fléchettes jouées"
    | NoDart            // "No dart found"
    | NoPlayer          // "No player found"
    | NotEnoughPlayers  // "Pas assez de joueur (1 min)"

  datatype Outcome = Ok | Fail(error: EngineError)

  datatype Result<T> = Success(value: T) | Failure(error: EngineError)

  lemma AppendAssoc<T>(a: seq<T>, b: seq<T>, c: seq<T>)
    ensures a + (b + c) == (a + b) + c
  {
  }

  /** Each position comes after the one before. */
  predicate StrictlyIncreasing(s: seq<nat>) {
    forall k, l :: 0 <= k < l < |s| ==> s[k] < s[l]
  }

  /** Each position one further on. */
  function Shift(s: seq<nat>): (r: seq<nat>)
    ensures |r| == |s| && forall k :: 0 <= k < |s| ==> r[k] == s[k] + 1
  {
    seq(|s|, k requires 0 <= k < |s| => s[k] + 1)
  }

  lemma ShiftMember(s: seq<nat>, i: nat)
    ensures i in Shift(s) <==> i >= 1 && i - 1 in s
  {
    if i >= 1 && i - 1 in s {
      var k :| 0 <= k < |s| && s[k] == i - 1;
      assert Shift(s)[k] == i;
    }
  }

  /** Shifting increasing positions, with or without a leading 0, keeps them increasing. */
  lemma ShiftIncreasing(s: seq<nat>)
    requires StrictlyIncreasing(s)
    ensures StrictlyIncreasing(Shift(s)) && StrictlyIncreasing([0] + Shift(s))
  {
    var t := [0] + Shift(s);
    forall k, l | 0 <= k < l < |t|
      ensures t[k] < t[l]
    {
      assert t[l] == s[l - 1] + 1;
      if k >= 1 {
        assert t[k] == s[k - 1] + 1;
      }
    }
  }

  /** Two pieces of which one is empty can trade places. */
  lemma SwapEmpty<T>(a: seq<T>, b: seq<T>, c: seq<T>)
    requires a == [] || b == []
    ensures a + (b + c) == b + (a + c)
  {
    if a == [] {
      assert a + (b + c) == b + c;
      assert a + c == c;
    } else {
      assert b + c == c;
      assert b + (a + c) == a + c;
    }
  }
}
