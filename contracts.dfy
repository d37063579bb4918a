/** The Capital variant's fourteen per-round contracts and the scoring of a turn's
    darts against them (services/capital/contracts.ts). Everything here is pure. */
module CapitalContracts {
  import opened DartsTypes
  import opened Dartboard

  datatype ContractKey =
    | S20 | Triple | S19 | Double | S18 | SideBySide | S17
    | Suite | S16 | Couleur | S15 | Total57 | S14 | Centre

  datatype Contract = Contract(key: ContractKey, title: string, description: string)

  /** CAPITAL_CONTRACTS: round i of a Capital game plays contract i. */
  const CapitalContractList: seq<Contract> := [
    Contract(S20, "20", "Toucher au moins un 20"),
    Contract(Triple, "Triple", "Toucher au moins un triple (T)"),
    Contract(S19, "19", "Toucher au moins un 19"),
    Contract(Double, "Double", "Toucher au moins un double (D)"),
    Contract(S18, "18", "Toucher au moins un 18"),
    Contract(SideBySide, "Side by Side", "Trois secteurs mitoyens (adjacents sur la cible)"),
    Contract(S17, "17", "Toucher au moins un 17"),
    Contract(Suite, "Suite", "Trois numéros consécutifs (ex: 7-8-9)"),
    Contract(S16, "16", "Toucher au moins un 16"),
    Contract(Couleur, "Couleur", "Trois fléchettes dans trois couleurs différentes (blanc, noir, rouge, vert)"),
    Contract(S15, "15", "Toucher au moins un 15"),
    Contract(Total57, "57", "Total de 57 points (avec 1 à 3 fléchettes)"),
    Contract(S14, "14", "Toucher au moins un 14"),
    Contract(Centre, "Centre", "Toucher le Bull (25 ou 50)")
  ]

  /** The number a "hit an N" contract asks for. */
  function NumberOf(key: ContractKey): Option<int> {
    match key
    case S20 => Some(20)
    case S19 => Some(19)
    case S18 => Some(18)
    case S17 => Some(17)
    case S16 => Some(16)
    case S15 => Some(15)
    case S14 => Some(14)
    case _ => None
  }

  /** Some dart landed on number `n`, whatever its multiplier. */
  predicate HitsNumber(darts: seq<Dart>, n: int) {
    exists d :: d in darts && d.score == n
  }

  /** Only the numbers 1..20 count as sector numbers; misses and bulls do not. */
  function BaseFromScore(score: int): (r: Option<int>)
    ensures r.Some? <==> 1 <= score <= 20
    ensures r.Some? ==> r.value == score
  {
    if 1 <= score && score <= 20 then Some(score) else None
  }

  /** The sector numbers the darts hit, in throw order (`bases`). */
  function Bases(darts: seq<Dart>): (r: seq<int>)
    ensures forall x :: x in r <==> 1 <= x <= 20 && HitsNumber(darts, x)
  {
    if darts == [] then []
    else
      var rest := Bases(darts[..|darts| - 1]);
      assert darts == darts[..|darts| - 1] + [darts[|darts| - 1]];
      match BaseFromScore(darts[|darts| - 1].score)
      case None => rest
      case Some(b) => rest + [b]
  }

  /** The multipliers of the darts, in throw order. */
  function Multipliers(darts: seq<Dart>): (r: seq<int>)
    ensures forall m :: m in r <==> exists d :: d in darts && d.multiplier == m
  {
    if darts == [] then []
    else
      assert darts == darts[..|darts| - 1] + [darts[|darts| - 1]];
      Multipliers(darts[..|darts| - 1]) + [darts[|darts| - 1].multiplier]
  }

  /** `[...new Set(xs)]`: the distinct values of `xs` in first-occurrence order. */
  function Uniq(xs: seq<int>): (r: seq<int>)
    ensures forall x :: x in r <==> x in xs
    ensures forall i, j :: 0 <= i < j < |r| ==> r[i] != r[j]
    ensures |r| <= |xs|
  {
    if xs == [] then []
    else
      var u := Uniq(xs[..|xs| - 1]);
      assert xs == xs[..|xs| - 1] + [xs[|xs| - 1]];
      if xs[|xs| - 1] in u then u else u + [xs[|xs| - 1]]
  }

  /** Three values in ascending order. */
  function Sort3(a: int, b: int, c: int): (int, int, int) {
    if a <= b then
      if b <= c then (a, b, c) else if a <= c then (a, c, b) else (c, a, b)
    else
      if a <= c then (b, a, c) else if b <= c then (b, c, a) else (c, b, a)
  }

  /** Three distinct values that are consecutive integers, in any order. */
  function IsNumericSuite(nums: seq<int>): bool {
    if |nums| != 3 then false
    else
      var s := Uniq(nums);
      if |s| != 3 then false
      else
        var t := Sort3(s[0], s[1], s[2]);
        t.1 == t.0 + 1 && t.2 == t.1 + 1
  }

  /** Board position `i` lies in the window of three sectors starting at `start`. */
  predicate InWindow(i: int, start: int) {
    i == start || i == (start + 1) % 20 || i == (start + 2) % 20
  }

  /** Three numbers whose board positions all fall in one window of three
      neighbouring sectors (wrapping past the 5 back to the 20). */
  function IsAdjacentTripletOnBoard(nums: seq<int>): bool {
    if |nums| != 3 then false
    else
      var a := IndexOf(StandardSectors, nums[0]);
      var b := IndexOf(StandardSectors, nums[1]);
      var c := IndexOf(StandardSectors, nums[2]);
      if a.None? || b.None? || c.None? then false
      else exists start :: 0 <= start < 20 && InWindow(a.value, start)
                             && InWindow(b.value, start) && InWindow(c.value, start)
  }

  datatype Color = White | Black | Red | Green

  /** The ring colour of a hit: bulls and trebles/doubles by their ring, single
      sectors alternating black and white around the board. A hit with no
      sector shows no colour unless it is recorded as a treble or a double. */
  function ColorOfHit(score: int, multiplier: int, base: Option<int>): Option<Color> {
    if score == 50 then Some(Red)
    else if score == 25 then Some(Green)
    else if multiplier == 3 then Some(Red)
    else if multiplier == 2 then Some(Green)
    else if base.None? || base.value == 0 then None
    else match IndexOf(StandardSectors, base.value)
      case None => None
      case Some(i) => if i % 2 == 0 then Some(Black) else Some(White)
  }

  function DartColor(d: Dart): Option<Color> {
    ColorOfHit(d.score, d.multiplier, BaseFromScore(d.score))
  }

  /** The distinct colours the darts show. */
  function ColorsOf(darts: seq<Dart>): set<Color> {
    set d | d in darts && DartColor(d).Some? :: DartColor(d).value
  }

  predicate SomeAdjacentTriplet(u: seq<int>) {
    exists i, j, k :: 0 <= i < j < k < |u| && IsAdjacentTripletOnBoard([u[i], u[j], u[k]])
  }

  predicate SomeNumericSuite(u: seq<int>) {
    exists i, j, k :: 0 <= i < j < k < |u| && IsNumericSuite([u[i], u[j], u[k]])
  }

  /** Whether a turn's darts fulfil contract `key`. */
  function EvaluateContract(key: ContractKey, darts: seq<Dart>): (r: bool)
    ensures NumberOf(key).Some? ==> (r <==> HitsNumber(darts, NumberOf(key).value))
    ensures key == Triple ==> (r <==> exists d :: d in darts && d.multiplier == 3)
    ensures key == Double ==> (r <==> exists d :: d in darts && d.multiplier == 2)
    ensures key == Centre ==> (r <==> exists d :: d in darts && (d.score == 25 || d.score == 50))
    ensures key == Total57 ==> (r <==> Total(darts) == 57)
    ensures key == Couleur ==> (r <==> |ColorsOf(darts)| >= 3)
  {
    var bases := Bases(darts);
    var multipliers := Multipliers(darts);
    var total := Total(darts);
    match key
    case S20 => 20 in bases
    case Triple => 3 in multipliers
    case S19 => 19 in bases
    case Double => 2 in multipliers
    case S18 => 18 in bases
    case SideBySide =>
      var uniq := Uniq(bases);
      if |uniq| < 3 then false else SomeAdjacentTriplet(uniq)
    case S17 => 17 in bases
    case Suite =>
      var uniq := Uniq(bases);
      if |uniq| < 3 then false else SomeNumericSuite(uniq)
    case S16 => 16 in bases
    case Couleur => |ColorsOf(darts)| >= 3
    case S15 => 15 in bases
    case Total57 => total == 57
    case S14 => 14 in bases
    case Centre => exists d :: d in darts && (d.score == 25 || d.score == 50)
  }

  /** Points a turn earns under contract `key`. */
  function ComputeContractPoints(key: ContractKey, darts: seq<Dart>): (r: int)
    ensures !EvaluateContract(key, darts) ==> r == 0
  {
    if !EvaluateContract(key, darts) then 0
    else if key == Total57 then 57
    else Total(darts)
  }

  /** The contract of round `roundIndex` (0-based), clamped to the list. */
  function GetContractForRound(roundIndex: int): (r: Contract)
    ensures r in CapitalContractList
    ensures 0 <= roundIndex < |CapitalContractList| ==> r == CapitalContractList[roundIndex]
    ensures roundIndex <= 0 ==> r.key == S20
    ensures roundIndex >= |CapitalContractList| - 1 ==> r.key == Centre
  {
    var idx := if roundIndex < 0 then 0
               else if roundIndex > |CapitalContractList| - 1 then |CapitalContractList| - 1
               else roundIndex;
    CapitalContractList[idx]
  }

  // ---------------------------------------------------------------------------
  // What the contracts mean

  /** The three board-neighbouring sectors starting at position `k` were all hit. */
  predicate HitsBoardWindow(darts: seq<Dart>, k: int)
    requires 0 <= k < 20
  {
    && HitsNumber(darts, StandardSectors[k])
    && HitsNumber(darts, StandardSectors[(k + 1) % 20])
    && HitsNumber(darts, StandardSectors[(k + 2) % 20])
  }

  /** Three consecutive numbers starting at `n` were all hit. */
  predicate HitsRun(darts: seq<Dart>, n: int) {
    1 <= n <= 18 && HitsNumber(darts, n) && HitsNumber(darts, n + 1) && HitsNumber(darts, n + 2)
  }

  /** Three distinct positions, put in ascending order. */
  lemma Order3(a: int, b: int, c: int) returns (i: int, j: int, k: int)
    requires a != b && b != c && a != c
    ensures i < j < k
    ensures i in {a, b, c} && j in {a, b, c} && k in {a, b, c}
  {
    var t := Sort3(a, b, c);
    i, j, k := t.0, t.1, t.2;
  }

  lemma UniqOfDistinct3(a: int, b: int, c: int)
    requires a != b && b != c && a != c
    ensures Uniq([a, b, c]) == [a, b, c]
  {
    assert [a][..0] == [];
    assert Uniq([a]) == [a];
    assert [a, b][..1] == [a];
    assert Uniq([a, b]) == [a, b];
    assert [a, b, c][..2] == [a, b];
  }

  /** Some value of `xs` equals `x`: name its position. */
  lemma PositionOf(xs: seq<int>, x: int) returns (p: int)
    requires x in xs
    ensures 0 <= p < |xs| && xs[p] == x
  {
    p :| 0 <= p < |xs| && xs[p] == x;
  }

  /** Three distinct positions inside one window of three fill that window. */
  lemma WindowFilled(a: int, b: int, c: int, s: int)
    requires 0 <= s < 20 && a != b && b != c && a != c
    requires InWindow(a, s) && InWindow(b, s) && InWindow(c, s)
    ensures s in {a, b, c} && (s + 1) % 20 in {a, b, c} && (s + 2) % 20 in {a, b, c}
  {
  }

  /** Three distinct numbers hit and adjacent on the board fill a board window. */
  lemma AdjacentTripletFillsWindow(darts: seq<Dart>, x: int, y: int, z: int)
    requires x != y && y != z && x != z
    requires HitsNumber(darts, x) && HitsNumber(darts, y) && HitsNumber(darts, z)
    requires IsAdjacentTripletOnBoard([x, y, z])
    ensures exists k :: 0 <= k < 20 && HitsBoardWindow(darts, k)
  {
    var a := IndexOf(StandardSectors, x).value;
    var b := IndexOf(StandardSectors, y).value;
    var c := IndexOf(StandardSectors, z).value;
    var s :| 0 <= s < 20 && InWindow(a, s) && InWindow(b, s) && InWindow(c, s);
    WindowFilled(a, b, c, s);
    assert HitsBoardWindow(darts, s);
  }

  lemma SideBySideSound(darts: seq<Dart>)
    requires EvaluateContract(SideBySide, darts)
    ensures exists k :: 0 <= k < 20 && HitsBoardWindow(darts, k)
  {
    var bases := Bases(darts);
    var u := Uniq(bases);
    var i, j, k :| 0 <= i < j < k < |u| && IsAdjacentTripletOnBoard([u[i], u[j], u[k]]);
    assert u[i] in bases && u[j] in bases && u[k] in bases;
    AdjacentTripletFillsWindow(darts, u[i], u[j], u[k]);
  }

  /** Any three numbers taken from one board window are an adjacent triplet. */
  lemma WindowIsAdjacentTriplet(k: int, nums: seq<int>)
    requires 0 <= k < 20 && |nums| == 3
    requires forall m :: 0 <= m < 3 ==>
      nums[m] in {StandardSectors[k], StandardSectors[(k + 1) % 20], StandardSectors[(k + 2) % 20]}
    ensures IsAdjacentTripletOnBoard(nums)
  {
    IndexOfSector(k);
    IndexOfSector((k + 1) % 20);
    IndexOfSector((k + 2) % 20);
    assert InWindow(IndexOf(StandardSectors, nums[0]).value, k);
    assert InWindow(IndexOf(StandardSectors, nums[1]).value, k);
    assert InWindow(IndexOf(StandardSectors, nums[2]).value, k);
  }

  /** Three distinct numbers that were hit appear, in some order, at three
      increasing positions of the distinct hit numbers. */
  lemma ThreeHitNumbers(darts: seq<Dart>, x: int, y: int, z: int) returns (i: int, j: int, l: int)
    requires x != y && y != z && x != z
    requires x in Bases(darts) && y in Bases(darts) && z in Bases(darts)
    ensures 0 <= i < j < l < |Uniq(Bases(darts))|
    ensures var u := Uniq(Bases(darts)); u[i] in {x, y, z} && u[j] in {x, y, z} && u[l] in {x, y, z}
  {
    var u := Uniq(Bases(darts));
    var px := PositionOf(u, x);
    var py := PositionOf(u, y);
    var pz := PositionOf(u, z);
    i, j, l := Order3(px, py, pz);
  }

  /** The three positions of a window on the board are distinct. */
  lemma WindowPositions(k: int)
    requires 0 <= k < 20
    ensures 0 <= (k + 1) % 20 < 20 && 0 <= (k + 2) % 20 < 20
    ensures k != (k + 1) % 20 && k != (k + 2) % 20 && (k + 1) % 20 != (k + 2) % 20
  {
    if k < 18 {
      assert (k + 1) % 20 == k + 1 && (k + 2) % 20 == k + 2;
    } else if k == 18 {
      assert (k + 1) % 20 == 19 && (k + 2) % 20 == 0;
    } else {
      assert (k + 1) % 20 == 0 && (k + 2) % 20 == 1;
    }
  }

  lemma SideBySideComplete(darts: seq<Dart>, k: int)
    requires 0 <= k < 20 && HitsBoardWindow(darts, k)
    ensures EvaluateContract(SideBySide, darts)
  {
    WindowPositions(k);
    var k1, k2 := (k + 1) % 20, (k + 2) % 20;
    var x, y, z := StandardSectors[k], StandardSectors[k1], StandardSectors[k2];
    SectorsDiffer(k, k1);
    SectorsDiffer(k, k2);
    SectorsDiffer(k1, k2);
    SectorNumber(k);
    SectorNumber(k1);
    SectorNumber(k2);
    assert x in Bases(darts) && y in Bases(darts) && z in Bases(darts);
    var i, j, l := ThreeHitNumbers(darts, x, y, z);
    var u := Uniq(Bases(darts));
    WindowIsAdjacentTriplet(k, [u[i], u[j], u[l]]);
    assert SomeAdjacentTriplet(u);
  }

  /** SIDE_BY_SIDE holds exactly when three sectors that neighbour each other on
      the board (wrapping round) were all hit. */
  lemma SideBySideMeaning(darts: seq<Dart>)
    ensures EvaluateContract(SideBySide, darts) <==> exists k :: 0 <= k < 20 && HitsBoardWindow(darts, k)
  {
    if EvaluateContract(SideBySide, darts) {
      SideBySideSound(darts);
    } else if k :| 0 <= k < 20 && HitsBoardWindow(darts, k) {
      SideBySideComplete(darts, k);
    }
  }

  lemma SuiteSound(darts: seq<Dart>)
    requires EvaluateContract(Suite, darts)
    ensures exists n :: HitsRun(darts, n)
  {
    var u := Uniq(Bases(darts));
    var i, j, k :| 0 <= i < j < k < |u| && IsNumericSuite([u[i], u[j], u[k]]);
    var x, y, z := u[i], u[j], u[k];
    assert x in Bases(darts) && y in Bases(darts) && z in Bases(darts);
    UniqOfDistinct3(x, y, z);
    Sort3Picks(x, y, z);
    assert HitsRun(darts, Sort3(x, y, z).0);
  }

  /** Each value `Sort3` gives back is one of the three it was given. */
  lemma Sort3Picks(a: int, b: int, c: int)
    ensures var t := Sort3(a, b, c);
      (t.0 == a || t.0 == b || t.0 == c) && (t.1 == a || t.1 == b || t.1 == c) && (t.2 == a || t.2 == b || t.2 == c)
  {
  }

  lemma SuiteComplete(darts: seq<Dart>, n: int)
    requires HitsRun(darts, n)
    ensures EvaluateContract(Suite, darts)
  {
    var u := Uniq(Bases(darts));
    assert n in Bases(darts) && n + 1 in Bases(darts) && n + 2 in Bases(darts);
    var p0 := PositionOf(u, n);
    var p1 := PositionOf(u, n + 1);
    var p2 := PositionOf(u, n + 2);
    var i, j, l := Order3(p0, p1, p2);
    UniqOfDistinct3(u[i], u[j], u[l]);
    assert IsNumericSuite([u[i], u[j], u[l]]);
  }

  /** SUITE holds exactly when three consecutive numbers n, n+1, n+2 were all hit. */
  lemma SuiteMeaning(darts: seq<Dart>)
    ensures EvaluateContract(Suite, darts) <==> exists n :: HitsRun(darts, n)
  {
    if EvaluateContract(Suite, darts) {
      SuiteSound(darts);
    } else if n :| HitsRun(darts, n) {
      SuiteComplete(darts, n);
    }
  }

  /** The colour of every hit: the bulls and the treble and double rings
      first, then the single sectors by their place around the board, the
      one at the top (20) black; a single without a sector shows none. */
  lemma ColorOfHitMeaning(score: int, multiplier: int, base: Option<int>)
    ensures score == 50 ==> ColorOfHit(score, multiplier, base) == Some(Red)
    ensures score == 25 ==> ColorOfHit(score, multiplier, base) == Some(Green)
    ensures score != 50 && score != 25 && multiplier == 3 ==> ColorOfHit(score, multiplier, base) == Some(Red)
    ensures score != 50 && score != 25 && multiplier == 2 ==> ColorOfHit(score, multiplier, base) == Some(Green)
    ensures score != 50 && score != 25 && multiplier != 3 && multiplier != 2 ==>
      (ColorOfHit(score, multiplier, base).None? <==> base.None? || base.value !in StandardSectors)
    ensures forall q :: (0 <= q < 20 && score != 50 && score != 25 && multiplier != 3 && multiplier != 2 &&
                         base == Some(StandardSectors[q])) ==>
      ColorOfHit(score, multiplier, base) == Some(if q % 2 == 0 then Black else White)
  {
    SectorsAreOneToTwenty();
    forall q | 0 <= q < 20 && base == Some(StandardSectors[q])
      ensures IndexOf(StandardSectors, base.value) == Some(q)
    {
      IndexOfSector(q);
    }
  }

  /** A dart that hit no sector: a treble shows red, a double green, any
      other none. */
  lemma MissColor(d: Dart)
    requires d.score == 0
    ensures DartColor(d) == if d.multiplier == 3 then Some(Red) else if d.multiplier == 2 then Some(Green) else None
  {
  }

  /** Single hits on numbers only ever show black or white. */
  lemma SingleHitColor(d: Dart)
    requires d.score != 50 && d.score != 25 && d.multiplier != 3 && d.multiplier != 2
    ensures DartColor(d) in {None, Some(Black), Some(White)}
  {
  }

  /** A set of colours drawn from black and white has at most two members. */
  lemma AtMostBlackAndWhite(cs: set<Color>)
    requires forall c :: c in cs ==> c == Black || c == White
    ensures |cs| <= 2
  {
    if Black in cs && White in cs {
      assert cs == {Black, White};
    } else if Black in cs {
      assert cs == {Black};
    } else if White in cs {
      assert cs == {White};
    } else {
      assert cs == {};
    }
  }

  /** COULEUR can only be met with a bull, a double or a treble among the darts:
      plain singles give at most black and white. */
  lemma CouleurNeedsRingHit(darts: seq<Dart>)
    requires EvaluateContract(Couleur, darts)
    ensures exists d :: d in darts && (d.score == 50 || d.score == 25 || d.multiplier == 3 || d.multiplier == 2)
  {
    if !exists d :: d in darts && (d.score == 50 || d.score == 25 || d.multiplier == 3 || d.multiplier == 2) {
      var cs := ColorsOf(darts);
      forall c | c in cs ensures c == Black || c == White {
        var d :| d in darts && DartColor(d).Some? && DartColor(d).value == c;
        SingleHitColor(d);
      }
      AtMostBlackAndWhite(cs);
    }
  }

  /** A turn shows no more colours than it has darts. */
  lemma {:induction false} ColorsAtMostDarts(darts: seq<Dart>)
    ensures |ColorsOf(darts)| <= |darts|
  {
    if darts != [] {
      var init, last := darts[..|darts| - 1], darts[|darts| - 1];
      ColorsAtMostDarts(init);
      assert darts == init + [last];
      if DartColor(last).Some? {
        assert ColorsOf(darts) == ColorsOf(init) + {DartColor(last).value};
      } else {
        assert ColorsOf(darts) == ColorsOf(init);
      }
    }
  }

  /** So COULEUR needs at least three darts. */
  lemma CouleurNeedsThreeDarts(darts: seq<Dart>)
    requires EvaluateContract(Couleur, darts)
    ensures |darts| >= 3
  {
    ColorsAtMostDarts(darts);
  }

  /** Every contract pays the turn's total when met, and nothing otherwise: the
      flat 57 of TOTAL_57 is that total, since the contract asks for it. */
  lemma PointsAreTotalWhenMet(key: ContractKey, darts: seq<Dart>)
    ensures ComputeContractPoints(key, darts) == if EvaluateContract(key, darts) then Total(darts) else 0
  {
  }

  /** No two rounds play the same contract. */
  lemma ContractsDistinct()
    ensures forall i, j :: 0 <= i < j < |CapitalContractList| ==> CapitalContractList[i].key != CapitalContractList[j].key
  {
  }

  /** Every contract is played in one of rounds 0..13. */
  lemma EveryContractPlayed(key: ContractKey) returns (i: int)
    ensures 0 <= i < 14 && GetContractForRound(i).key == key
  {
    match key
    case S20 => i := 0;
    case Triple => i := 1;
    case S19 => i := 2;
    case Double => i := 3;
    case S18 => i := 4;
    case SideBySide => i := 5;
    case S17 => i := 6;
    case Suite => i := 7;
    case S16 => i := 8;
    case Couleur => i := 9;
    case S15 => i := 10;
    case Total57 => i := 11;
    case S14 => i := 12;
    case Centre => i := 13;
  }
}
