/** Checkout suggestions (utils/checkout.ts): the routes of one to three darts
    that finish a remaining score, under the classic or the double-out rule. */
module Checkout {
  import opened DartsTypes

  /** How a hit is labelled: a prefix and a board number ("T20", "D5", "17"),
      or a word ("Bull"). */
  datatype Mark = Numbered(prefix: string, number: nat) | Word(text: string)

  /** A place on the board as the route search sees it: its label, the points
      it scores and whether it counts as a double. */
  datatype Hit = Hit(mark: Mark, value: int, isDouble: bool)
  {
    function Name(): string {
      match mark
      case Numbered(prefix, n) => prefix + NatToString(n)
      case Word(text) => text
    }
  }

  /** A suggested route: the labels of its darts, in throwing order. */
  type Route = seq<string>

  // ---------------------------------------------------------------- tables

  /** 20 down to 1, then the outer bull "25". */
  function Singles(): seq<Hit> {
    seq(20, i requires 0 <= i < 20 => Hit(Numbered("", 20 - i), 20 - i, false)) + [Hit(Numbered("", 25), 25, false)]
  }

  /** Trebles T20 down to T10. */
  function Triples(): seq<Hit> {
    seq(11, i requires 0 <= i < 11 => Hit(Numbered("T", 20 - i), 3 * (20 - i), false))
  }

  /** Doubles D20 down to D1. */
  function Doubles(): seq<Hit> {
    seq(20, i requires 0 <= i < 20 => Hit(Numbered("D", 20 - i), 2 * (20 - i), true))
  }

  /** The bull counts as a double for finishing. */
  const Bull: Hit := Hit(Word("Bull"), 50, true)

  /** Order in which first and second darts are tried. */
  function PreferredFirstHits(): seq<Hit> {
    Triples() + Singles() + [Hit(Word("Bull"), 50, false)]
  }

  lemma DoublesValues(v: int)
    ensures forall h :: h in Doubles() ==> h.isDouble && h.value % 2 == 0 && 2 <= h.value <= 40
    ensures v % 2 == 0 && 2 <= v <= 40 ==> Doubles()[20 - v / 2] in Doubles() && Doubles()[20 - v / 2].value == v
  {
  }

  lemma TriplesValues(v: int)
    ensures forall h :: h in Triples() ==> h.value % 3 == 0 && 30 <= h.value <= 60
    ensures v % 3 == 0 && 30 <= v <= 60 ==> Triples()[20 - v / 3] in Triples() && Triples()[20 - v / 3].value == v
  {
  }

  lemma SinglesValues(v: int)
    ensures forall h :: h in Singles() ==> 1 <= h.value <= 20 || h.value == 25
    ensures 1 <= v <= 20 ==> Singles()[20 - v] in Singles() && Singles()[20 - v].value == v
    ensures v == 25 ==> Singles()[20] in Singles() && Singles()[20].value == v
  {
  }

  /** First hit of a table worth `v` points (`Array.prototype.find`). */
  function Find(hits: seq<Hit>, v: int): (r: Option<Hit>)
    ensures r.Some? ==> r.value.value == v
  {
    if |hits| == 0 then None
    else if hits[0].value == v then Some(hits[0])
    else Find(hits[1..], v)
  }

  /** `Find` fails exactly when no hit is worth `v`, and otherwise returns one of the table's hits. */
  lemma {:induction false} FindMeaning(hits: seq<Hit>, v: int)
    ensures Find(hits, v).Some? ==> Find(hits, v).value in hits
    ensures Find(hits, v).None? <==> forall h :: h in hits ==> h.value != v
  {
    if |hits| > 0 && hits[0].value != v {
      FindMeaning(hits[1..], v);
      assert forall h :: h in hits ==> h == hits[0] || h in hits[1..];
    }
  }

  /** The dart that finishes `target` on its own, if there is one (see
      `DoubleOutFinishingHit` and `ClassicFinishingHit` for what it returns). */
  function CanFinishWithLastDart(target: int, ft: FinishType): (r: Option<Hit>)
    ensures r.Some? ==> r.value.value == target
  {
    if target == 50 then Some(Bull)
    else if ft == DoubleOut then Find(Doubles(), target)
    else if Find(Triples(), target).Some? then Find(Triples(), target)
    else if Find(Singles(), target).Some? then Find(Singles(), target)
    else Find(Doubles(), target)
  }

  /** Under double-out a score can be finished in one dart exactly when it is
      the bull or an even number up to 40, and that dart is a double. */
  lemma DoubleOutFinishingHit(target: int)
    ensures var r := CanFinishWithLastDart(target, DoubleOut);
      (r.Some? <==> target == 50 || (target % 2 == 0 && 2 <= target <= 40)) &&
      (r.Some? ==> r.value.isDouble && (r.value == Bull || r.value in Doubles()))
  {
    DoublesValues(target);
    FindMeaning(Doubles(), target);
  }

  /** In classic play any single, double, treble or bull value can be finished
      in one dart, and a treble is preferred to a single, a single to a double. */
  lemma ClassicFinishingHit(target: int)
    ensures var r := CanFinishWithLastDart(target, Classic);
      r.Some? <==> target == 50 || 1 <= target <= 20 || target == 25 ||
                   (target % 2 == 0 && 2 <= target <= 40) || (target % 3 == 0 && 30 <= target <= 60)
    ensures var r := CanFinishWithLastDart(target, Classic);
      r.Some? ==> r.value == Bull || r.value in Triples() || r.value in Singles() || r.value in Doubles()
    ensures var r := CanFinishWithLastDart(target, Classic);
      target != 50 && target % 3 == 0 && 30 <= target <= 60 ==> r.Some? && r.value in Triples()
    ensures var r := CanFinishWithLastDart(target, Classic);
      target != 50 && !(target % 3 == 0 && 30 <= target <= 60) && (1 <= target <= 20 || target == 25)
      ==> r.Some? && r.value in Singles()
  {
    DoublesValues(target);
    TriplesValues(target);
    SinglesValues(target);
    FindMeaning(Doubles(), target);
    FindMeaning(Triples(), target);
    FindMeaning(Singles(), target);
  }

  // ---------------------------------------------------------------- routes

  /** What a route means: every dart but the last is one of the preferred
      hits and leaves a positive remainder; the last is the finishing hit for
      what is left. */
  predicate ValidRoute(hs: seq<Hit>, rem: int, ft: FinishType)
    decreases |hs|
  {
    |hs| >= 1 &&
    if |hs| == 1 then CanFinishWithLastDart(rem, ft) == Some(hs[0])
    else hs[0] in PreferredFirstHits() && rem - hs[0].value > 0 && ValidRoute(hs[1..], rem - hs[0].value, ft)
  }

  function SumValues(hs: seq<Hit>): int {
    if hs == [] then 0 else hs[0].value + SumValues(hs[1..])
  }

  /** A valid route scores exactly the remainder, and under double-out it ends on a double. */
  lemma {:induction false} ValidRouteFinishes(hs: seq<Hit>, rem: int, ft: FinishType)
    requires ValidRoute(hs, rem, ft)
    ensures SumValues(hs) == rem
    ensures ft == DoubleOut ==> hs[|hs| - 1].isDouble
    ensures forall k :: 0 <= k < |hs| - 1 ==> hs[k].value < rem
  {
    if |hs| == 1 {
      if ft == DoubleOut {
        DoubleOutFinishingHit(rem);
      }
    } else {
      ValidRouteFinishes(hs[1..], rem - hs[0].value, ft);
      assert SumValues(hs[1..][1..]) == SumValues(hs[2..]) by { assert hs[1..][1..] == hs[2..]; }
      forall k | 1 <= k < |hs| - 1
        ensures hs[k].value < rem
      {
        assert hs[k] == hs[1..][k - 1];
      }
    }
  }

  /** The route found by trying hit `h` after `prefix` with `rem` left. */
  function FinishStep(prefix: seq<Hit>, rem: int, finish: int -> Option<Hit>, h: Hit): seq<seq<Hit>> {
    if rem - h.value <= 0 then []
    else match finish(rem - h.value)
      case Some(last) => [prefix + [h, last]]
      case None => []
  }

  /** All routes `prefix + [h, last]` for `h` taken from `hits` in order. */
  function Finishes(prefix: seq<Hit>, rem: int, finish: int -> Option<Hit>, hits: seq<Hit>): (rs: seq<seq<Hit>>)
  {
    if |hits| == 0 then []
    else Finishes(prefix, rem, finish, hits[..|hits| - 1]) + FinishStep(prefix, rem, finish, hits[|hits| - 1])
  }

  /** All three-dart routes whose first dart is taken from `firsts` and whose
      second from `seconds`, in the order of the nested scans. */
  function ThreeDartRoutes(rem: int, finish: int -> Option<Hit>, firsts: seq<Hit>, seconds: seq<Hit>): (rs: seq<seq<Hit>>)
  {
    if |firsts| == 0 then []
    else
      ThreeDartRoutes(rem, finish, firsts[..|firsts| - 1], seconds)
      + FirstDartRoutes(rem, finish, firsts[|firsts| - 1], seconds)
  }

  /** The three-dart routes opening with `f`. */
  function FirstDartRoutes(rem: int, finish: int -> Option<Hit>, f: Hit, seconds: seq<Hit>): (rs: seq<seq<Hit>>) {
    if rem - f.value <= 0 then [] else Finishes([f], rem - f.value, finish, seconds)
  }

  function OneDartRoutes(rem: int, ft: FinishType): (rs: seq<seq<Hit>>)
    ensures |rs| <= 1 && forall r :: r in rs ==> |r| == 1
  {
    match CanFinishWithLastDart(rem, ft)
    case Some(h) => [[h]]
    case None => []
  }

  /** The finishing rule as a function of what is left, as the search uses it. */
  function Finisher(ft: FinishType): int -> Option<Hit> {
    t => CanFinishWithLastDart(t, ft)
  }

  /** Every candidate with at most two darts, shortest first. */
  function ShortRoutes(rem: int, ft: FinishType): seq<seq<Hit>> {
    OneDartRoutes(rem, ft) + Finishes([], rem, Finisher(ft), PreferredFirstHits())
  }

  function Labels(hs: seq<Hit>): (r: Route)
    ensures |r| == |hs| && forall i :: 0 <= i < |hs| ==> r[i] == hs[i].Name()
  {
    seq(|hs|, i requires 0 <= i < |hs| => hs[i].Name())
  }

  function MapLabels(rs: seq<seq<Hit>>): (r: seq<Route>)
    ensures |r| == |rs| && forall i :: 0 <= i < |rs| ==> r[i] == Labels(rs[i])
  {
    if rs == [] then [] else MapLabels(rs[..|rs| - 1]) + [Labels(rs[|rs| - 1])]
  }

  function Take<T>(xs: seq<T>, n: nat): (r: seq<T>)
    ensures r <= xs && |r| == if |xs| <= n then |xs| else n
  {
    if |xs| <= n then xs else xs[..n]
  }

  /** The suggestions the search returns. When at least five routes of one or
      two darts exist, the first five of them; otherwise all of those followed
      by three-dart routes, eight at most. Duplicates are dropped. */
  function Suggestions(remaining: int, ft: FinishType): (r: seq<Route>)
    ensures |r| <= 8
    ensures |MapLabels(ShortRoutes(remaining, ft))| >= 5 ==> |r| <= 5
    ensures remaining < 2 || remaining > 170 ==> r == []
    ensures forall i, j :: 0 <= i < j < |r| ==> Key(r[i]) != Key(r[j])
  {
    if remaining < 2 || remaining > 170 then []
    else Pick(MapLabels(ShortRoutes(remaining, ft)),
              MapLabels(ThreeDartRoutes(remaining, Finisher(ft), PreferredFirstHits(), PreferredFirstHits())))
  }

  /** The cut applied to the candidate routes, shortest first. */
  function Pick(short: seq<Route>, three: seq<Route>): (r: seq<Route>)
    ensures |r| <= 8 && (|short| >= 5 ==> |r| <= 5)
  {
    if |short| >= 5 then Take(Dedupe(Take(short, 5)), 5)
    else Take(Dedupe(Take(short + three, 8)), 8)
  }

  // ---------------------------------------------------------------- dedupe

  /** `route.join(sep)`. */
  function Join(route: seq<string>, sep: string): string {
    if |route| == 0 then ""
    else if |route| == 1 then route[0]
    else route[0] + sep + Join(route[1..], sep)
  }

  function Key(route: Route): string {
    Join(route, "-")
  }

  /** The routes of `routes` whose key is neither in `seen` nor the key of an
      earlier route, in order. */
  function DedupeFrom(routes: seq<Route>, seen: set<string>): (r: seq<Route>)
    ensures forall x :: x in r ==> x in routes && Key(x) !in seen
    ensures forall i, j :: 0 <= i < j < |r| ==> Key(r[i]) != Key(r[j])
    ensures |routes| > 0 && Key(routes[0]) !in seen ==> |r| > 0 && r[0] == routes[0]
    ensures |r| <= |routes|
  {
    if routes == [] then []
    else if Key(routes[0]) in seen then DedupeFrom(routes[1..], seen)
    else [routes[0]] + DedupeFrom(routes[1..], seen + {Key(routes[0])})
  }

  /** Every route dropped has its key in `seen` or shares it with a kept route. */
  lemma {:induction false} DedupeFromCovers(routes: seq<Route>, seen: set<string>, x: Route)
    requires x in routes && Key(x) !in seen
    ensures exists k :: 0 <= k < |DedupeFrom(routes, seen)| && Key(DedupeFrom(routes, seen)[k]) == Key(x)
  {
    var key := Key(routes[0]);
    var r := DedupeFrom(routes, seen);
    if key in seen {
      assert x in routes[1..];
      DedupeFromCovers(routes[1..], seen, x);
    } else if Key(x) == key {
      assert Key(r[0]) == Key(x);
    } else {
      assert x in routes[1..];
      var rest := DedupeFrom(routes[1..], seen + {key});
      DedupeFromCovers(routes[1..], seen + {key}, x);
      var k :| 0 <= k < |rest| && Key(rest[k]) == Key(x);
      assert r[k + 1] == rest[k];
    }
  }

  /** Route `i` is the first of its key, and its key is not in `seen`. */
  predicate FirstOfKey(routes: seq<Route>, seen: set<string>, i: nat)
    requires i < |routes|
  {
    Key(routes[i]) !in seen && forall j :: 0 <= j < i ==> Key(routes[j]) != Key(routes[i])
  }

  /** The keys `DedupeFrom` has seen once it is past the first route. */
  function SeenAfterFirst(routes: seq<Route>, seen: set<string>): set<string>
    requires routes != []
  {
    seen + {Key(routes[0])}
  }

  /** Past the first route, being the first of a key outside `seen` is
      being the first of it among the rest outside `seen` and the first key. */
  lemma FirstOfKeyTail(routes: seq<Route>, seen: set<string>, i: nat)
    requires 1 <= i < |routes|
    ensures FirstOfKey(routes[1..], SeenAfterFirst(routes, seen), i - 1) <==> FirstOfKey(routes, seen, i)
  {
    assert forall j :: 0 <= j < i - 1 ==> routes[1..][j] == routes[j + 1];
    if FirstOfKey(routes, seen, i) {
      assert Key(routes[0]) != Key(routes[i]);
    }
  }

  /** The positions of `routes` that `DedupeFrom(routes, seen)` keeps. */
  function KeptPositions(routes: seq<Route>, seen: set<string>): seq<nat>
    decreases |routes|
  {
    if routes == [] then []
    else
      var rest := Shift(KeptPositions(routes[1..], SeenAfterFirst(routes, seen)));
      if Key(routes[0]) in seen then rest else [0] + rest
  }

  /** `DedupeFrom` keeps the routes at the kept positions, in that order. */
  lemma {:induction false} DedupeFromPicks(routes: seq<Route>, seen: set<string>)
    ensures var idx := KeptPositions(routes, seen);
      |idx| == |DedupeFrom(routes, seen)| &&
      forall k :: 0 <= k < |idx| ==> idx[k] < |routes| && DedupeFrom(routes, seen)[k] == routes[idx[k]]
    decreases |routes|
  {
    if routes != [] {
      var seen' := SeenAfterFirst(routes, seen);
      var tail := DedupeFrom(routes[1..], seen');
      var rest := KeptPositions(routes[1..], seen');
      DedupeFromPicks(routes[1..], seen');
      forall k | 0 <= k < |rest|
        ensures Shift(rest)[k] < |routes| && tail[k] == routes[Shift(rest)[k]]
      {
        assert tail[k] == routes[1..][rest[k]];
      }
      var r := DedupeFrom(routes, seen);
      var idx := KeptPositions(routes, seen);
      if Key(routes[0]) in seen {
        assert seen' == seen;
        assert r == tail && idx == Shift(rest);
      } else {
        assert r == [routes[0]] + tail && idx == [0] + Shift(rest);
        forall k | 1 <= k < |idx|
          ensures idx[k] < |routes| && r[k] == routes[idx[k]]
        {
          assert idx[k] == Shift(rest)[k - 1] && r[k] == tail[k - 1];
        }
      }
    }
  }

  /** The kept positions increase strictly: `DedupeFrom` keeps input order. */
  lemma {:induction false} KeptPositionsIncrease(routes: seq<Route>, seen: set<string>)
    ensures StrictlyIncreasing(KeptPositions(routes, seen))
    decreases |routes|
  {
    if routes != [] {
      KeptPositionsIncrease(routes[1..], SeenAfterFirst(routes, seen));
      ShiftIncreasing(KeptPositions(routes[1..], SeenAfterFirst(routes, seen)));
    }
  }

  /** A position is kept exactly when its route is the first of its key
      outside `seen`. */
  lemma {:induction false} KeptPositionsFirst(routes: seq<Route>, seen: set<string>, i: nat)
    requires i < |routes|
    ensures i in KeptPositions(routes, seen) <==> FirstOfKey(routes, seen, i)
    decreases |routes|
  {
    var seen' := SeenAfterFirst(routes, seen);
    var rest := KeptPositions(routes[1..], seen');
    ShiftMember(rest, i);
    if i >= 1 {
      KeptPositionsFirst(routes[1..], seen', i - 1);
      FirstOfKeyTail(routes, seen, i);
    }
    if Key(routes[0]) in seen {
      assert seen' == seen;
    }
  }

  function Dedupe(routes: seq<Route>): seq<Route> {
    DedupeFrom(routes, {})
  }

  /** `Dedupe` keeps the first route of each key and no other, in input
      order: `idx` are the positions it keeps. */
  lemma DedupeKeepsFirsts(routes: seq<Route>) returns (idx: seq<nat>)
    ensures StrictlyIncreasing(idx) && |idx| == |Dedupe(routes)|
    ensures forall k :: 0 <= k < |idx| ==> idx[k] < |routes| && Dedupe(routes)[k] == routes[idx[k]]
    ensures forall i :: 0 <= i < |routes| ==> (i in idx <==> FirstOfKey(routes, {}, i))
  {
    idx := KeptPositions(routes, {});
    DedupeFromPicks(routes, {});
    KeptPositionsIncrease(routes, {});
    forall i | 0 <= i < |routes|
      ensures i in idx <==> FirstOfKey(routes, {}, i)
    {
      KeptPositionsFirst(routes, {}, i);
    }
  }

  /** `dedupeRoutes`: keeps the first route of each key. */
  method DedupeRoutes(routes: seq<Route>) returns (out: seq<Route>)
    ensures out == Dedupe(routes)
  {
    var seen: set<string> := {};
    out := [];
    for i := 0 to |routes|
      invariant out + DedupeFrom(routes[i..], seen) == Dedupe(routes)
    {
      DedupeFromAt(routes, i, seen);
      var key := Key(routes[i]);
      if key !in seen {
        AppendAssoc(out, [routes[i]], DedupeFrom(routes[i + 1..], seen + {key}));
        seen := seen + {key};
        out := out + [routes[i]];
      }
    }
  }

  /** One step of `DedupeFrom` from position `i` on. */
  lemma DedupeFromAt(routes: seq<Route>, i: nat, seen: set<string>)
    requires i < |routes|
    ensures DedupeFrom(routes[i..], seen) ==
      if Key(routes[i]) in seen then DedupeFrom(routes[i + 1..], seen)
      else [routes[i]] + DedupeFrom(routes[i + 1..], seen + {Key(routes[i])})
  {
    assert routes[i..][1..] == routes[i + 1..];
  }

  /** `formatSuggestion`: the labels joined by a bullet. The source's literal is
      the UTF-8 bytes of U+2022 read as Windows-1252 text, kept as written. */
  function FormatSuggestion(route: Route): string {
    Join(route, " â€¢ ")
  }

  /** A route of one to three labels is shown as its labels with a bullet
      between each two. */
  lemma FormatSuggestionShape(route: Route)
    requires 1 <= |route| <= 3
    ensures |route| == 1 ==> FormatSuggestion(route) == route[0]
    ensures |route| == 2 ==> FormatSuggestion(route) == route[0] + " â€¢ " + route[1]
    ensures |route| == 3 ==> FormatSuggestion(route) == route[0] + " â€¢ " + route[1] + " â€¢ " + route[2]
  {
    if |route| >= 2 {
      assert Join(route[1..], " â€¢ ") == if |route| == 2 then route[1] else route[1] + " â€¢ " + route[2] by {
        if |route| == 3 {
          assert route[1..][1..] == [route[2]];
        }
      }
    }
  }

  // ---------------------------------------------------------------- search

  /** `getCheckoutSuggestions`, with its loops and early exits. */
  method GetCheckoutSuggestions(remaining: int, ft: FinishType) returns (r: seq<Route>)
    ensures r == Suggestions(remaining, ft)
  {
    if remaining < 2 { return []; }
    if ft == DoubleOut && remaining > 170 { return []; }
    if ft == Classic && remaining > 170 { return []; }
    SuggestionsPicked(remaining, ft);

    var hits := PreferredFirstHits();
    var finish := Finisher(ft);
    var s: seq<Route> := [];
    var single := CanFinishWithLastDart(remaining, ft);
    if single.Some? {
      s := s + [[single.value.Name()]];
    }
    ShortLabels(remaining, ft, s);
    ghost var short := MapLabels(ShortRoutes(remaining, ft));
    ghost var three := MapLabels(ThreeDartRoutes(remaining, finish, hits, hits));
    ghost var one := s;
    assert short == one + MapLabels(Finishes([], remaining, finish, hits));
    s := ScanTwoDarts(remaining, finish, hits, s);
    TakeOfPrefix(s, short, 5);
    if |s| >= 5 {
      assert |short| >= 5;
      r := DedupeRoutes(s);
      return Take(r, 5);
    }
    assert |short| < 5;
    s := ScanThreeDarts(remaining, finish, hits, s);
    TakeOfPrefix(s, short + three, 8);
    r := DedupeRoutes(s);
    r := Take(r, 8);
  }

  lemma SuggestionsPicked(remaining: int, ft: FinishType)
    requires 2 <= remaining <= 170
    ensures Suggestions(remaining, ft) ==
      Pick(MapLabels(ShortRoutes(remaining, ft)),
           MapLabels(ThreeDartRoutes(remaining, Finisher(ft), PreferredFirstHits(), PreferredFirstHits())))
  {
  }

  /** The two-dart loop: appends routes until five are known. */
  method ScanTwoDarts(remaining: int, finish: int -> Option<Hit>, hits: seq<Hit>, one: seq<Route>) returns (s: seq<Route>)
    requires |one| <= 1
    ensures var short := one + MapLabels(Finishes([], remaining, finish, hits));
      s <= short && (|s| >= 5 ==> |s| == 5) && (|s| < 5 ==> s == short)
  {
    s := one;
    var i := 0;
    while i < |hits|
      invariant 0 <= i <= |hits| && |s| < 5
      invariant s == one + MapLabels(Finishes([], remaining, finish, hits[..i]))
    {
      var first := hits[i];
      var rem := remaining - first.value;
      var last := finish(rem);
      TwoStep(one, remaining, finish, hits, i, first, rem, last, s);
      if rem > 0 && last.Some? {
        s := s + [[first.Name(), last.value.Name()]];
      }
      i := i + 1;
      if |s| >= 5 { break; }
    }
    TwoScanned(one, remaining, finish, hits, i, s);
  }

  /** One pass of the two-dart loop, for first dart `hits[i]`. */
  lemma TwoStep(one: seq<Route>, remaining: int, finish: int -> Option<Hit>, hits: seq<Hit>, i: int,
                first: Hit, rem: int, last: Option<Hit>, s: seq<Route>)
    requires 0 <= i < |hits| && first == hits[i] && rem == remaining - first.value && last == finish(rem)
    requires s == one + MapLabels(Finishes([], remaining, finish, hits[..i]))
    ensures rem > 0 && last.Some? ==>
      s + [[first.Name(), last.value.Name()]] == one + MapLabels(Finishes([], remaining, finish, hits[..i + 1]))
    ensures !(rem > 0 && last.Some?) ==> s == one + MapLabels(Finishes([], remaining, finish, hits[..i + 1]))
  {
    ScanStep(one, [], [], remaining, finish, hits, i, s);
    if rem > 0 && last.Some? {
      assert [] + [first.Name(), last.value.Name()] == [first.Name(), last.value.Name()];
    }
  }

  /** Where the two-dart loop stops, by the fifth route or by the end of `hits`. */
  lemma TwoScanned(one: seq<Route>, rem: int, finish: int -> Option<Hit>, hits: seq<Hit>, i: int, s: seq<Route>)
    requires 0 <= i <= |hits| && |s| <= 5 && (|s| < 5 ==> i == |hits|)
    requires s == one + MapLabels(Finishes([], rem, finish, hits[..i]))
    ensures var short := one + MapLabels(Finishes([], rem, finish, hits));
      s <= short && (|s| >= 5 ==> |s| == 5) && (|s| < 5 ==> s == short)
  {
    TwoPrefix(one, rem, finish, hits, i);
  }

  /** The nested three-dart loops: append routes until eight are known. */
  method ScanThreeDarts(remaining: int, finish: int -> Option<Hit>, hits: seq<Hit>, short: seq<Route>) returns (s: seq<Route>)
    requires |short| < 5
    ensures var all := short + MapLabels(ThreeDartRoutes(remaining, finish, hits, hits));
      s <= all && (|s| >= 8 ==> |s| == 8) && (|s| < 8 ==> s == all)
  {
    s := short;
    var a := 0;
    var stop := false;
    while a < |hits| && !stop
      invariant 0 <= a <= |hits|
      invariant !stop ==> |s| < 8 && s == short + MapLabels(ThreeDartRoutes(remaining, finish, hits[..a], hits))
      invariant stop ==> |s| == 8 && s <= short + MapLabels(ThreeDartRoutes(remaining, finish, hits, hits))
      decreases |hits| - a, if stop then 0 else 1
    {
      s, stop := ScanFirstDart(remaining, finish, hits, short, a, s);
      if !stop {
        a := a + 1;
      }
    }
    if !stop {
      AllPrefix(remaining, finish, hits, a);
    }
  }

  /** One pass of the outer loop: the routes opening with `hits[a]`, until
      eight are known. */
  method ScanFirstDart(remaining: int, finish: int -> Option<Hit>, hits: seq<Hit>, short: seq<Route>, a: int, s: seq<Route>)
    returns (s': seq<Route>, stop: bool)
    requires 0 <= a < |hits| && |s| < 8
    requires s == short + MapLabels(ThreeDartRoutes(remaining, finish, hits[..a], hits))
    ensures !stop ==> |s'| < 8 && s' == short + MapLabels(ThreeDartRoutes(remaining, finish, hits[..a + 1], hits))
    ensures stop ==> |s'| == 8 && s' <= short + MapLabels(ThreeDartRoutes(remaining, finish, hits, hits))
  {
    var first := hits[a];
    var rem1 := remaining - first.value;
    if rem1 <= 0 {
      ThreeNext(remaining, finish, hits, hits, a);
      AppendEmpty(MapLabels(ThreeDartRoutes(remaining, finish, hits[..a], hits)));
      return s, false;
    }
    var b;
    s', b := ScanSecondDarts(finish, hits, first, rem1, s);
    stop := |s'| >= 8;
    if stop {
      OpeningStops(remaining, finish, hits, short, a, first, rem1, s, s', b);
    } else {
      OpeningCompletes(remaining, finish, hits, short, a, first, rem1, s, s', b);
    }
  }

  lemma AppendEmpty<T>(xs: seq<T>)
    ensures xs + [] == xs
  {
  }

  /** A second-dart scan cut short still lists a prefix of the routes. */
  lemma OpeningStops(remaining: int, finish: int -> Option<Hit>, hits: seq<Hit>, short: seq<Route>, a: int,
                     first: Hit, rem1: int, s: seq<Route>, s': seq<Route>, b: int)
    requires 0 <= a < |hits| && 0 <= b <= |hits| && first == hits[a] && rem1 == remaining - first.value && rem1 > 0
    requires s == short + MapLabels(ThreeDartRoutes(remaining, finish, hits[..a], hits))
    requires s' == s + MapLabels(Finishes([first], rem1, finish, hits[..b]))
    ensures s' <= short + MapLabels(ThreeDartRoutes(remaining, finish, hits, hits))
  {
    var head := MapLabels(ThreeDartRoutes(remaining, finish, hits[..a], hits));
    var part := MapLabels(Finishes([hits[a]], remaining - hits[a].value, finish, hits[..b]));
    StagePrefix(remaining, finish, hits, a, b);
    AppendAssoc(short, head, part);
    PrefixExtend(short, head + part, MapLabels(ThreeDartRoutes(remaining, finish, hits, hits)));
  }

  /** A second-dart scan run to the end lists every route opening with `hits[a]`. */
  lemma OpeningCompletes(remaining: int, finish: int -> Option<Hit>, hits: seq<Hit>, short: seq<Route>, a: int,
                         first: Hit, rem1: int, s: seq<Route>, s': seq<Route>, b: int)
    requires 0 <= a < |hits| && b == |hits| && first == hits[a] && rem1 == remaining - first.value && rem1 > 0
    requires s == short + MapLabels(ThreeDartRoutes(remaining, finish, hits[..a], hits))
    requires s' == s + MapLabels(Finishes([first], rem1, finish, hits[..b]))
    ensures s' == short + MapLabels(ThreeDartRoutes(remaining, finish, hits[..a + 1], hits))
  {
    var head := MapLabels(ThreeDartRoutes(remaining, finish, hits[..a], hits));
    var part := MapLabels(Finishes([hits[a]], remaining - hits[a].value, finish, hits[..|hits|]));
    StageComplete(remaining, finish, hits, a);
    AppendAssoc(short, head, part);
  }

  /** The inner loop over second darts, after first dart `first` left `rem1`. */
  method ScanSecondDarts(finish: int -> Option<Hit>, hits: seq<Hit>, first: Hit, rem1: int, base: seq<Route>)
    returns (s: seq<Route>, b: int)
    requires |base| < 8
    ensures 0 <= b <= |hits| && |s| <= 8 && (|s| < 8 ==> b == |hits|)
    ensures s == base + MapLabels(Finishes([first], rem1, finish, hits[..b]))
  {
    s := base;
    b := 0;
    while b < |hits|
      invariant 0 <= b <= |hits| && |s| < 8
      invariant s == base + MapLabels(Finishes([first], rem1, finish, hits[..b]))
    {
      var second := hits[b];
      var rem2 := rem1 - second.value;
      var last := finish(rem2);
      assert Labels([first]) == [first.Name()];
      ScanStep(base, [first], [first.Name()], rem1, finish, hits, b, s);
      if rem2 > 0 && last.Some? {
        assert [first.Name()] + [second.Name(), last.value.Name()] == [first.Name(), second.Name(), last.value.Name()];
        s := s + [[first.Name(), second.Name(), last.value.Name()]];
      }
      b := b + 1;
      if |s| >= 8 { break; }
    }
  }

  // ---------------------------------------------------------------- loop bookkeeping

  lemma PrefixExtend<T>(a: seq<T>, b: seq<T>, c: seq<T>)
    requires b <= c
    ensures a + b <= a + c
  {
    assert (a + c)[..|a + b|] == a + b;
  }

  lemma PrefixTrans<T>(a: seq<T>, b: seq<T>, c: seq<T>)
    requires a <= b && b <= c
    ensures a <= c
  {
  }

  lemma MapLabelsAppend(a: seq<seq<Hit>>, b: seq<seq<Hit>>)
    ensures MapLabels(a + b) == MapLabels(a) + MapLabels(b)
  {
    assert forall k :: 0 <= k < |a + b| ==> MapLabels(a + b)[k] == (MapLabels(a) + MapLabels(b))[k];
  }

  lemma MapLabelsPrefix(a: seq<seq<Hit>>, b: seq<seq<Hit>>)
    requires a <= b
    ensures MapLabels(a) <= MapLabels(b)
  {
    assert forall k :: 0 <= k < |a| ==> MapLabels(a)[k] == MapLabels(b)[k];
  }

  lemma TakeOfPrefix<T>(s: seq<T>, all: seq<T>, n: nat)
    requires s <= all && (|s| >= n ==> |s| == n) && (|s| < n ==> s == all)
    ensures s == Take(all, n)
  {
  }

  /** The labels of the short routes: the single-dart finish, then the two-dart scan. */
  lemma ShortLabels(rem: int, ft: FinishType, one: seq<Route>)
    requires var h := CanFinishWithLastDart(rem, ft); one == if h.Some? then [[h.value.Name()]] else []
    ensures MapLabels(ShortRoutes(rem, ft)) == one + MapLabels(Finishes([], rem, Finisher(ft), PreferredFirstHits()))
  {
    OneDartLabels(rem, ft);
    MapLabelsAppend(OneDartRoutes(rem, ft), Finishes([], rem, Finisher(ft), PreferredFirstHits()));
  }

  lemma OneDartLabels(rem: int, ft: FinishType)
    ensures var one := CanFinishWithLastDart(rem, ft);
      MapLabels(OneDartRoutes(rem, ft)) == if one.Some? then [[one.value.Name()]] else []
  {
    var one := CanFinishWithLastDart(rem, ft);
    if one.Some? {
      assert MapLabels([[one.value]]) == MapLabels([]) + [Labels([one.value])];
      assert Labels([one.value]) == [one.value.Name()];
    }
  }

  /** One step of a scan over `hits` after `prefix`: trying `hits[i]` appends
      the labels of its route when it leaves a finish, and nothing otherwise. */
  lemma ScanStep(base: seq<Route>, prefix: seq<Hit>, labels: Route, rem: int, finish: int -> Option<Hit>, hits: seq<Hit>, i: int, s: seq<Route>)
    requires 0 <= i < |hits| && labels == Labels(prefix)
    requires s == base + MapLabels(Finishes(prefix, rem, finish, hits[..i]))
    ensures var h := hits[i];
      var last := finish(rem - h.value);
      if rem - h.value > 0 && last.Some?
      then s + [labels + [h.Name(), last.value.Name()]] == base + MapLabels(Finishes(prefix, rem, finish, hits[..i + 1]))
      else s == base + MapLabels(Finishes(prefix, rem, finish, hits[..i + 1]))
  {
    var h := hits[i];
    var last := finish(rem - h.value);
    if rem - h.value > 0 && last.Some? {
      FinishPush(prefix, rem, finish, hits, i, last.value);
      AppendAssoc(base, MapLabels(Finishes(prefix, rem, finish, hits[..i])), [Labels(prefix) + [h.Name(), last.value.Name()]]);
    } else {
      FinishSkip(prefix, rem, finish, hits, i);
    }
  }

  lemma FinishesNext(prefix: seq<Hit>, rem: int, finish: int -> Option<Hit>, hits: seq<Hit>, i: int)
    requires 0 <= i < |hits|
    ensures Finishes(prefix, rem, finish, hits[..i + 1])
         == Finishes(prefix, rem, finish, hits[..i]) + FinishStep(prefix, rem, finish, hits[i])
  {
    assert hits[..i + 1][..i] == hits[..i];
  }

  lemma FinishStepFound(prefix: seq<Hit>, rem: int, finish: int -> Option<Hit>, h: Hit, last: Hit)
    requires rem - h.value > 0 && finish(rem - h.value) == Some(last)
    ensures FinishStep(prefix, rem, finish, h) == [prefix + [h, last]]
  {
  }

  /** Trying hit `hits[i]` adds nothing when it overshoots or leaves no finish. */
  lemma FinishSkip(prefix: seq<Hit>, rem: int, finish: int -> Option<Hit>, hits: seq<Hit>, i: int)
    requires 0 <= i < |hits|
    requires rem - hits[i].value <= 0 || finish(rem - hits[i].value).None?
    ensures MapLabels(Finishes(prefix, rem, finish, hits[..i + 1])) == MapLabels(Finishes(prefix, rem, finish, hits[..i]))
  {
    FinishesNext(prefix, rem, finish, hits, i);
    assert FinishStep(prefix, rem, finish, hits[i]) == [];
    assert Finishes(prefix, rem, finish, hits[..i]) + [] == Finishes(prefix, rem, finish, hits[..i]);
  }

  /** Otherwise it adds the labels of its route. */
  lemma FinishPush(prefix: seq<Hit>, rem: int, finish: int -> Option<Hit>, hits: seq<Hit>, i: int, last: Hit)
    requires 0 <= i < |hits|
    requires rem - hits[i].value > 0 && finish(rem - hits[i].value) == Some(last)
    ensures MapLabels(Finishes(prefix, rem, finish, hits[..i + 1]))
         == MapLabels(Finishes(prefix, rem, finish, hits[..i])) + [Labels(prefix) + [hits[i].Name(), last.Name()]]
  {
    var route := prefix + [hits[i], last];
    var done := Finishes(prefix, rem, finish, hits[..i]);
    FinishesNext(prefix, rem, finish, hits, i);
    FinishStepFound(prefix, rem, finish, hits[i], last);
    assert (done + [route])[..|done|] == done;
    assert Labels(route) == Labels(prefix) + [hits[i].Name(), last.Name()];
  }

  lemma ThreeNext(rem: int, finish: int -> Option<Hit>, firsts: seq<Hit>, seconds: seq<Hit>, a: int)
    requires 0 <= a < |firsts|
    ensures var f := firsts[a];
      MapLabels(ThreeDartRoutes(rem, finish, firsts[..a + 1], seconds))
      == MapLabels(ThreeDartRoutes(rem, finish, firsts[..a], seconds))
         + (if rem - f.value <= 0 then [] else MapLabels(Finishes([f], rem - f.value, finish, seconds)))
  {
    ThreeDartRoutesAt(rem, finish, firsts, seconds, a);
    MapLabelsAppend(ThreeDartRoutes(rem, finish, firsts[..a], seconds), FirstDartRoutes(rem, finish, firsts[a], seconds));
  }

  lemma ThreeDartRoutesAt(rem: int, finish: int -> Option<Hit>, firsts: seq<Hit>, seconds: seq<Hit>, a: int)
    requires 0 <= a < |firsts|
    ensures ThreeDartRoutes(rem, finish, firsts[..a + 1], seconds)
         == ThreeDartRoutes(rem, finish, firsts[..a], seconds) + FirstDartRoutes(rem, finish, firsts[a], seconds)
  {
    var upto := firsts[..a + 1];
    assert upto[..|upto| - 1] == firsts[..a] && upto[|upto| - 1] == firsts[a];
  }

  lemma {:induction false} FinishesGrow(prefix: seq<Hit>, rem: int, finish: int -> Option<Hit>, hits: seq<Hit>, j: int)
    requires 0 <= j <= |hits|
    ensures Finishes(prefix, rem, finish, hits[..j]) <= Finishes(prefix, rem, finish, hits)
    decreases |hits|
  {
    if j < |hits| {
      var init := hits[..|hits| - 1];
      assert init[..j] == hits[..j];
      FinishesGrow(prefix, rem, finish, init, j);
    } else {
      assert hits[..j] == hits;
    }
  }

  lemma {:induction false} ThreeGrow(rem: int, finish: int -> Option<Hit>, firsts: seq<Hit>, seconds: seq<Hit>, j: int)
    requires 0 <= j <= |firsts|
    ensures ThreeDartRoutes(rem, finish, firsts[..j], seconds) <= ThreeDartRoutes(rem, finish, firsts, seconds)
    decreases |firsts|
  {
    if j < |firsts| {
      var init := firsts[..|firsts| - 1];
      assert init[..j] == firsts[..j];
      ThreeGrow(rem, finish, init, seconds, j);
    } else {
      assert firsts[..j] == firsts;
    }
  }

  lemma TwoPrefix(one: seq<Route>, rem: int, finish: int -> Option<Hit>, hits: seq<Hit>, i: int)
    requires 0 <= i <= |hits|
    ensures one + MapLabels(Finishes([], rem, finish, hits[..i])) <= one + MapLabels(Finishes([], rem, finish, hits))
    ensures i == |hits| ==> hits[..i] == hits
  {
    FinishesGrow([], rem, finish, hits, i);
    MapLabelsPrefix(Finishes([], rem, finish, hits[..i]), Finishes([], rem, finish, hits));
    PrefixExtend(one, MapLabels(Finishes([], rem, finish, hits[..i])), MapLabels(Finishes([], rem, finish, hits)));
  }

  lemma AllPrefix(rem: int, finish: int -> Option<Hit>, hits: seq<Hit>, a: int)
    requires 0 <= a <= |hits|
    ensures MapLabels(ThreeDartRoutes(rem, finish, hits[..a], hits)) <= MapLabels(ThreeDartRoutes(rem, finish, hits, hits))
    ensures a == |hits| ==> hits[..a] == hits
  {
    ThreeGrow(rem, finish, hits, hits, a);
    MapLabelsPrefix(ThreeDartRoutes(rem, finish, hits[..a], hits), ThreeDartRoutes(rem, finish, hits, hits));
  }

  /** Part of the second-dart scan for first dart `hits[a]` stays a prefix of
      the three-dart routes. */
  lemma StagePrefix(rem: int, finish: int -> Option<Hit>, hits: seq<Hit>, a: int, b: int)
    requires 0 <= a < |hits| && 0 <= b <= |hits|
    requires rem - hits[a].value > 0
    ensures var f := hits[a];
      MapLabels(ThreeDartRoutes(rem, finish, hits[..a], hits)) + MapLabels(Finishes([f], rem - f.value, finish, hits[..b]))
      <= MapLabels(ThreeDartRoutes(rem, finish, hits, hits))
  {
    StageWithinFirst(rem, finish, hits, a, b);
    AllPrefix(rem, finish, hits, a + 1);
    PrefixTrans(MapLabels(ThreeDartRoutes(rem, finish, hits[..a], hits))
                  + MapLabels(Finishes([hits[a]], rem - hits[a].value, finish, hits[..b])),
                MapLabels(ThreeDartRoutes(rem, finish, hits[..a + 1], hits)),
                MapLabels(ThreeDartRoutes(rem, finish, hits, hits)));
  }

  lemma StageWithinFirst(rem: int, finish: int -> Option<Hit>, hits: seq<Hit>, a: int, b: int)
    requires 0 <= a < |hits| && 0 <= b <= |hits|
    requires rem - hits[a].value > 0
    ensures MapLabels(ThreeDartRoutes(rem, finish, hits[..a], hits))
              + MapLabels(Finishes([hits[a]], rem - hits[a].value, finish, hits[..b]))
            <= MapLabels(ThreeDartRoutes(rem, finish, hits[..a + 1], hits))
  {
    var f := hits[a];
    var part := Finishes([f], rem - f.value, finish, hits[..b]);
    var whole := Finishes([f], rem - f.value, finish, hits);
    ThreeNext(rem, finish, hits, hits, a);
    FinishesGrow([f], rem - f.value, finish, hits, b);
    MapLabelsPrefix(part, whole);
    PrefixExtend(MapLabels(ThreeDartRoutes(rem, finish, hits[..a], hits)), MapLabels(part), MapLabels(whole));
  }

  lemma StageComplete(rem: int, finish: int -> Option<Hit>, hits: seq<Hit>, a: int)
    requires 0 <= a < |hits|
    requires rem - hits[a].value > 0
    ensures MapLabels(ThreeDartRoutes(rem, finish, hits[..a], hits))
              + MapLabels(Finishes([hits[a]], rem - hits[a].value, finish, hits[..|hits|]))
            == MapLabels(ThreeDartRoutes(rem, finish, hits[..a + 1], hits))
  {
    ThreeNext(rem, finish, hits, hits, a);
    assert hits[..|hits|] == hits;
  }

  // ---------------------------------------------------------------- what the suggestions mean

  /** A route found by `Finishes` is `prefix`, one hit of `hits` leaving a
      positive remainder, and the finishing hit for that remainder. */
  lemma {:induction false} FinishesMembers(prefix: seq<Hit>, rem: int, finish: int -> Option<Hit>, hits: seq<Hit>, route: seq<Hit>)
    requires route in Finishes(prefix, rem, finish, hits)
    ensures |route| == |prefix| + 2 && route[..|prefix|] == prefix
    ensures route[|prefix|] in hits && rem - route[|prefix|].value > 0
    ensures finish(rem - route[|prefix|].value) == Some(route[|prefix| + 1])
    decreases |hits|
  {
    var init := hits[..|hits| - 1];
    var h := hits[|hits| - 1];
    if route in Finishes(prefix, rem, finish, init) {
      FinishesMembers(prefix, rem, finish, init, route);
      assert route[|prefix|] in init;
    } else {
      assert route in FinishStep(prefix, rem, finish, h);
      assert route == prefix + [h, finish(rem - h.value).value];
    }
  }

  /** A three-dart route is a first hit of `firsts` leaving a positive
      remainder, then a two-dart finish of that remainder. */
  lemma {:induction false} ThreeMembers(rem: int, finish: int -> Option<Hit>, firsts: seq<Hit>, seconds: seq<Hit>, route: seq<Hit>)
    requires route in ThreeDartRoutes(rem, finish, firsts, seconds)
    ensures |route| == 3 && route[0] in firsts && rem - route[0].value > 0
    ensures route[1] in seconds && rem - route[0].value - route[1].value > 0
    ensures finish(rem - route[0].value - route[1].value) == Some(route[2])
    decreases |firsts|
  {
    var init := firsts[..|firsts| - 1];
    var f := firsts[|firsts| - 1];
    if route in ThreeDartRoutes(rem, finish, init, seconds) {
      ThreeMembers(rem, finish, init, seconds, route);
      assert route[0] in init;
    } else {
      OpeningMembers(rem, finish, f, seconds, route);
    }
  }

  /** What a three-dart route opening with `f` is made of. */
  lemma OpeningMembers(rem: int, finish: int -> Option<Hit>, f: Hit, seconds: seq<Hit>, route: seq<Hit>)
    requires route in FirstDartRoutes(rem, finish, f, seconds)
    ensures |route| == 3 && route[0] == f && rem - f.value > 0
    ensures route[1] in seconds && rem - route[0].value - route[1].value > 0
    ensures finish(rem - route[0].value - route[1].value) == Some(route[2])
  {
    var rem1 := rem - f.value;
    FinishesMembers([f], rem1, finish, seconds, route);
    assert route[..1] == [f];
  }

  lemma ValidLast(h: Hit, rem: int, ft: FinishType)
    requires CanFinishWithLastDart(rem, ft) == Some(h)
    ensures ValidRoute([h], rem, ft)
  {
  }

  lemma ValidExtend(h: Hit, hs: seq<Hit>, rem: int, ft: FinishType)
    requires h in PreferredFirstHits() && rem - h.value > 0 && ValidRoute(hs, rem - h.value, ft)
    ensures ValidRoute([h] + hs, rem, ft)
  {
    assert ([h] + hs)[1..] == hs;
  }

  lemma TwoDartValid(rem: int, ft: FinishType, hs: seq<Hit>)
    requires hs in Finishes([], rem, Finisher(ft), PreferredFirstHits())
    ensures |hs| == 2 && ValidRoute(hs, rem, ft)
  {
    FinishesMembers([], rem, Finisher(ft), PreferredFirstHits(), hs);
    ValidLast(hs[1], rem - hs[0].value, ft);
    ValidExtend(hs[0], [hs[1]], rem, ft);
    assert hs == [hs[0]] + [hs[1]];
  }

  lemma ThreeDartValid(rem: int, ft: FinishType, hs: seq<Hit>)
    requires hs in ThreeDartRoutes(rem, Finisher(ft), PreferredFirstHits(), PreferredFirstHits())
    ensures |hs| == 3 && ValidRoute(hs, rem, ft)
  {
    ThreeMembers(rem, Finisher(ft), PreferredFirstHits(), PreferredFirstHits(), hs);
    var r1 := rem - hs[0].value;
    var r2 := r1 - hs[1].value;
    assert CanFinishWithLastDart(r2, ft) == Some(hs[2]);
    ThreeValid(hs[0], hs[1], hs[2], rem, ft);
    assert hs == [hs[0]] + ([hs[1]] + [hs[2]]);
  }

  /** Two preferred hits leaving positive remainders, then the finishing hit, make a valid route. */
  lemma ThreeValid(h0: Hit, h1: Hit, h2: Hit, rem: int, ft: FinishType)
    requires h0 in PreferredFirstHits() && h1 in PreferredFirstHits()
    requires rem - h0.value > 0 && rem - h0.value - h1.value > 0
    requires CanFinishWithLastDart(rem - h0.value - h1.value, ft) == Some(h2)
    ensures ValidRoute([h0] + ([h1] + [h2]), rem, ft)
  {
    ValidLast(h2, rem - h0.value - h1.value, ft);
    ValidExtend(h1, [h2], rem - h0.value, ft);
    ValidExtend(h0, [h1] + [h2], rem, ft);
  }

  /** Every candidate the search can produce is a valid route of one to three darts. */
  lemma CandidatesValid(rem: int, ft: FinishType, hs: seq<Hit>)
    requires hs in ShortRoutes(rem, ft) + ThreeDartRoutes(rem, Finisher(ft), PreferredFirstHits(), PreferredFirstHits())
    ensures 1 <= |hs| <= 3 && ValidRoute(hs, rem, ft)
  {
    if hs in OneDartRoutes(rem, ft) {
      ValidLast(hs[0], rem, ft);
      assert hs == [hs[0]];
    } else if hs in Finishes([], rem, Finisher(ft), PreferredFirstHits()) {
      TwoDartValid(rem, ft, hs);
    } else {
      ThreeDartValid(rem, ft, hs);
    }
  }

  lemma InPrefix<T>(x: T, a: seq<T>, b: seq<T>)
    requires x in a && a <= b
    ensures x in b
  {
    var i :| 0 <= i < |a| && a[i] == x;
    assert b[i] == x;
  }

  /** `Pick` only drops routes. */
  lemma PickMembers(short: seq<Route>, three: seq<Route>, route: Route)
    requires route in Pick(short, three)
    ensures route in short + three
  {
    var n := if |short| >= 5 then 5 else 8;
    var pool := if n == 5 then short else short + three;
    InPrefix(route, Take(Dedupe(Take(pool, n)), n), Dedupe(Take(pool, n)));
    InPrefix(route, Take(pool, n), pool);
    if n == 5 {
      PrefixExtend([], short, short + three);
      InPrefix(route, short, short + three);
    }
  }

  /** Every suggestion is the labels of a valid checkout route of at most three darts. */
  lemma SuggestionsAreCheckouts(remaining: int, ft: FinishType, route: Route)
    requires route in Suggestions(remaining, ft)
    ensures exists hs :: 1 <= |hs| <= 3 && ValidRoute(hs, remaining, ft) && Labels(hs) == route
  {
    var short := ShortRoutes(remaining, ft);
    var three := ThreeDartRoutes(remaining, Finisher(ft), PreferredFirstHits(), PreferredFirstHits());
    PickMembers(MapLabels(short), MapLabels(three), route);
    MapLabelsAppend(short, three);
    CandidateIsCheckout(remaining, ft, route);
  }

  lemma CandidateIsCheckout(remaining: int, ft: FinishType, route: Route)
    requires route in MapLabels(ShortRoutes(remaining, ft) + ThreeDartRoutes(remaining, Finisher(ft), PreferredFirstHits(), PreferredFirstHits()))
    ensures exists hs :: 1 <= |hs| <= 3 && ValidRoute(hs, remaining, ft) && Labels(hs) == route
  {
    var cands := ShortRoutes(remaining, ft) + ThreeDartRoutes(remaining, Finisher(ft), PreferredFirstHits(), PreferredFirstHits());
    var i :| 0 <= i < |cands| && MapLabels(cands)[i] == route;
    CandidatesValid(remaining, ft, cands[i]);
  }

  /** When the remainder can be finished with one dart, that dart is the first suggestion. */
  lemma SingleDartFirst(remaining: int, ft: FinishType)
    requires 2 <= remaining <= 170 && CanFinishWithLastDart(remaining, ft).Some?
    ensures var r := Suggestions(remaining, ft);
      |r| > 0 && r[0] == [CanFinishWithLastDart(remaining, ft).value.Name()]
  {
    var h := CanFinishWithLastDart(remaining, ft).value;
    var one := [[h.Name()]];
    ShortLabels(remaining, ft, one);
    var short := MapLabels(ShortRoutes(remaining, ft));
    var three := MapLabels(ThreeDartRoutes(remaining, Finisher(ft), PreferredFirstHits(), PreferredFirstHits()));
    PickFirst(short, three);
  }

  lemma PickFirst(short: seq<Route>, three: seq<Route>)
    requires |short| > 0
    ensures |Pick(short, three)| > 0 && Pick(short, three)[0] == short[0]
  {
    var n := if |short| >= 5 then 5 else 8;
    var pool := Take(if n == 5 then short else short + three, n);
    assert pool[0] == short[0];
  }

  // ---------------------------------------------------------------- shortest first

  /** No route is listed after a longer one. */
  predicate ShortestFirst(rs: seq<Route>) {
    forall i, j :: 0 <= i < j < |rs| ==> |rs[i]| <= |rs[j]|
  }

  /** Routes of one, then two, then three darts: the suggestions never list a
      longer route before a shorter one, so every one- and two-dart route
      offered comes before any three-dart route. */
  lemma SuggestionsShortestFirst(remaining: int, ft: FinishType)
    ensures ShortestFirst(Suggestions(remaining, ft))
  {
    if 2 <= remaining <= 170 {
      var finish := Finisher(ft);
      var hits := PreferredFirstHits();
      var twoRoutes := Finishes([], remaining, finish, hits);
      var threeRoutes := ThreeDartRoutes(remaining, finish, hits, hits);
      forall r | r in twoRoutes ensures |r| == 2 {
        FinishesMembers([], remaining, finish, hits, r);
      }
      forall r | r in threeRoutes ensures |r| == 3 {
        ThreeMembers(remaining, finish, hits, hits, r);
      }
      SuggestionsPicked(remaining, ft);
      StagesShortestFirst(OneDartRoutes(remaining, ft), twoRoutes, threeRoutes);
    }
  }

  /** Candidates of one, then two, then three darts stay shortest first
      through the final cut. */
  lemma StagesShortestFirst(oneRoutes: seq<seq<Hit>>, twoRoutes: seq<seq<Hit>>, threeRoutes: seq<seq<Hit>>)
    requires forall r :: r in oneRoutes ==> |r| == 1
    requires forall r :: r in twoRoutes ==> |r| == 2
    requires forall r :: r in threeRoutes ==> |r| == 3
    ensures ShortestFirst(Pick(MapLabels(oneRoutes + twoRoutes), MapLabels(threeRoutes)))
  {
    LabelledLengths(oneRoutes, 1);
    LabelledLengths(twoRoutes, 2);
    LabelledLengths(threeRoutes, 3);
    var one, two, three := MapLabels(oneRoutes), MapLabels(twoRoutes), MapLabels(threeRoutes);
    MapLabelsAppend(oneRoutes, twoRoutes);
    Concatenated(one, two);
    Concatenated(one + two, three);
    PickShortestFirst(one + two, three);
  }

  /** Labelling keeps the number of darts of each route. */
  lemma LabelledLengths(rs: seq<seq<Hit>>, n: int)
    requires forall r :: r in rs ==> |r| == n
    ensures forall k :: 0 <= k < |MapLabels(rs)| ==> |MapLabels(rs)[k]| == n
  {
    forall k | 0 <= k < |MapLabels(rs)|
      ensures |MapLabels(rs)[k]| == n
    {
      assert rs[k] in rs;
    }
  }

  /** Two lists of routes, each shortest first and the first no longer than
      the second, stay shortest first when joined. */
  lemma Concatenated(x: seq<Route>, y: seq<Route>)
    requires ShortestFirst(x) && ShortestFirst(y)
    requires forall i, j :: 0 <= i < |x| && 0 <= j < |y| ==> |x[i]| <= |y[j]|
    ensures ShortestFirst(x + y)
  {
    var xy := x + y;
    forall i, j | 0 <= i < j < |xy|
      ensures |xy[i]| <= |xy[j]|
    {
      if j < |x| {
        assert xy[i] == x[i] && xy[j] == x[j];
      } else if i < |x| {
        assert xy[i] == x[i] && xy[j] == y[j - |x|];
      } else {
        assert xy[i] == y[i - |x|] && xy[j] == y[j - |x|];
      }
    }
  }

  /** A prefix of a shortest-first list is shortest first. */
  lemma PrefixShortestFirst(a: seq<Route>, b: seq<Route>)
    requires ShortestFirst(b) && a <= b
    ensures ShortestFirst(a)
  {
    forall i, j | 0 <= i < j < |a|
      ensures |a[i]| <= |a[j]|
    {
      assert a[i] == b[i] && a[j] == b[j];
    }
  }

  /** Dropping repeated routes keeps the rest in order. */
  lemma {:induction false} DedupeShortestFirst(routes: seq<Route>, seen: set<string>)
    requires ShortestFirst(routes)
    ensures ShortestFirst(DedupeFrom(routes, seen))
  {
    if routes != [] {
      var rest := routes[1..];
      assert ShortestFirst(rest) by {
        forall i, j | 0 <= i < j < |rest|
          ensures |rest[i]| <= |rest[j]|
        {
          assert rest[i] == routes[i + 1] && rest[j] == routes[j + 1];
        }
      }
      var key := Key(routes[0]);
      if key in seen {
        DedupeShortestFirst(rest, seen);
      } else {
        DedupeShortestFirst(rest, seen + {key});
        var tail := DedupeFrom(rest, seen + {key});
        forall k | 0 <= k < |tail|
          ensures |routes[0]| <= |tail[k]|
        {
          assert tail[k] in rest;
          var m :| 0 <= m < |rest| && rest[m] == tail[k];
          assert routes[m + 1] == rest[m];
        }
        Concatenated([routes[0]], tail);
      }
    }
  }

  /** `Pick` keeps candidates listed shortest first in that order. */
  lemma PickShortestFirst(short: seq<Route>, three: seq<Route>)
    requires ShortestFirst(short + three)
    ensures ShortestFirst(Pick(short, three))
  {
    var all := short + three;
    var pool := Take(if |short| >= 5 then short else all, if |short| >= 5 then 5 else 8);
    assert short <= all;
    PrefixTrans(pool, if |short| >= 5 then short else all, all);
    PrefixShortestFirst(pool, all);
    DedupeShortestFirst(pool, {});
    var d := Dedupe(pool);
    PrefixShortestFirst(Take(d, if |short| >= 5 then 5 else 8), d);
  }
}
