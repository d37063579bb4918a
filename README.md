# Darts scorekeeper engine, in Dafny

This project models the scoring core of a darts scorekeeper written in TypeScript, and proves properties of it.

**Countdown games ("501", "301", or any type naming a number).** Each player starts on a score and brings it down to zero, with three darts per turn. A dart busts when it:
- takes the score below zero;
- or, under the double-out finish, leaves exactly one;
- or, under the double-out finish, reaches zero on anything but a double.

A player who reaches zero joins the ranking. Depending on the game's settings, the game then ends at the first finisher or when every player is ranked.

**Capital games.** These play fourteen rounds, one contract per round. Examples: "hit a 20", "hit a treble", "three board neighbours", "three consecutive numbers", "three colours", "57 points", "hit the bull". At the end of each turn the player is credited with the round contract's points.

**Checkout suggestions.** Beside the engine, a pure search lists up to eight routes of one to three darts that finish a remaining score.

The model follows the code's structure:

- `PlayerModel.Player`, `TurnModel.PlayerInRow` and `GameModel.Game` are classes whose fields the operations overwrite in place, as the code's objects are. A round is a sequence of turns; the rounds are a sequence of rounds.
- `GameRules` holds the engine's arithmetic as functions:
  - bust detection;
  - the score a dart leaves;
  - when a finish ends the game;
  - turn order;
  - the starting score of a game type, which includes JavaScript's `parseInt`.

  `GameModel.ThrowEffect` ties these rules to `Game.AddDart`.
- `CapitalContracts` and `Checkout` are pure functions. Their loops are methods proved equal to the functions: `Checkout.GetCheckoutSuggestions`, `Checkout.DedupeRoutes` and `Checkout.ScanTwoDarts`/`ScanThreeDarts`.
- `LegacyGame` and `LegacyPlayer` model the two small record classes the setup screen uses.
- `FinishAgreement` relates the checkout search to the engine's double-out rule.

Some behaviours of the code as written are modelled as written and stated as lemmas:

- **A bust over-credits the player.** The engine gives back the points of every dart of the turn, including the busting one, which was never taken off. So the player ends on the score the turn started from plus the busting dart (`GameRules.BustOverCredits`, `GameModel.BustClosesTurn`).
- **The ranking is not deduplicated.** A finisher is appended to `ranking` with no membership check (`GameModel.Game.AddDart`, `GameModel.Game.PlayerFinish`).
- **`nextPlayer` can recurse forever.** It recurses for as long as the next player is on zero. When every player is on zero the recursion never ends (`GameModel.AllOnZeroNeverStops`). `GameModel.Game.NextPlayer` is therefore a loop with a ghost bound: a candidate at which the recursion stops. `GameModel.HandOverReachesScorer` shows such a bound exists whenever some player holding an order still has points to score.
- **The checkout search and the engine disagree on the bull.** Under double-out, the search offers the bull as the dart that finishes 50. The engine busts a bull entered as 50 points with multiplier 1 (`FinishAgreement.BullFinishDisagrees`). Every other double-out finish it offers is one the engine accepts (`FinishAgreement.DoubleFinishesAgree`).
- **Padding darts are `{score: 0, multiplier: 0}`.** These fillers close a turn after a bust or a finish, and are given to a player already on zero.

## Model

| member | source | states |
|---|---|---|
| DartsTypes.Fillers | models/game.ts:426-439 | the padding darts are `n` darts, each `{score: 0, multiplier: 0}` |
| DartsTypes.PaddingKeepsTotal | models/game.ts:216-218 | padding a turn to three darts adds no points and leaves three darts |
| DartsTypes.NatToStringReadsBack | utils/checkout.ts:9-20 | the decimal text of a number used in hit labels reads back as the number, with no leading zero |
| Dartboard.IndexOf | services/capital/contracts.ts:68-71 | the board index of a number is its first position in the sector order, and there is none exactly when the number is not on the board |
| Dartboard.SectorsAreOneToTwenty | utils/dartboard.ts:10-12 | the sector order holds each of 1..20 exactly once |
| Dartboard.IndexOfSector | services/capital/contracts.ts:68-71 | looking up the number printed on sector `q` gives back `q` |
| GameRules.NoBustOutcomes | models/game.ts:194-203 | outside a bust the new score is the old minus the dart, never negative, never one under double-out, and zero under double-out only on a double |
| GameRules.BustOverCredits | models/game.ts:194-221 | after a bust the player holds the turn's starting score plus the busting dart |
| GameRules.ScoreStaysNonNegative | models/game.ts:194-242 | with darts worth no negative points, a countdown score never drops below zero |
| GameRules.AlertStatusMeaning | models/game.ts:260-279 | after a finish, the game ends exactly when it ends at the first finisher, or when all players are ranked and it is not a lone player; otherwise the status is unchanged |
| GameRules.IterateStaysInRange | models/game.ts:140-143 | handing the turn on from an order in 1..n never leaves 1..n |
| GameRules.EveryOrderComesRound | models/game.ts:140-143 | every order in 1..n comes round within n hand-overs |
| GameRules.TrimStart | models/game.ts:318 | `parseInt` skips the leading run of white space: every character dropped is white space, what remains is a suffix of the input, and it does not start with white space |
| GameRules.DigitPrefix | models/game.ts:318 | `parseInt` reads the longest run of leading decimal digits |
| GameRules.ParseDigitsThenRest | models/game.ts:318 | digits followed by a non-digit parse as the number the digits spell |
| GameRules.ParseNumeral | models/game.ts:318-319 | the decimal text of a number parses back to that number, whatever non-digit text follows |
| GameRules.ParseNegativeNumeral | models/game.ts:318-319 | a minus sign before such text parses to the negated number |
| GameRules.StartScoreMeaning | models/game.ts:306-324 | apart from Capital (score 0), the starting score is the number the type parses to, or 501 when it parses to none; "501" and "301" agree with this |
| GameRules.StartScoreOfNumber | models/game.ts:317-319 | a game type that is the decimal text of a number starts every player on that number |
| Checkout.DoublesValues | utils/checkout.ts:18-20 | the doubles are worth the even numbers 2..40 and are marked doubles |
| Checkout.TriplesValues | utils/checkout.ts:14-16 | the trebles are worth the multiples of three from 30 to 60 |
| Checkout.SinglesValues | utils/checkout.ts:9-12 | the singles are worth 1..20 and 25 |
| Checkout.Find | utils/checkout.ts:43-47 | a hit found by value is worth that value |
| Checkout.FindMeaning | utils/checkout.ts:43-47 | the search fails exactly when no hit of the table is worth the value, and otherwise returns one of the table's hits |
| Checkout.CanFinishWithLastDart | utils/checkout.ts:31-49 | a finishing hit, when there is one, is worth exactly the target |
| Checkout.DoubleOutFinishingHit | utils/checkout.ts:35-38 | under double-out one dart finishes exactly the bull and the even scores up to 40, and that dart is the bull or one of D1..D20 |
| Checkout.ClassicFinishingHit | utils/checkout.ts:41-48 | in classic play one dart finishes exactly the bull, single, double and treble values; trebles are preferred to singles, and singles to doubles |
| Checkout.ValidRouteFinishes | utils/checkout.ts:63-84 | a route's hits sum to exactly the remaining score, each dart before the last is worth less than that score, and under double-out the last dart is a double |
| Checkout.CandidatesValid | utils/checkout.ts:63-84 | every candidate of one to three darts the search builds is a valid route |
| Checkout.Suggestions | utils/checkout.ts:51-91 | nothing below 2 or above 170; at most eight routes; at most five once the one- and two-dart stage reaches five; no two routes share a key |
| Checkout.SuggestionsAreCheckouts | utils/checkout.ts:51-91 | every suggestion is the labels of a valid checkout route of one to three darts |
| Checkout.SuggestionsShortestFirst | utils/checkout.ts:62-90 | no suggestion is listed after a longer one, so every one- and two-dart route comes before any three-dart route |
| Checkout.SingleDartFirst | utils/checkout.ts:62-64 | when one dart can finish, that dart is the first suggestion |
| Checkout.PickMembers | utils/checkout.ts:74-90 | the final cut only drops candidates |
| Checkout.GetCheckoutSuggestions | utils/checkout.ts:51-91 | the loops with their early exits return exactly the suggestions `Suggestions` describes |
| Checkout.ScanTwoDarts | utils/checkout.ts:66-74 | the two-dart loop lists a prefix of the short routes: exactly five of them, or all of them when fewer exist |
| Checkout.ScanThreeDarts | utils/checkout.ts:76-88 | the nested three-dart loops extend the list with a prefix of the three-dart routes: up to eight routes in all, or every route when fewer exist |
| Checkout.ScanSecondDarts | utils/checkout.ts:80-86 | the inner loop appends the routes opening with one first dart, stopping at eight |
| Checkout.DedupeFrom | utils/checkout.ts:93-104 | deduplication keeps only routes of the input whose key is new, keeps no two with the same key, and keeps the first route when its key is new |
| Checkout.DedupeFromCovers | utils/checkout.ts:93-104 | every key of the input is kept by some route |
| Checkout.FirstOfKeyTail | utils/checkout.ts:93-104 | past the first route, a route is the first of its key exactly when it is among the rest with the first key added to those seen |
| Checkout.DedupeFromPicks | utils/checkout.ts:93-104 | deduplication keeps the routes at the kept positions, in that order |
| Checkout.KeptPositionsIncrease | utils/checkout.ts:93-104 | the kept positions increase: deduplication keeps input order |
| Checkout.KeptPositionsFirst | utils/checkout.ts:93-104 | a route is kept exactly when its key is not yet seen and no earlier route has it |
| Checkout.DedupeKeepsFirsts | utils/checkout.ts:93-104 | `dedupeRoutes` keeps the first route of each key and no other, in input order |
| Checkout.DedupeRoutes | utils/checkout.ts:93-104 | the loop with its `seen` set computes the deduplication |
| Checkout.FormatSuggestionShape | utils/checkout.ts:106-108 | a route of one to three labels is shown as its labels separated by the bullet literal |
| CapitalContracts.BaseFromScore | services/capital/contracts.ts:118-121 | a score is a sector number exactly when it is in 1..20, and then it is itself |
| CapitalContracts.Bases | services/capital/contracts.ts:127-129 | the sector numbers of a turn are exactly the numbers 1..20 some dart landed on |
| CapitalContracts.Multipliers | services/capital/contracts.ts:130 | the multipliers of a turn are exactly those some dart carries |
| CapitalContracts.Uniq | services/capital/contracts.ts:144 | the distinct values hold the same values as the input, each once |
| CapitalContracts.EvaluateContract | services/capital/contracts.ts:123-186 | S20..S14 hold exactly when a dart lands on that number whatever its multiplier; TRIPLE and DOUBLE exactly when some multiplier is 3 or 2; CENTRE exactly when a score is 25 or 50; TOTAL_57 exactly when the total is 57; COULEUR exactly when three colours show |
| CapitalContracts.ComputeContractPoints | services/capital/contracts.ts:188-196 | a contract not met earns nothing |
| CapitalContracts.PointsAreTotalWhenMet | services/capital/contracts.ts:188-196 | a met contract earns the turn's total, and the flat 57 of TOTAL_57 is that total |
| CapitalContracts.GetContractForRound | services/capital/contracts.ts:198-201 | round `i` plays contract `i`, clamped to the first and the fourteenth |
| CapitalContracts.ContractsDistinct | services/capital/contracts.ts:26-66 | no two rounds play the same contract |
| CapitalContracts.EveryContractPlayed | services/capital/contracts.ts:26-66 | every contract is played in one of rounds 0..13 |
| CapitalContracts.SideBySideMeaning | services/capital/contracts.ts:143-154 | SIDE_BY_SIDE holds exactly when three sectors that neighbour each other on the board, wrapping round, were all hit |
| CapitalContracts.WindowIsAdjacentTriplet | services/capital/contracts.ts:73-90 | any three numbers taken from one window of three neighbouring sectors are an adjacent triplet |
| CapitalContracts.SuiteMeaning | services/capital/contracts.ts:157-167 | SUITE holds exactly when some n, n+1 and n+2 were all hit |
| CapitalContracts.SingleHitColor | services/capital/contracts.ts:102-116 | a single on a number shows only black or white, or no colour |
| CapitalContracts.ColorOfHitMeaning | services/capital/contracts.ts:102-116 | bull (50) red, outer bull (25) green, then any treble red and any double green; another hit shows no colour exactly when it has no sector, and otherwise black on the sectors at even places from the top of the board, white on the others |
| CapitalContracts.MissColor | services/capital/contracts.ts:102-116 | a dart that hit no sector shows red as a treble, green as a double, and no colour otherwise |
| CapitalContracts.CouleurNeedsRingHit | services/capital/contracts.ts:170-176 | COULEUR needs a bull, a double or a treble among the darts |
| CapitalContracts.CouleurNeedsThreeDarts | services/capital/contracts.ts:170-176 | COULEUR needs at least three darts |
| TurnModel.Pushed | models/playerInRow.ts:23-29 | adding a dart fails with "too many darts" exactly when three are there, and otherwise appends it |
| TurnModel.Popped | models/playerInRow.ts:31-38 | removing fails with "no dart" exactly on an empty turn, and otherwise returns the last dart and the rest |
| TurnModel.PushThenPop | models/playerInRow.ts:23-38 | adding a dart, then removing the last, gives the dart back and restores the turn |
| TurnModel.PushKeepsAtMostThree | models/playerInRow.ts:24-28 | a turn never grows past three darts |
| TurnModel.PlayerInRow.constructor | models/playerInRow.ts:17-21 | a turn holds the given player, score and darts |
| TurnModel.PlayerInRow.AddDart | models/playerInRow.ts:23-29 | as `Pushed`, in place; a refused dart changes nothing |
| TurnModel.PlayerInRow.RemoveLastDart | models/playerInRow.ts:31-38 | as `Popped`, in place; the player and score stay |
| TurnModel.PlayerInRow.GetScore | models/playerInRow.ts:40-42 | returns the turn's score |
| TurnModel.PlayerInRow.SetScore | models/playerInRow.ts:44-46 | changes only the score |
| TurnModel.PlayerInRow.GetDartsCount | models/playerInRow.ts:48-50 | returns the number of darts |
| TurnModel.PlayerInRow.GetDarts | models/playerInRow.ts:52-54 | returns the darts |
| TurnModel.PlayerInRow.GetPlayer | models/playerInRow.ts:56-58 | returns the player |
| TurnModel.PlayerInRow.Hydrate | models/playerInRow.ts:60-65 | the turn holds exactly the stored data, over a fresh copy of its player |
| TurnModel.RebuildRows | models/game.ts:117-123 | every stored turn is rebuilt as a fresh turn over a fresh player holding exactly its data |
| PlayerModel.Player.constructor | models/player.ts:7-12 | a new player has no name, the given score (0 by default) and the order of its id |
| PlayerModel.Player.GetId | models/player.ts:14-16 | returns the id |
| PlayerModel.Player.GetName | models/player.ts:18-20 | returns the name |
| PlayerModel.Player.GetScore | models/player.ts:22-24 | returns the score |
| PlayerModel.Player.GetOrder | models/player.ts:26-28 | returns the order |
| PlayerModel.Player.SetName | models/player.ts:30-32 | changes only the name |
| PlayerModel.Player.SetScore | models/player.ts:34-36 | changes only the score |
| PlayerModel.Player.SetOrder | models/player.ts:38-40 | changes only the order |
| PlayerModel.Player.Hydrate | models/player.ts:42-46 | overwrites name, score and order from stored data; the id stays |
| PlayerModel.RebuildAll | models/game.ts:112-116 | every stored player is rebuilt as a fresh player holding exactly its data |
| GameModel.FindById | models/game.ts:67-69 | finds the first player with the id, and none exactly when no player has it |
| GameModel.FindByOrder | models/game.ts:134-143 | finds the first player with the order, and none exactly when no player has it |
| GameModel.SortByScorePermutes | models/game.ts:146-148 | sorting by score only reorders the players |
| GameModel.SortByScoreSorted | models/game.ts:146-148 | the players come out in ascending order of score |
| GameModel.SortByScoreStable | models/game.ts:146-148 | players with equal scores keep their relative order, as the stable `Array.prototype.sort` does |
| GameModel.Named | models/game.ts:476 | keeps exactly the players with a name |
| GameModel.NamedPicks | models/game.ts:476 | the filter keeps the players at the named positions, in that order |
| GameModel.NamedPositionsIncrease | models/game.ts:476 | the positions kept increase: the filter keeps the players' order |
| GameModel.NamedPositionsExact | models/game.ts:476 | a position is kept exactly when its player has a non-empty name |
| GameModel.AppendedTurns | models/game.ts:442-459 | a new turn joins the rounds after all earlier turns and becomes the current turn |
| GameModel.AppendedFits | models/game.ts:442-459 | no round holds more turns than there are players |
| GameModel.AppendedAllStep | models/game.ts:442-465 | placing the turns of each recursive pass one after another is placing them all |
| GameModel.AppendedAllTurns | models/game.ts:442-465 | turns placed one by one follow all earlier turns, in the order given |
| GameModel.AppendedAllFits | models/game.ts:442-465 | with at least one player, turns placed one by one keep every round within the player count |
| GameModel.ThrowRecordsDart | models/game.ts:183-185 | an accepted dart is recorded after the earlier darts, only fillers follow it, the turn never exceeds three darts, and the points recorded grow by exactly the dart |
| GameModel.CapitalThrowOnlyRecords | models/game.ts:183-192 | in Capital a dart only adds to the turn: the player's score, ranking and status do not change |
| GameModel.BustClosesTurn | models/game.ts:194-221 | a bust closes the turn with three darts and a zero turn score, and leaves the player on the turn's starting score plus the busting dart |
| GameModel.FinishRanks | models/game.ts:224-237 | a finish puts the player on zero and into the ranking; the game ends exactly as `alertFinish` decides, and a game that goes on has the turn closed with three darts |
| GameModel.PlainThrowSubtracts | models/game.ts:240-242 | any other countdown dart takes its points off, leaving a positive score (at least 2 under double-out) |
| GameModel.ThrowKeepsScoreNonNegative | models/game.ts:194-242 | with darts worth no negative points, a countdown score stays non-negative |
| GameModel.ThrowThenTakeBack | models/game.ts:366-382 | taking back a dart that neither bust nor finished restores the turn's darts and score and the player's score |
| GameModel.CapitalCreditMeaning | models/game.ts:404-412 | the Capital credit is the turn's total when the round's contract is met and the total is positive, and nothing otherwise |
| GameModel.PadTurn | models/game.ts:216-218 | the padding loop fills the turn with fillers up to three darts and changes nothing else |
| GameModel.FindByOrderIndexed | models/game.ts:143 | which player holds an order is decided by the play orders alone |
| GameModel.HandOverReachesScorer | models/game.ts:462-464 | with every order in 1..n held by one player, `nextPlayer` stops by the first time it reaches a player not on zero |
| GameModel.AllOnZeroNeverStops | models/game.ts:424-464 | with every order held and every player on zero, `nextPlayer` never stops |
| GameModel.Game.constructor | models/game.ts:20-38 | a game holds the given fields; by default type "501", pending, empty, classic finish |
| GameModel.Game.GetPlayers | models/game.ts:53-55 | returns the players |
| GameModel.Game.AddPlayer | models/game.ts:63-65 | appends a player and changes nothing else |
| GameModel.Game.SetType | models/game.ts:75-77 | changes only the type |
| GameModel.Game.SetTypesFinish | models/game.ts:79-81 | changes only the finish rule |
| GameModel.Game.SetFinishAtFirst | models/game.ts:83-85 | changes only whether the game ends at the first finisher |
| GameModel.Game.GetRows | models/game.ts:87-89 | returns the rounds |
| GameModel.Game.CurrentRow | models/game.ts:91-96 | the current round is the last, and there is none exactly when no round was played |
| GameModel.Game.CurrentTurn | models/game.ts:98-104 | the current turn is the last of all turns played, and there is none when the last round is missing or empty |
| GameModel.Game.PlayerById | models/game.ts:67-69 | a player of the game with that id, and none exactly when none has it |
| GameModel.Game.PlayerByIdFirst | models/game.ts:67-69 | the player found is the first with that id, as `find` returns it, even when ids repeat |
| GameModel.Game.CurrentPlayer | models/game.ts:57-61 | the current player is a player of the game with the current turn's player's id (the first one, through `PlayerById`); none when no player has it |
| GameModel.Game.GetNextPlayerId | models/game.ts:71-73 | one more than the number of players |
| GameModel.Game.NextPlayerToPlay | models/game.ts:131-144 | nobody without players; the player of order 1 without a current turn; else the player whose order follows the current turn's player's, wrapping from the player count to 1 |
| GameModel.Game.PlayerHasAgainDart | models/game.ts:338-341 | a dart is still due exactly when the current turn holds fewer than three |
| GameModel.Game.PlayerHasOverScore | models/game.ts:343-345 | exactly when the current player is below zero |
| GameModel.Game.PlayerCanPlay | models/game.ts:326-336 | exactly when a dart is due and the player is not below zero |
| GameModel.Game.PlayerFinishIsValid | models/game.ts:347-364 | a finish is valid exactly on zero, and under double-out only with multiplier 2 |
| GameModel.Game.ResetCurrentPlayerInRow | models/game.ts:286-304 | the player is credited with all the turn's darts and the turn's score cleared; it fails, changing nothing, without a player or a current turn |
| GameModel.Game.AlertFinish | models/game.ts:260-279 | sets the status `AlertStatus` decides and changes nothing else |
| GameModel.Game.PlayerFinish | models/game.ts:248-258 | a valid finish appends the player to the ranking, with no duplicate check, and settles the status; an invalid one changes nothing |
| GameModel.Game.AddDart | models/game.ts:166-246 | without a current turn, a player for it, or room for a dart, it fails and changes nothing; otherwise the turn, the player, the ranking and the status become what `ThrowEffect` says |
| GameModel.Game.RemoveLastDart | models/game.ts:366-382 | pops the last dart and takes its points off the turn's score, giving them back to the player outside Capital; it fails on no current turn or an empty turn |
| GameModel.Game.ResetOverScore | models/game.ts:389-392 | a current player below zero gets the turn's points back and the turn's score is cleared |
| GameModel.Game.CreditContract | models/game.ts:395-414 | the current player gains the Capital credit and no one else's score changes; it fails without a current turn or its player |
| GameModel.Game.SettleTurn | models/game.ts:389-414 | each player's score becomes the settled score; under Capital it fails without a current turn or its player |
| GameModel.Game.Advance | models/game.ts:416-461 | a new turn for the next player to play, pre-filled with three fillers for a countdown player on zero, is placed in the current round or opens a new one; a full fourteenth Capital round ends the game instead; without a next player it fails with "no player" |
| GameModel.Game.HandOver | models/game.ts:388-461 | settles the outgoing turn, whose darts and player stay and whose score is cleared exactly when its player was below zero, and gives the first candidate its turn, placed as `Appended` says; a Capital game whose last round is full and which holds 14 rounds or more is finished instead, and only then is no turn given; names stay; on failure no round changes |
| GameModel.Game.PassOverAll | models/game.ts:462-464 | passes over player after player on zero until one is not, or no player holds the next order |
| GameModel.Game.NextPlayer | models/game.ts:388-465 | places the turns it adds one by one as `Appended` says, turn `i` to the player `i` hand-overs past the next order; every turn but the last passed a countdown player on zero over with three fillers; the last is empty and is where the hand-over stops; the outgoing turn keeps its darts and player, and its score is cleared exactly when its player was below zero; no round grows past the player count; a Capital game gives at most one turn, and on success gives none exactly when its last round is full and it holds 14 rounds or more, which finishes it; otherwise the status stays; player names stay |
| GameModel.Game.HandOnCapital | models/game.ts:388-461 | under Capital, one hand-over: the outgoing turn settled as in `HandOver`, at most one turn, placed as `Appended` says, none exactly when the game closes after its fourteenth round; names stay |
| GameModel.Game.HandOnCountdown | models/game.ts:388-465 | in a countdown game, the hand-over and the pass-over of every next player on zero; the outgoing turn settled as in `HandOver`, the status and names unchanged |
| GameModel.Game.PassOn | models/game.ts:442-465 | once the first turn is placed, passes over players on zero one by one, each new turn placed as `Appended` says |
| GameModel.Game.Hydrate | models/game.ts:106-129 | every field is overwritten from the stored data; players, turns and ranking are fresh copies |
| GameModel.Game.Start | models/game.ts:150-164 | hydrates from the stored data, every round as long as stored and every turn and player a fresh copy, and marks the game started; with no round played it opens the first round with an empty turn for the player of order 1, or fails with "no player" |
| GameModel.Game.OpenFirstRound | models/game.ts:155-163 | with no round played, the first round holds one empty turn for the player of order 1; rounds already played are kept |
| GameModel.Game.ResetGame | models/game.ts:306-324 | no rounds, no ranking, pending, and every player on the type's starting score with name and order kept |
| GameModel.Game.CheckSetup | models/game.ts:472-477 | refuses a game without players; otherwise keeps exactly the named players |
| GameModel.Game.GetPlayerOrderByScore | models/game.ts:146-148 | sorts the players in place, stably by ascending score, and returns them |
| FinishAgreement.BullFinishDisagrees | utils/checkout.ts:36 | the search finishes 50 with a bull marked as a double, yet the engine busts a bull entered as 50 with multiplier 1 under double-out |
| FinishAgreement.DoubleFinishesAgree | utils/checkout.ts:35-38 | every other double-out finish the search offers, entered as that double, takes the score to zero without a bust |
| LegacyGame.Replaced | entities/game.ts:43-50 | the update keeps the length, and replaces exactly the players carrying the given id |
| LegacyGame.ReplacedHoldsPlayer | entities/game.ts:43-50 | after an update every player with the given player's id is the given player, and it is present exactly when it was or a player with its id was |
| LegacyGame.ReplacedIdempotent | entities/game.ts:43-50 | updating twice with the same player is updating once |
| LegacyGame.Game.constructor | entities/game.ts:9-13 | a new game has the given id, type "501" and no players |
| LegacyGame.Game.GetGameId | entities/game.ts:15-17 | returns the id |
| LegacyGame.Game.GetType | entities/game.ts:19-21 | returns the type |
| LegacyGame.Game.GetPlayers | entities/game.ts:23-25 | returns the players |
| LegacyGame.Game.AddPlayer | entities/game.ts:27-29 | appends the player |
| LegacyGame.Game.GetNextPlayerId | entities/game.ts:31-33 | one more than the number of players |
| LegacyGame.Game.GetPlayersCount | entities/game.ts:35-37 | the number of players |
| LegacyGame.Game.SetType | entities/game.ts:39-41 | changes only the type |
| LegacyGame.Game.UpdatePlayer | entities/game.ts:43-50 | the players become `Replaced` of the old ones |
| LegacyPlayer.Player.constructor | entities/player.ts:7-12 | a new player has no name, score 0 and the order of its id; the id never changes afterwards |
| LegacyPlayer.Player.GetId | entities/player.ts:14-16 | returns the id |
| LegacyPlayer.Player.GetName | entities/player.ts:18-20 | returns the name |
| LegacyPlayer.Player.GetScore | entities/player.ts:22-24 | returns the score |
| LegacyPlayer.Player.GetOrder | entities/player.ts:26-28 | returns the order |
| LegacyPlayer.Player.SetName | entities/player.ts:30-32 | changes only the name |
| LegacyPlayer.Player.SetScore | entities/player.ts:34-36 | changes only the score |
| LegacyPlayer.Player.SetOrder | entities/player.ts:38-40 | changes only the order |

## Left out

- Persistence is a no-op: `save`, `getByIdFromStorage`, `getAllFromStorage`, `multiRemoveFromStorage` and the legacy `save`, because they write to device storage. `GameModel.Game.Start` takes the stored game as a parameter instead of loading it.
- `generateId` is left out because it draws random characters. The id is a constructor parameter.
- `alert` calls and the messages they show are dropped, because they are user-interface side effects. An error the code catches and alerts is returned as a `Fail` outcome.
- `async`/`await` is not modelled, because every operation runs to completion before the next starts. The model is sequential.
- `refresh` is left out, because it only returns the game itself.
- The rule that a bull or a miss only takes multiplier 1 is left out, because it is enforced by the screens and not by the engine. The model accepts any score and multiplier, as `addDart` does.
- The Capital starting score of 1000 is left out, because it is set by the hook that drives the game screen (hooks/useGame.ts:89). `resetGame` sets 0, and so does the model.
- `resolveHit` and `computeRingMetrics` in the dartboard helpers are left out, because they are floating-point trigonometry. Only the sector order is kept.
- GameModel.Game.NextPlayer: takes a ghost bound, a candidate at which the recursion stops, because the code's recursion does not end when every player is on zero (`GameModel.AllOnZeroNeverStops`). Games in that state are outside the model.
- GameRules.ParseInt: models `parseInt(s, 10)` on decimal digits over unbounded integers. Floating-point precision for very long digit strings is not modelled, and neither are numbers past 2^53.
- Errors the code throws without catching, in `removeLastDart`, `checkSetup`, `start` and `nextPlayer`, are returned as `Fail` outcomes too, because the model has no exceptions. The state reached before the throw is kept. A "no player" failure of `nextPlayer` comes after the outgoing turn is settled and, under Capital, after the contract is credited, and the model keeps those changes (`GameModel.Game.HandOver`).
- `hydrate` and `start` take a typed `GameData` record rather than parsed JSON, because decoding JSON text is outside the engine.
