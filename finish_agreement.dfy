/** Where the checkout suggestions (utils/checkout.ts) and the engine's
    double-out rule (models/game.ts) meet: the last dart of a suggested
    route. */
module FinishAgreement {
  import opened DartsTypes
  import GameRules
  import Checkout

  /** Under double-out the solver offers the bull as the dart that finishes
      50 and labels it a double, but the engine busts a player on 50 whose
      bull is entered as 50 points with multiplier 1, because that is not
      multiplier 2; only a bull entered as 25 with multiplier 2 finishes. */
  lemma BullFinishDisagrees()
    ensures Checkout.CanFinishWithLastDart(50, DoubleOut) == Some(Checkout.Bull) && Checkout.Bull.isDouble
    ensures GameRules.IsBust(50, Dart(50, 1), DoubleOut)
    ensures !GameRules.IsBust(50, Dart(25, 2), DoubleOut)
  {
  }

  /** Every other double-out finish the solver offers is one the engine
      accepts: for an even score up to 40, the suggested double entered with
      multiplier 2 takes the score to zero without a bust. */
  lemma DoubleFinishesAgree(target: int)
    requires target != 50 && Checkout.CanFinishWithLastDart(target, DoubleOut).Some?
    ensures target % 2 == 0 && 2 <= target <= 40
    ensures !GameRules.IsBust(target, Dart(target / 2, 2), DoubleOut)
    ensures target - Points(Dart(target / 2, 2)) == 0
  {
    Checkout.DoubleOutFinishingHit(target);
  }
}
