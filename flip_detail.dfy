/**
 * The flip-and-details state of the tabbed screen's track cards. The angle,
 * the details flag and the flip flag belong to the screen, not to a card:
 * every card of the track list reads and writes the same three values, so a
 * tap on any card's album art spins every card a full turn and, a moment
 * later, toggles the details panel; a tap on any card flips every card; the
 * panel's Close button toggles the panel.
 */
module FlipDetail {

  /** A rotation by a whole, non-negative number of turns. */
  predicate WholeTurns(angle: real) {
    0.0 <= angle && angle.Floor as real == angle && angle.Floor % 360 == 0
  }

  lemma AddTurn(angle: real)
    requires WholeTurns(angle)
    ensures WholeTurns(angle + 360.0)
  {
    assert (angle + 360.0).Floor == angle.Floor + 360;
  }

  /** The card's opacity: half transparent while details show over an unflipped card. */
  function CardOpacity(showDetails: bool, isFlipped: bool): (o: real)
    ensures o == 0.5 <==> showDetails && !isFlipped
    ensures o == 0.5 || o == 1.0
  {
    if showDetails && !isFlipped then 0.5 else 1.0
  }

  /** `FlipView`: the front is shown unless flipped. */
  function FrontOpacity(isFlipped: bool): real {
    if isFlipped then 0.0 else 1.0
  }

  /** `FlipView`: the back is shown only when flipped. */
  function BackOpacity(isFlipped: bool): real {
    if isFlipped then 1.0 else 0.0
  }

  /** Exactly one face of a `FlipView` is visible, whichever way it is turned. */
  lemma OneFaceVisible(isFlipped: bool)
    ensures FrontOpacity(isFlipped) + BackOpacity(isFlipped) == 1.0
    ensures (FrontOpacity(isFlipped) == 1.0) != isFlipped
    ensures (BackOpacity(isFlipped) == 1.0) == isFlipped
  {
  }

  /** The tabbed screen's `@State` shared by all track cards: one tap acts on every card at once. */
  class TrackCards {
    var rotationAngle: real
    var showDetails: bool
    var isTrackFlipped: bool
    /** Details toggles scheduled by front taps and not yet delivered. */
    var pendingToggles: nat

    predicate Valid()
      reads this
    {
      WholeTurns(rotationAngle)
    }

    constructor ()
      ensures Valid()
      ensures rotationAngle == 0.0 && !showDetails && !isTrackFlipped && pendingToggles == 0
    {
      rotationAngle := 0.0;
      showDetails := false;
      isTrackFlipped := false;
      pendingToggles := 0;
    }

    /** The front image's tap: one more full turn, and a details toggle scheduled for later. */
    method FrontTap()
      requires Valid()
      modifies this
      ensures Valid()
      ensures rotationAngle == old(rotationAngle) + 360.0
      ensures pendingToggles == old(pendingToggles) + 1
      ensures showDetails == old(showDetails) && isTrackFlipped == old(isTrackFlipped)
    {
      AddTurn(rotationAngle);
      rotationAngle := rotationAngle + 360.0;
      pendingToggles := pendingToggles + 1;
    }

    /** The scheduled step of a front tap runs: details toggle. */
    method DeliverDelayedToggle()
      requires pendingToggles > 0
      modifies this
      ensures showDetails == !old(showDetails)
      ensures pendingToggles == old(pendingToggles) - 1
      ensures rotationAngle == old(rotationAngle) && isTrackFlipped == old(isTrackFlipped)
    {
      showDetails := !showDetails;
      pendingToggles := pendingToggles - 1;
    }

    /** `toggleFlip(flipState:)`: the `inout` flag comes back toggled, and details are forced on. */
    method ToggleFlip(flipState: bool) returns (newFlipState: bool)
      modifies this
      ensures newFlipState == !flipState
      ensures showDetails
      ensures rotationAngle == old(rotationAngle) && isTrackFlipped == old(isTrackFlipped)
      ensures pendingToggles == old(pendingToggles)
    {
      newFlipState := !flipState;
      showDetails := true;
    }

    /** A tap on any track card, which flips them all: `toggleFlip(flipState: &isTrackFlipped)`. */
    method TapCard()
      modifies this
      ensures isTrackFlipped == !old(isTrackFlipped)
      ensures showDetails
      ensures CardOpacity(showDetails, isTrackFlipped) == (if isTrackFlipped then 1.0 else 0.5)
      ensures rotationAngle == old(rotationAngle) && pendingToggles == old(pendingToggles)
    {
      isTrackFlipped := ToggleFlip(isTrackFlipped);
    }

    /** The details panel's Close button. */
    method Close()
      modifies this
      ensures showDetails == !old(showDetails)
      ensures rotationAngle == old(rotationAngle) && isTrackFlipped == old(isTrackFlipped)
      ensures pendingToggles == old(pendingToggles)
    {
      showDetails := !showDetails;
    }
  }

  /**
   * A front tap followed by its delayed toggle turns the cards a full turn and
   * shows details exactly when they were hidden before.
   */
  method FrontTapThenToggle(cards: TrackCards)
    requires cards.Valid()
    modifies cards
    ensures cards.Valid()
    ensures cards.rotationAngle == old(cards.rotationAngle) + 360.0
    ensures cards.showDetails == !old(cards.showDetails)
    ensures cards.pendingToggles == old(cards.pendingToggles)
    ensures cards.isTrackFlipped == old(cards.isTrackFlipped)
  {
    cards.FrontTap();
    cards.DeliverDelayedToggle();
  }
}
