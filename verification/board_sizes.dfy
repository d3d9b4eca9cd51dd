/**
 * The three board sizes of the game, as far as the activity shows them: the
 * size label ("Easy: 4 x 2", ...) and the pair count ("Pairs: 0/4", ...)
 * written by setupBoard, and the lookup by card count used when a custom
 * game is downloaded.
 */
module BoardSizes {
  import opened Wrappers

  datatype BoardSize = EASY | MEDIUM | HARD {

    /** The enum constant's name, used as the score tag of this size. */
    function Name(): string
    {
      match this
      case EASY => "EASY"
      case MEDIUM => "MEDIUM"
      case HARD => "HARD"
    }

    /** First factor of the size label "w x h". */
    function Width(): nat
    {
      match this
      case EASY => 4
      case MEDIUM => 6
      case HARD => 6
    }

    /** Second factor of the size label "w x h". */
    function Height(): nat
    {
      match this
      case EASY => 2
      case MEDIUM => 3
      case HARD => 4
    }

    /** The denominator of the "Pairs: 0/p" label. */
    function NumPairs(): nat
    {
      match this
      case EASY => 4
      case MEDIUM => 9
      case HARD => 12
    }

    /** Cards on the board: the whole grid, which holds every pair twice. */
    function NumCards(): (n: nat)
      ensures n == 2 * NumPairs()
      ensures n % 2 == 0 && n > 0
    {
      Width() * Height()
    }
  }

  /** Different sizes have different tags, so a tag names one size. */
  lemma NamesDistinct(a: BoardSize, b: BoardSize)
    ensures a.Name() == b.Name() <==> a == b
  {
  }

  /**
   * The size whose card count is numCards, if there is one; a custom game
   * with n images asks for the size with 2 * n cards.
   */
  function GetByValue(numCards: int): (r: Option<BoardSize>)
    ensures r.Some? ==> r.value.NumCards() == numCards
    ensures r.None? <==> forall b: BoardSize :: b.NumCards() != numCards
  {
    if numCards == EASY.NumCards() then Some(EASY)
    else if numCards == MEDIUM.NumCards() then Some(MEDIUM)
    else if numCards == HARD.NumCards() then Some(HARD)
    else None
  }
}
