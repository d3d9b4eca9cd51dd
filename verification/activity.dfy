/**
 * The main screen's session state and the rules it applies around the card
 * engine: which game and board size are being played, which document holds
 * their scores, when a tap reaches the engine, and what happens when a game
 * is won. The card engine (MemoryGame) is a collaborator whose flip rules
 * are not part of this model: the activity only observes it through a
 * GameView, and each engine answer is passed in as a parameter.
 */
module Activity {
  import opened Wrappers
  import opened BoardSizes
  import opened Scores
  import opened ScoreStore

  /** Document name used when no custom game is loaded. */
  const DefaultGameName: string := "[default]"

  /** What the activity reads from the card engine: haveWonGame, isCardFaceUp, getNumMoves. */
  datatype GameView = GameView(won: bool, faceUp: seq<bool>, numMoves: nat)

  /** What became of a tap on a card. */
  datatype TapVerdict = AlreadyWon | InvalidMove | Forwarded

  /** What became of a request to play a custom game. */
  datatype DownloadResult = BlankName | NotFound | UnsupportedSize | Loaded

  /** Kotlin's Char.isWhitespace: Java whitespace and Unicode space separators. */
  predicate IsWhitespace(c: char)
  {
    c == '\t' || c == '\n' || c == '\U{000B}' || c == '\U{000C}' || c == '\r' ||
    ('\U{001C}' <= c <= '\U{0020}') || c == '\U{00A0}' || c == '\U{1680}' ||
    ('\U{2000}' <= c <= '\U{200A}') || c == '\U{2028}' || c == '\U{2029}' ||
    c == '\U{202F}' || c == '\U{205F}' || c == '\U{3000}'
  }

  /** Kotlin's isBlank: empty or whitespace only. */
  predicate IsBlank(s: string)
  {
    forall i :: 0 <= i < |s| ==> IsWhitespace(s[i])
  }

  /**
   * An engine as setupBoard builds it for size: one entry per card, every
   * card face down, no moves made and not won (the screen starts at
   * "Pairs: 0/p").
   */
  ghost predicate NewEngine(engine: GameView, size: BoardSize)
  {
    |engine.faceUp| == size.NumCards() && !engine.won && engine.numMoves == 0 &&
    forall i :: 0 <= i < |engine.faceUp| ==> !engine.faceUp[i]
  }

  /** Whether a tap on the card at position may reach flipCard. */
  function Guard(g: GameView, position: nat): (v: TapVerdict)
    requires position < |g.faceUp|
    ensures v == Forwarded <==> !g.won && !g.faceUp[position]
    ensures v == AlreadyWon <==> g.won
  {
    if g.won then AlreadyWon
    else if g.faceUp[position] then InvalidMove
    else Forwarded
  }

  /** On a new board every card of the grid can be tapped. */
  lemma NewEngineAcceptsEveryCard(engine: GameView, size: BoardSize, position: nat)
    requires NewEngine(engine, size) && position < size.NumCards()
    ensures position < |engine.faceUp| && Guard(engine, position) == Forwarded
  {
  }

  class MainActivity {
    var boardSize: BoardSize
    var gameName: Option<string>
    var customGameImages: Option<seq<string>>
    var game: GameView

    /** A new screen plays the default game on the easy board. */
    constructor (engine: GameView)
      requires NewEngine(engine, EASY)
      ensures boardSize == EASY && gameName == None && customGameImages == None
      ensures game == engine && DocumentKey() == DefaultGameName
    {
      boardSize := EASY;
      gameName := None;
      customGameImages := None;
      game := engine;
    }

    /** The name of the document holding this game's images and scores. */
    function DocumentKey(): (k: string)
      reads this
      ensures gameName.None? ==> k == DefaultGameName
      ensures gameName.Some? ==> k == gameName.value
    {
      if gameName.Some? then gameName.value else DefaultGameName
    }

    /** setupBoard's engine part: a new engine for the current size replaces the old one. */
    method SetupBoard(engine: GameView)
      requires NewEngine(engine, boardSize)
      modifies this`game
      ensures game == engine
      ensures !game.won && game.numMoves == 0 && |game.faceUp| == boardSize.NumCards()
    {
      game := engine;
    }

    /**
     * setupBoard's title, once the read of the document named DocumentKey()
     * succeeded: the best score of the current size stored there.
     */
    method TitleBest(store: Store) returns (best: int)
      ensures best == DisplayedBest(ScoresOf(Fetch(store, DocumentKey())), boardSize.Name())
      ensures ScoresOf(Fetch(store, DocumentKey())).None? ==> best == 0
    {
      best := DisplayedBest(ScoresOf(Fetch(store, DocumentKey())), boardSize.Name());
    }

    /**
     * downloadGame: play the custom game called name, once the read of
     * the document named name succeeded.
     * A blank name is refused whatever the document holds; a document
     * without images is not a game; otherwise the board gets two cards per
     * image and the session switches to that game.
     */
    method DownloadGame(name: string, store: Store, engine: GameView) returns (r: DownloadResult)
      requires var images := ImagesOf(Fetch(store, name));
               images.Some? && GetByValue(2 * |images.value|).Some? ==>
                 NewEngine(engine, GetByValue(2 * |images.value|).value)
      modifies this
      ensures IsBlank(name) ==> r == BlankName
      ensures !IsBlank(name) && ImagesOf(Fetch(store, name)).None? ==> r == NotFound
      ensures (!IsBlank(name) && ImagesOf(Fetch(store, name)).Some? &&
               GetByValue(2 * |ImagesOf(Fetch(store, name)).value|).None?) ==> r == UnsupportedSize
      ensures r == Loaded <==>
              !IsBlank(name) && ImagesOf(Fetch(store, name)).Some? && GetByValue(2 * |ImagesOf(Fetch(store, name)).value|).Some?
      ensures r != Loaded ==> unchanged(this)
      ensures r == Loaded ==>
                customGameImages == ImagesOf(Fetch(store, name)) && gameName == Some(name) &&
                boardSize.NumCards() == 2 * |customGameImages.value| &&
                game == engine && DocumentKey() == name
    {
      if IsBlank(name) {
        return BlankName;
      }
      var images := ImagesOf(Fetch(store, name));
      if images.None? {
        return NotFound;
      }
      var numCards := |images.value| * 2;
      var size := GetByValue(numCards);
      if size.None? {
        return UnsupportedSize;
      }
      boardSize := size.value;
      customGameImages := images;
      gameName := Some(name);
      SetupBoard(engine);
      r := Loaded;
    }

    /** showNewSizeDialog: a new size always returns to the default game. */
    method ChooseNewSize(size: BoardSize, engine: GameView)
      requires NewEngine(engine, size)
      modifies this
      ensures boardSize == size && gameName == None && customGameImages == None
      ensures game == engine && DocumentKey() == DefaultGameName
    {
      boardSize := size;
      gameName := None;
      customGameImages := None;
      SetupBoard(engine);
    }

    /**
     * updateGameWithFlip: a tap on a won game or on a face-up card is
     * refused and the engine is left as it was; otherwise the card is
     * flipped, the engine moving to flipped and answering found. wonNow
     * says that the flip found a pair and won the game, which starts the
     * score reconciliation.
     */
    method UpdateGameWithFlip(position: nat, flipped: GameView, found: bool) returns (v: TapVerdict, wonNow: bool)
      requires position < |game.faceUp|
      modifies this`game
      ensures v == Guard(old(game), position)
      ensures v != Forwarded ==> game == old(game) && !wonNow
      ensures v == Forwarded ==> game == flipped
      ensures wonNow <==> v == Forwarded && found && flipped.won
    {
      wonNow := false;
      if game.won {
        return AlreadyWon, false;
      }
      if game.faceUp[position] {
        return InvalidMove, false;
      }
      game := flipped;
      v := Forwarded;
      if found && game.won {
        wonNow := true;
      }
    }

    /**
     * The win-time part of updateGameWithFlip, once the read of the
     * document named DocumentKey() succeeded: reconcile its scores with
     * this game's move count and write the outcome back under the same
     * name. The stored list becomes the reconciled one, the document shows
     * the reported best for this size and keeps its images, and no other
     * document changes.
     */
    method SaveWin(store: Store) returns (o: Outcome, written: Store)
      ensures var doc := Fetch(store, DocumentKey());
              o == Reconcile(ScoresOf(doc), boardSize.Name(), game.numMoves)
      ensures o.Persist? ==> o.best == game.numMoves
      ensures o.Keep? ==>
                o.best == DisplayedBest(ScoresOf(Fetch(store, DocumentKey())), boardSize.Name()) <= game.numMoves
      ensures ScoresOf(Fetch(written, DocumentKey())) == After(ScoresOf(Fetch(store, DocumentKey())), o)
      ensures DisplayedBest(ScoresOf(Fetch(written, DocumentKey())), boardSize.Name()) == o.best
      ensures ImagesOf(Fetch(written, DocumentKey())) == ImagesOf(Fetch(store, DocumentKey()))
      ensures forall k :: k != DocumentKey() ==> Fetch(written, k) == Fetch(store, k)
    {
      var key := DocumentKey();
      var tag := boardSize.Name();
      var doc := Fetch(store, key);
      o := Reconcile(ScoresOf(doc), tag, game.numMoves);
      var d := Write(doc, o);
      written := Put(store, key, d);
      WinPersisted(doc, tag, game.numMoves);
      BestIsMinimum(ScoresOf(doc), tag, game.numMoves);
      assert d.Some? by {
        if doc.None? { assert o.Persist? && o.action == Save; }
      }
    }
  }
}
