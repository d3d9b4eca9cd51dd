/**
 * The remote document "games/<name>" as the activity sees it. A custom
 * game's image list and the game's best-score list live in the same
 * document; the default game's document is "games/[default]". Writing the
 * outcome of a won game is saveHighestScore: an "update" replaces the list
 * field of an existing document (and fails when there is none), a "save"
 * writes the document.
 */
module ScoreStore {
  import opened Wrappers
  import opened Scores

  datatype GameDoc = GameDoc(images: Option<seq<string>>, scores: Option<seq<Score>>)

  /** The score list read back from a fetched document, None when either is absent. */
  function ScoresOf(doc: Option<GameDoc>): Option<seq<Score>>
  {
    if doc.None? then None else doc.value.scores
  }

  /** The image list read back from a fetched document, None when either is absent. */
  function ImagesOf(doc: Option<GameDoc>): Option<seq<string>>
  {
    if doc.None? then None else doc.value.images
  }

  /** The collection "games": each document under its name. */
  type Store = map<string, GameDoc>

  /** A successful read of the document named key: None when there is no such document. */
  function Fetch(store: Store, key: string): Option<GameDoc>
  {
    if key in store then Some(store[key]) else None
  }

  /** The store after writing d under key; writing nothing leaves it as it was. */
  function Put(store: Store, key: string, d: Option<GameDoc>): (r: Store)
    ensures Fetch(r, key) == if d.None? then Fetch(store, key) else d
    ensures forall k :: k != key ==> Fetch(r, k) == Fetch(store, k)
  {
    if d.None? then store else store[key := d.value]
  }

  /**
   * saveHighestScore as written: "save" sets the document to one holding
   * only the score list, so whatever else the document held is gone.
   */
  function WriteAsWritten(doc: Option<GameDoc>, o: Outcome): (r: Option<GameDoc>)
    ensures o.Keep? ==> r == doc
    ensures o.Persist? && o.action == Save ==> ImagesOf(r) == None && ScoresOf(r) == Some(o.scores)
    ensures o.Persist? && o.action == Update && doc.None? ==> r == None
    ensures o.Persist? && o.action == Update && doc.Some? ==>
              ImagesOf(r) == ImagesOf(doc) && ScoresOf(r) == Some(o.scores)
  {
    match o
    case Keep(_) => doc
    case Persist(Save, scores, _) => Some(GameDoc(None, Some(scores)))
    case Persist(Update, scores, _) =>
      if doc.None? then doc else Some(doc.value.(scores := Some(scores)))
  }

  /**
   * saveHighestScore with "save" merged into the document: the score list is
   * written and the image list of a custom game is kept.
   */
  function Write(doc: Option<GameDoc>, o: Outcome): (r: Option<GameDoc>)
    ensures ImagesOf(r) == ImagesOf(doc)
    ensures o.Persist? && (o.action == Save || doc.Some?) ==> ScoresOf(r) == Some(o.scores)
    ensures o.Keep? ==> r == doc
  {
    match o
    case Keep(_) => doc
    case Persist(Save, scores, _) => Some(GameDoc(ImagesOf(doc), Some(scores)))
    case Persist(Update, scores, _) =>
      if doc.None? then doc else Some(doc.value.(scores := Some(scores)))
  }

  /** An "update" is only chosen when the document exists, so it never fails for lack of one. */
  lemma UpdateTargetsExistingDoc(doc: Option<GameDoc>, tag: string, moves: int)
    ensures var o := Reconcile(ScoresOf(doc), tag, moves);
            o.Persist? && o.action == Update ==> doc.Some? && doc.value.scores.Some?
  {
  }

  /**
   * Persisting a won game stores exactly the reconciled list, keeps the
   * custom images, and the next title bar shows the reported best.
   */
  lemma WinPersisted(doc: Option<GameDoc>, tag: string, moves: int)
    ensures var o := Reconcile(ScoresOf(doc), tag, moves);
            var written := Write(doc, o);
            ScoresOf(written) == After(ScoresOf(doc), o) &&
            ImagesOf(written) == ImagesOf(doc) &&
            DisplayedBest(ScoresOf(written), tag) == o.best
  {
    ReportedBestIsDisplayed(ScoresOf(doc), tag, moves);
  }

  /**
   * As written, the first win of a custom game (its document holds images
   * but no scores yet) chooses "save" and the write drops the images.
   */
  lemma SaveErasesImages(doc: Option<GameDoc>, tag: string, moves: int)
    requires doc.Some? && doc.value.images.Some? && doc.value.scores.None?
    ensures Reconcile(ScoresOf(doc), tag, moves).Persist?
    ensures Reconcile(ScoresOf(doc), tag, moves).action == Save
    ensures ImagesOf(WriteAsWritten(doc, Reconcile(ScoresOf(doc), tag, moves))) == None
    ensures ImagesOf(doc) != None
  {
  }

  /** A concrete custom game with four images, won on EASY in 10 moves. */
  lemma SaveErasesImagesExample()
    ensures var doc := Some(GameDoc(Some(["a.png", "b.png", "c.png", "d.png"]), None));
            var o := Reconcile(ScoresOf(doc), "EASY", 10);
            o == Persist(Save, [Score("EASY", 10)], 10) &&
            WriteAsWritten(doc, o) == Some(GameDoc(None, Some([Score("EASY", 10)]))) &&
            Write(doc, o) == Some(GameDoc(Some(["a.png", "b.png", "c.png", "d.png"]), Some([Score("EASY", 10)])))
  {
  }
}
