/**
 * The per-game list of best scores and the decision taken when a game is
 * won: save a fresh list, append an entry for this board size, replace the
 * entry in place, or keep the list and report the stored best. Lower move
 * counts are better; a tie never replaces the stored best.
 */
module Scores {
  import opened Wrappers

  /** One entry of the stored list: a board-size tag and its best move count. */
  datatype Score = Score(boardSize: string, highestScore: int)

  /** What saveHighestScore is asked to do with the list it is given. */
  datatype Action =
    | Save    // write a new document holding only the list
    | Update  // replace the list field of the existing document

  /** The outcome of a won game. best is the best score reported to the player. */
  datatype Outcome =
    | Persist(action: Action, scores: seq<Score>, best: int)
    | Keep(best: int)

  /** No entry of s carries the tag. */
  ghost predicate NoEntry(s: seq<Score>, tag: string)
  {
    forall i :: 0 <= i < |s| ==> s[i].boardSize != tag
  }

  /** i is the position of the first entry of s that carries the tag. */
  ghost predicate IsFirstEntry(s: seq<Score>, tag: string, i: int)
  {
    0 <= i < |s| && s[i].boardSize == tag &&
    forall j :: 0 <= j < i ==> s[j].boardSize != tag
  }

  /** Every tag occurs at most once in s. */
  ghost predicate UniqueTags(s: seq<Score>)
  {
    forall i, j :: 0 <= i < j < |s| ==> s[i].boardSize != s[j].boardSize
  }

  /** t is s with position i replaced by x and nothing else changed. */
  ghost predicate ReplacedAt(s: seq<Score>, t: seq<Score>, i: int, x: Score)
  {
    |t| == |s| && 0 <= i < |s| && t[i] == x &&
    forall j :: 0 <= j < |s| && j != i ==> t[j] == s[j]
  }

  /** Kotlin's indexOfFirst on the board-size tag: -1 when no entry matches. */
  function IndexOfFirst(s: seq<Score>, tag: string): (r: int)
    ensures -1 <= r < |s|
    ensures r == -1 <==> NoEntry(s, tag)
    ensures r != -1 ==> IsFirstEntry(s, tag, r)
  {
    if s == [] then -1
    else if s[0].boardSize == tag then 0
    else
      var k := IndexOfFirst(s[1..], tag);
      if k == -1 then -1 else k + 1
  }

  /**
   * The best score shown in the title bar: 0 when there is no list or no
   * entry for the tag, otherwise the first matching entry's score.
   */
  function DisplayedBest(stored: Option<seq<Score>>, tag: string): (r: int)
    ensures stored.None? ==> r == 0
    ensures stored.Some? && NoEntry(stored.value, tag) ==> r == 0
    ensures forall i | stored.Some? && IsFirstEntry(stored.value, tag, i) ::
              r == stored.value[i].highestScore
  {
    if stored.None? then 0
    else
      var i := IndexOfFirst(stored.value, tag);
      if i == -1 then 0 else stored.value[i].highestScore
  }

  /**
   * The decision taken when a game of size tag is won in moves moves,
   * given the stored list (None when the document or its list is absent).
   */
  function Reconcile(stored: Option<seq<Score>>, tag: string, moves: int): (o: Outcome)
    ensures stored.None? ==> o == Persist(Save, [Score(tag, moves)], moves)
    ensures stored.Some? && NoEntry(stored.value, tag) ==>
              o == Persist(Update, stored.value + [Score(tag, moves)], moves)
    ensures forall i | stored.Some? && IsFirstEntry(stored.value, tag, i) ::
              if moves < stored.value[i].highestScore then
                o.Persist? && o.action == Update && o.best == moves &&
                ReplacedAt(stored.value, o.scores, i, Score(tag, moves))
              else
                o == Keep(stored.value[i].highestScore)
  {
    var newScore := Score(tag, moves);
    var index := if stored.None? then -1 else IndexOfFirst(stored.value, tag);
    if stored.None? || index == -1 then
      if stored.Some? then Persist(Update, stored.value + [newScore], moves)
      else Persist(Save, [newScore], moves)
    else
      var current := stored.value[index];
      if moves < current.highestScore then
        Persist(Update, stored.value[index := newScore], moves)
      else
        Keep(current.highestScore)
  }

  /** The stored list once the outcome has been persisted. */
  function After(stored: Option<seq<Score>>, o: Outcome): Option<seq<Score>>
  {
    if o.Persist? then Some(o.scores) else stored
  }

  function Min(a: int, b: int): int
  {
    if a < b then a else b
  }

  /**
   * The reported best is the better of the stored best and the new move
   * count, or the move count alone when nothing was stored for this size;
   * every persisting outcome records the move count.
   */
  lemma BestIsMinimum(stored: Option<seq<Score>>, tag: string, moves: int)
    ensures stored.Some? && !NoEntry(stored.value, tag) ==>
              Reconcile(stored, tag, moves).best == Min(DisplayedBest(stored, tag), moves)
    ensures stored.None? || NoEntry(stored.value, tag) ==>
              Reconcile(stored, tag, moves).best == moves
    ensures Reconcile(stored, tag, moves).Persist? ==> Reconcile(stored, tag, moves).best == moves
  {
  }

  /**
   * After the outcome is persisted, the best shown in the title bar is the
   * best that was reported for the won game.
   */
  lemma ReportedBestIsDisplayed(stored: Option<seq<Score>>, tag: string, moves: int)
    ensures var o := Reconcile(stored, tag, moves);
            DisplayedBest(After(stored, o), tag) == o.best
  {
    var o := Reconcile(stored, tag, moves);
    var x := Score(tag, moves);
    if stored.None? {
      assert IsFirstEntry([x], tag, 0);
    } else if NoEntry(stored.value, tag) {
      var s := stored.value;
      assert IsFirstEntry(s + [x], tag, |s|) by {
        forall j | 0 <= j < |s| ensures (s + [x])[j].boardSize != tag {
          assert (s + [x])[j] == s[j];
        }
      }
    } else {
      var s := stored.value;
      var i := IndexOfFirst(s, tag);
      assert IsFirstEntry(s, tag, i);
      if o.Persist? {
        assert IsFirstEntry(o.scores, tag, i);
      }
    }
  }

  /** Entries for other board sizes keep their displayed best. */
  lemma OtherTagsUnchanged(stored: Option<seq<Score>>, tag: string, moves: int, other: string)
    requires other != tag
    ensures DisplayedBest(After(stored, Reconcile(stored, tag, moves)), other) ==
            DisplayedBest(stored, other)
  {
    var o := Reconcile(stored, tag, moves);
    var x := Score(tag, moves);
    if stored.None? {
      assert NoEntry([x], other);
    } else {
      var s := stored.value;
      if o.Persist? {
        var t := o.scores;
        if NoEntry(s, tag) {
          assert t == s + [x];
        } else {
          assert IsFirstEntry(s, tag, IndexOfFirst(s, tag));
        }
        // t agrees with s on every entry tagged other, and has no extra one
        assert forall j :: 0 <= j < |t| ==> (t[j].boardSize == other <==> j < |s| && s[j].boardSize == other);
        if NoEntry(s, other) {
          assert NoEntry(t, other);
        } else {
          var k := IndexOfFirst(s, other);
          assert IsFirstEntry(t, other, k);
        }
      }
    }
  }

  /** A list with at most one entry per size keeps that property. */
  lemma UniqueTagsPreserved(stored: Option<seq<Score>>, tag: string, moves: int)
    requires stored.Some? ==> UniqueTags(stored.value)
    ensures var after := After(stored, Reconcile(stored, tag, moves));
            after.Some? && UniqueTags(after.value)
  {
  }

  /**
   * Winning again with the same move count after the outcome was persisted
   * changes nothing: the tie keeps the recorded best.
   */
  lemma ReconcileIdempotent(stored: Option<seq<Score>>, tag: string, moves: int)
    ensures var o := Reconcile(stored, tag, moves);
            Reconcile(After(stored, o), tag, moves) == Keep(o.best)
  {
    var o := Reconcile(stored, tag, moves);
    var after := After(stored, o);
    ReportedBestIsDisplayed(stored, tag, moves);
    BestIsMinimum(stored, tag, moves);
    assert after.Some? && !NoEntry(after.value, tag) by {
      if stored.None? {
        assert after.value[0].boardSize == tag;
      } else if NoEntry(stored.value, tag) {
        assert after.value[|stored.value|].boardSize == tag;
      } else {
        var i := IndexOfFirst(stored.value, tag);
        assert IsFirstEntry(stored.value, tag, i);
        assert after.value[i].boardSize == tag;
      }
    }
    var k := IndexOfFirst(after.value, tag);
    assert IsFirstEntry(after.value, tag, k);
  }

  /** Concrete cases: absent list, empty list, better, tie, worse, another size's entry. */
  lemma ReconcileExamples()
    ensures Reconcile(None, "EASY", 10) == Persist(Save, [Score("EASY", 10)], 10)
    ensures Reconcile(Some([]), "EASY", 10) == Persist(Update, [Score("EASY", 10)], 10)
    ensures Reconcile(Some([Score("EASY", 10)]), "EASY", 8) == Persist(Update, [Score("EASY", 8)], 8)
    ensures Reconcile(Some([Score("EASY", 10)]), "EASY", 10) == Keep(10)
    ensures Reconcile(Some([Score("EASY", 10)]), "EASY", 12) == Keep(10)
    ensures Reconcile(Some([Score("MEDIUM", 5)]), "EASY", 7) ==
            Persist(Update, [Score("MEDIUM", 5), Score("EASY", 7)], 7)
  {
  }
}
