# Meta My Memory: best-score reconciliation and session rules

A Dafny model of the main screen of a memory-matching card game (the Android
app `MainActivity`). The model covers the logic the activity runs around
the card engine:

- **Session state.** The class `Activity.MainActivity` holds the board size,
  the custom game's name and images, and a view of the engine. Downloading a
  custom game and choosing a new size update these fields.
- **Persistence key.** A game's images and scores live in one remote
  document. It is named after the custom game, or `"[default]"` when no
  custom game is loaded.
- **Tap guard.** A tap reaches the engine's `flipCard` only when the game is
  not won and the card is face down.
- **Title-bar best.** The best score shown in the title bar is 0 when nothing
  is stored for the current size. Otherwise it is the first matching entry's
  score.
- **Reconciliation on a win.** The win-time reconciliation has four outcomes:
  - save a fresh one-entry list when no list is stored;
  - append when the list has no entry for the current size;
  - replace that entry in place when the new move count is strictly lower;
  - otherwise keep the list and report the stored best. A tie keeps the old
    best.

Modules:

- `Wrappers`: `Option`, standing for Kotlin's nullable types.
- `BoardSizes`: the three board sizes as the activity shows them, and the
  lookup by card count.
- `Scores`: the `Score` record, `indexOfFirst`, the displayed best, the
  reconciliation, and the lemmas relating them.
- `ScoreStore`: the collection `games` as a map from document name to
  document (`images` and `scores`), and how writing an outcome changes a
  document.
- `Activity`: the session class and the tap guard.

The card engine (`MemoryGame`) is a collaborator whose rules are not part of
this model. The activity observes it only as a `GameView`: whether the game
is won, which cards are face up, and the move count. Each engine answer is
passed in as a parameter. These answers are the new board built by
`setupBoard` (one face-down card per grid cell, no moves, not won) and the
state and match flag after a flip.

Remote reads come in the same way. The operations that follow a read
(`TitleBest`, `DownloadGame`, `SaveWin`) take the collection as it was
successfully read, and look the document up under its name. A name missing
from the map means there is no such document. After a failed read the code
runs none of them: the title and win-time reads have no failure handler,
and the download's failure handler only logs (:168-170).

A stored list that exists but is empty is not absent: it takes the append
path and is written with "update". Only a missing document or a missing
`scores` field leads to "save".

## Model

| member | source | states |
|---|---|---|
| `BoardSizes.BoardSize.NumCards` | app/src/main/java/com/example/meta_my_memory/MainActivity.kt:243-256 | each size's grid (4 x 2, 6 x 3, 6 x 4) holds exactly twice its pair count (4, 9, 12), so the card count is even and positive |
| `BoardSizes.NamesDistinct` | app/src/main/java/com/example/meta_my_memory/MainActivity.kt:233 | the size tag used in score entries identifies one board size |
| `BoardSizes.GetByValue` | app/src/main/java/com/example/meta_my_memory/MainActivity.kt:158-159 | returns a size with exactly the requested card count, and returns none exactly when no size has that count |
| `Scores.IndexOfFirst` | app/src/main/java/com/example/meta_my_memory/MainActivity.kt:336 | -1 exactly when no entry has the tag; otherwise the entry at the result has the tag and no earlier one does |
| `Scores.DisplayedBest` | app/src/main/java/com/example/meta_my_memory/MainActivity.kt:230-239 | 0 when the list is absent or has no entry for the size; otherwise the score of the first entry with that tag |
| `Scores.Reconcile` | app/src/main/java/com/example/meta_my_memory/MainActivity.kt:336-372 | no list gives "save" of exactly [Score(tag, moves)]; a list without the tag gives "update" of the old list with the new score appended; a strictly lower count gives "update" where only the first matching index becomes Score(tag, moves); a tie or worse keeps the list and reports the stored best |
| `Scores.BestIsMinimum` | app/src/main/java/com/example/meta_my_memory/MainActivity.kt:344-372 | the reported best is the minimum of the stored best and the move count, or the move count when nothing was stored; every persisting outcome reports the move count |
| `Scores.ReportedBestIsDisplayed` | app/src/main/java/com/example/meta_my_memory/MainActivity.kt:300 | once the outcome is persisted, the best shown for the size equals the best that was reported |
| `Scores.OtherTagsUnchanged` | app/src/main/java/com/example/meta_my_memory/MainActivity.kt:345-367 | the displayed best of every other board size is the same before and after the outcome is persisted |
| `Scores.UniqueTagsPreserved` | app/src/main/java/com/example/meta_my_memory/MainActivity.kt:344-349 | a list with at most one entry per size keeps that property, because appending happens only when the tag is absent |
| `Scores.ReconcileIdempotent` | app/src/main/java/com/example/meta_my_memory/MainActivity.kt:359 | winning again with the same move count after persisting changes nothing: the tie keeps the recorded best |
| `Scores.ReconcileExamples` | app/src/main/java/com/example/meta_my_memory/MainActivity.kt:336-372 | concrete cases: absent list, empty list, better, tie, worse, and another size's entry |
| `ScoreStore.WriteAsWritten` | app/src/main/java/com/example/meta_my_memory/MainActivity.kt:268-299 | as written: "update" replaces the list of an existing document and keeps its images, and does nothing without a document; "save" leaves a document holding only the list, with no images |
| `ScoreStore.Write` | app/src/main/java/com/example/meta_my_memory/MainActivity.kt:268-299 | writing an outcome never changes the document's images; a saved list, or an updated list on an existing document, is what is read back |
| `ScoreStore.UpdateTargetsExistingDoc` | app/src/main/java/com/example/meta_my_memory/MainActivity.kt:344-349 | "update" is chosen only when the document and its list exist, so the field update never targets a missing document |
| `ScoreStore.WinPersisted` | app/src/main/java/com/example/meta_my_memory/MainActivity.kt:268-300 | after the win is written, the stored list is the reconciled list, the images are kept, and the title shows the reported best |
| `ScoreStore.SaveErasesImages` | app/src/main/java/com/example/meta_my_memory/MainActivity.kt:284-286 | as written, a custom game's first win chooses "save", and the resulting document has no images |
| `ScoreStore.SaveErasesImagesExample` | app/src/main/java/com/example/meta_my_memory/MainActivity.kt:352-354 | a four-image custom game won on EASY in 10 moves loses its images as written and keeps them with the corrected write |
| `Activity.Guard` | app/src/main/java/com/example/meta_my_memory/MainActivity.kt:308-318 | a tap is forwarded exactly when the game is not won and the card is face down; a won game always answers "already won" |
| `Activity.MainActivity.constructor` | app/src/main/java/com/example/meta_my_memory/MainActivity.kt:52-56 | a new screen plays the default game (no name, no images) on EASY, so its document is "[default]" |
| `Activity.MainActivity.DocumentKey` | app/src/main/java/com/example/meta_my_memory/MainActivity.kt:226 | the document name is the custom game's name, or "[default]" when no custom game is loaded |
| `Activity.NewEngineAcceptsEveryCard` | app/src/main/java/com/example/meta_my_memory/MainActivity.kt:308-318 | on a new board every card of the grid passes the tap guard |
| `Activity.MainActivity.SetupBoard` | app/src/main/java/com/example/meta_my_memory/MainActivity.kt:242 | a new engine for the current size (one face-down card per grid cell, no moves, not won) replaces the old one |
| `Activity.MainActivity.TitleBest` | app/src/main/java/com/example/meta_my_memory/MainActivity.kt:226-240 | after a successful read of the document named by the session, the title shows the displayed best of the current size there, and 0 when it has no list |
| `Activity.MainActivity.DownloadGame` | app/src/main/java/com/example/meta_my_memory/MainActivity.kt:139-171 | a blank name is refused whatever the store holds; a missing document or one without images is refused; on success the images and name are set, the board has 2 cards per image, and the document key becomes the name; every refusal leaves the state unchanged |
| `Activity.MainActivity.ChooseNewSize` | app/src/main/java/com/example/meta_my_memory/MainActivity.kt:202-210 | sets the size, clears the game name and images, so the document key becomes "[default]" |
| `Activity.MainActivity.UpdateGameWithFlip` | app/src/main/java/com/example/meta_my_memory/MainActivity.kt:306-330 | a tap on a won game or a face-up card leaves the engine untouched; otherwise the flip is applied, and a win is reported exactly when the flip found a pair and won the game |
| `Activity.MainActivity.SaveWin` | app/src/main/java/com/example/meta_my_memory/MainActivity.kt:331-375 | the outcome is the reconciliation of the list in the document named by the session with this size and move count; a persisting outcome reports the move count, a kept one the stored best (no larger than the count); that document's list becomes the reconciled list, shows the reported best and keeps its images; no other document changes |

## Findings

| source | as written | input that shows it | evidently intended | confidence | as-written member | corrected member |
|---|---|---|---|---|---|---|
| app/src/main/java/com/example/meta_my_memory/MainActivity.kt:284-286 | "save" calls `set(MemoryScore(scores))` on `games/<name>`. That is the same document whose `images` field defines a custom game (:148-150), and a set without merge replaces the whole document. | A custom game with images and no scores, won for the first time | Only the score list is written, and the custom game's images stay | medium: relies on Firestore's `set` replacing a document; not executed | `ScoreStore.SaveErasesImages` | `ScoreStore.Write` |

The model's session (`Activity.MainActivity.SaveWin`) uses the corrected
write. `ScoreStore.WriteAsWritten` keeps the code's behaviour for the
finding above.

## Left out

- The card engine (`MemoryGame`): deck construction, shuffling, and the flip
  and match rules. `MemoryGame` is not part of this model. Its answers are
  parameters of the methods that call it.
- Firestore reads and writes and their asynchronous callbacks. A read becomes
  the collection passed in, and a write the collection returned. A failed
  read is not modelled: the code then runs no part of the modelled
  operations. A result that arrives late, after the session changed,
  is not modelled. That is a concurrency hazard.
- `Activity.MainActivity.SaveWin`: writes through the corrected `ScoreStore.Write`, not the overwriting `set` at :285-286. So its "keeps its images" describes the corrected write; `ScoreStore.WriteAsWritten` holds the code's behaviour (see Findings).
- `Activity.MainActivity.SaveWin`: does not model a failed write. The title
  is set to the reported best whether or not the write succeeds (:300).
- `Activity.NewEngine`: `MemoryGame` is not part of this model. That its constructor gives one face-down card per grid cell, no moves and no win is assumed; the screen's "Pairs: 0/p" label (:246-254) and the quit check on moves (:86) are consistent with it.
- `BoardSizes.GetByValue`: `BoardSize` is not part of this model. For a card
  count that matches no size, the Kotlin lookup is not visible. The model
  reports `UnsupportedSize` and changes nothing. Board width and height are
  read from the size labels at :245-254.
- `Score.highest_score` is nullable in the code, and `!!` at :359 would throw
  on null. The model's scores are plain integers.
- `Activity.IsWhitespace` lists the whitespace characters that Kotlin's
  `isBlank` skips. It uses no Unicode database.
- Picasso image prefetching, Firebase Analytics, Remote Config, dialogs,
  snackbars, confetti, the pair-progress colour (floating point), menus
  (including the quit-game confirmation at :86-92), the creation dialog,
  `CreateActivity` and `onActivityResult`. These are platform glue.
