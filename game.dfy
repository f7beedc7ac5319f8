/** The wellness games page: three games (mood matching, a stress quiz and a word
    search) played one at a time, with a running score. */
module Game {
  import opened Wrappers
  import opened Seqs
  import opened WordGrid

  datatype GameType = Matching | Quiz | WordSearch

  datatype GameInfo = GameInfo(id: int, title: string, description: string, icon: string, kind: GameType)

  /** A mood card; `matched` is absent (falsy) until the card is clicked. */
  datatype MoodPair = MoodPair(emoji: string, description: string, matched: bool)

  datatype Question = Question(question: string, options: seq<string>, correctAnswer: string)

  const Games: seq<GameInfo> := [
    GameInfo(1, "Mood Match", "Match the mood faces with their descriptions", "\U{1F60A}", Matching),
    GameInfo(2, "Stress Buster", "Identify stress-relief activities", "\U{1F9D8}", Quiz),
    GameInfo(3, "Wellness Word Search", "Find wellness-related words in the grid", "\U{1F50D}", WordSearch)
  ]

  const MoodPairs: seq<MoodPair> := [
    MoodPair("\U{1F60A}", "Happy", false),
    MoodPair("\U{1F622}", "Sad", false),
    MoodPair("\U{1F621}", "Angry", false),
    MoodPair("\U{1F634}", "Tired", false),
    MoodPair("\U{1F630}", "Anxious", false),
    MoodPair("\U{1F60C}", "Calm", false)
  ]

  const StressQuestions: seq<Question> := [
    Question("Which activity helps reduce stress?",
      ["Deep breathing", "Drinking coffee", "Staying up late", "Skipping meals"], "Deep breathing"),
    Question("What is a good way to manage stress?",
      ["Regular exercise", "Avoiding sleep", "Eating junk food", "Isolating yourself"], "Regular exercise"),
    Question("Which practice promotes relaxation?",
      ["Meditation", "Watching TV all day", "Ignoring problems", "Working non-stop"], "Meditation")
  ]

  /** Points per matching click, per correct quiz answer and per newly found letter. */
  const MatchPoints: int := 10
  const QuizPoints: int := 20
  const FindPoints: int := 15

  /** A clicked grid cell as the string the page records: the letter, or "" when empty. */
  function CellText(cell: Cell): (s: string)
    ensures cell.Letter? <==> s != []
    ensures cell.Letter? ==> s == [cell.letter]
  {
    match cell
    case Empty => ""
    case Letter(ch) => [ch]
  }

  /** A single capital letter, as every non-empty cell of a generated grid holds. */
  predicate IsLetterString(w: string) {
    |w| == 1 && 'A' <= w[0] <= 'Z'
  }

  /** The letters of a list of one-letter strings. */
  function Initials(ws: seq<string>): (cs: set<char>)
    requires forall w :: w in ws ==> IsLetterString(w)
    ensures forall ch :: ch in cs ==> 'A' <= ch <= 'Z'
    ensures forall ch :: ch in cs ==> [ch] in ws
  {
    if ws == [] then {}
    else
      var w := ws[0];
      assert w in ws && IsLetterString(w);
      var rest := Initials(ws[1..]);
      assert [w[0]] == w;
      assert forall x :: x in ws[1..] ==> x in ws;
      {w[0]} + rest
  }

  /** Distinct one-letter strings have distinct letters. */
  lemma {:induction false} InitialsCount(ws: seq<string>)
    requires Distinct(ws) && forall w :: w in ws ==> IsLetterString(w)
    ensures |Initials(ws)| == |ws|
  {
    if ws != [] {
      assert ws[0] in ws;
      InitialsCount(ws[1..]);
      var first := ws[0][0];
      assert ws[0] == [first];
      forall ch | ch in Initials(ws[1..]) ensures ch != first {
        var j :| 0 <= j < |ws[1..]| && ws[1..][j] == [ch];
        assert ws[0] != ws[j + 1];
      }
    }
  }

  /** A set of letters drawn from the first k capitals has at most k members. */
  lemma {:induction false} CapitalSetBound(s: set<char>, k: nat)
    requires k <= 26
    requires forall ch :: ch in s ==> 'A' <= ch && (ch as int) < 65 + k
    ensures |s| <= k
  {
    if k == 0 {
      assert s == {} by {
        forall ch | ch in s ensures false { }
      }
    } else {
      var top := (64 + k) as char;
      CapitalSetBound(s - {top}, k - 1);
    }
  }

  /** Each word-search click records a new capital letter at most once, so at most 26
      finds are ever recorded and the word search scores at most 26 * 15 points. */
  lemma FoundLettersBounded(found: seq<string>)
    requires Distinct(found) && forall w :: w in found ==> IsLetterString(w)
    ensures |found| <= 26
    ensures FindPoints * |found| <= 390
  {
    InitialsCount(found);
    CapitalSetBound(Initials(found), 26);
  }

  /** The chips of the word list turn green when `foundWords.includes(word)`; the
      clicks record single letters, so no wellness word is ever shown as found. */
  lemma NoWordEverHighlighted(found: seq<string>)
    requires forall w :: w in found ==> IsLetterString(w)
    ensures forall w :: w in WellnessWords ==> w !in found
  {
    forall w | w in WellnessWords ensures w !in found {
      assert |w| >= 4;
    }
  }

  /** The grid `startGame` stores: `generateWordSearch`'s grid as rows, with where
      each word went and the grid as it stood before the fill loop. */
  method NewWordSearch(draws: seq<seq<Attempt>>, picks: seq<seq<int>>)
    returns (rows: seq<seq<Cell>>, placements: seq<Attempt>, ghost placed: seq<seq<Cell>>)
    requires |draws| == |WellnessWords|
    requires forall k, d :: 0 <= k < |draws| && d in draws[k] ==> ValidAttempt(d)
    requires ValidPicks(picks)
    ensures IsRows(rows)
    ensures forall r :: 0 <= r < GridSize ==>
              (|rows[r]| == GridSize && forall c :: 0 <= c < GridSize ==> IsCapital(rows[r][c]))
    ensures |placements| <= |WellnessWords|
    ensures forall k :: 0 <= k < |placements| ==>
              placements[k] in draws[k] && WordReadsOut(rows, WellnessWords[k], placements[k])
    ensures HoldsPlacedWords(placed, placements)
    ensures |placements| < |WellnessWords| ==> StuckAt(placed, placements, draws)
    ensures FilledFrom(rows, placed, picks)
  {
    var g, allPlaced;
    g, placements, allPlaced, placed := GenerateWordSearch(draws, picks);
    rows := Rows(g);
    forall k | 0 <= k < |placements|
      ensures WordReadsOut(rows, WellnessWords[k], placements[k])
    {
      var w, p := WellnessWords[k], placements[k];
      forall i | 0 <= i < |w| ensures rows[RowOf(p, i)][ColOf(p, i)] == Letter(w[i]) {
        assert InGrid(RowOf(p, i), ColOf(p, i));
      }
    }
  }

  class GameSession {
    var currentGame: Option<GameInfo>
    var score: int
    var matchingPairs: seq<MoodPair>
    var quizQuestions: seq<Question>
    var currentQuestion: int
    var wordSearchGrid: seq<seq<Cell>>
    var foundWords: seq<string>
    /** Where the generator put each wellness word; the component does not keep it. */
    ghost var wordPlacements: seq<Attempt>

    /** The generated grid before its empty cells were filled. */
    ghost var placedGrid: seq<seq<Cell>>

    /** What every handler keeps: the question index stays on a question once there are
        questions, a grid once generated is 10 x 10 capital letters, and the recorded
        finds are distinct one-letter strings. */
    predicate Valid()
      reads this
    {
      && 0 <= score
      && (quizQuestions == [] ==> currentQuestion == 0)
      && (quizQuestions != [] ==> 0 <= currentQuestion < |quizQuestions|)
      && (wordSearchGrid != [] ==>
            |wordSearchGrid| == GridSize
            && forall r :: 0 <= r < GridSize ==>
                 (|wordSearchGrid[r]| == GridSize && forall c :: 0 <= c < GridSize ==> IsCapital(wordSearchGrid[r][c])))
      && Distinct(foundWords)
      && forall w :: w in foundWords ==> IsLetterString(w)
    }

    constructor ()
      ensures Valid()
      ensures currentGame == None && score == 0 && matchingPairs == [] && quizQuestions == []
      ensures currentQuestion == 0 && wordSearchGrid == [] && foundWords == []
    {
      currentGame := None;
      score := 0;
      matchingPairs := [];
      quizQuestions := [];
      currentQuestion := 0;
      wordSearchGrid := [];
      foundWords := [];
      wordPlacements := [];
      placedGrid := [];
    }

    /** `startGame`. The score is reset for every game; the matching game takes a
        shuffled copy of the mood cards (the shuffle is the parameter), the quiz starts
        at its first question, and the word search generates a fresh grid from the draws
        and clears the finds. State the chosen game does not use is left as it was. */
    method StartGame(game: GameInfo, shuffled: seq<MoodPair>,
                     draws: seq<seq<Attempt>>, picks: seq<seq<int>>)
      requires Valid()
      requires multiset(shuffled) == multiset(MoodPairs)
      requires |draws| == |WellnessWords|
      requires forall k, d :: 0 <= k < |draws| && d in draws[k] ==> ValidAttempt(d)
      requires ValidPicks(picks)
      modifies this
      ensures Valid()
      ensures currentGame == Some(game) && score == 0
      ensures game.kind == Matching ==> matchingPairs == shuffled
      ensures game.kind != Matching ==> matchingPairs == old(matchingPairs)
      ensures game.kind == Quiz ==> quizQuestions == StressQuestions && currentQuestion == 0
      ensures game.kind != Quiz ==> quizQuestions == old(quizQuestions) && currentQuestion == old(currentQuestion)
      ensures game.kind == WordSearch ==> foundWords == [] && |wordSearchGrid| == GridSize
      ensures game.kind == WordSearch ==>
                && |wordPlacements| <= |WellnessWords|
                && forall k :: 0 <= k < |wordPlacements| ==>
                     wordPlacements[k] in draws[k] && WordReadsOut(wordSearchGrid, WellnessWords[k], wordPlacements[k])
      ensures game.kind == WordSearch ==>
                && HoldsPlacedWords(placedGrid, wordPlacements)
                && (|wordPlacements| < |WellnessWords| ==> StuckAt(placedGrid, wordPlacements, draws))
                && IsRows(wordSearchGrid) && FilledFrom(wordSearchGrid, placedGrid, picks)
      ensures game.kind != WordSearch ==> foundWords == old(foundWords) && wordSearchGrid == old(wordSearchGrid)
      ensures game.kind != WordSearch ==> wordPlacements == old(wordPlacements) && placedGrid == old(placedGrid)
    {
      currentGame := Some(game);
      score := 0;
      match game.kind {
        case Matching =>
          matchingPairs := shuffled;
        case Quiz =>
          quizQuestions := StressQuestions;
          currentQuestion := 0;
        case WordSearch =>
          var rows, placements, placed := NewWordSearch(draws, picks);
          wordSearchGrid := rows;
          wordPlacements := placements;
          placedGrid := placed;
          foundWords := [];
      }
    }

    /** `handleMatchingClick`: the clicked card is marked matched and ten points are
        added, also when the card was already matched. */
    method HandleMatchingClick(index: int)
      requires Valid() && 0 <= index < |matchingPairs|
      modifies this
      ensures wordPlacements == old(wordPlacements) && placedGrid == old(placedGrid)
      ensures Valid()
      ensures matchingPairs == old(matchingPairs)[index := old(matchingPairs)[index].(matched := true)]
      ensures score == old(score) + MatchPoints
      ensures currentGame == old(currentGame) && quizQuestions == old(quizQuestions)
      ensures currentQuestion == old(currentQuestion)
      ensures wordSearchGrid == old(wordSearchGrid) && foundWords == old(foundWords)
    {
      matchingPairs := matchingPairs[index := matchingPairs[index].(matched := true)];
      score := score + MatchPoints;
    }

    /** `handleQuizAnswer`: twenty points for the correct option; then the next question,
        or, after the last one, back to the game list with the score kept. */
    method HandleQuizAnswer(answer: string)
      requires Valid() && 0 <= currentQuestion < |quizQuestions|
      modifies this
      ensures wordPlacements == old(wordPlacements) && placedGrid == old(placedGrid)
      ensures Valid()
      ensures score == old(score) + if answer == old(quizQuestions[currentQuestion]).correctAnswer then QuizPoints else 0
      ensures old(currentQuestion) < |quizQuestions| - 1 ==>
                currentQuestion == old(currentQuestion) + 1 && currentGame == old(currentGame)
      ensures old(currentQuestion) == |quizQuestions| - 1 ==>
                currentQuestion == old(currentQuestion) && currentGame == None
      ensures quizQuestions == old(quizQuestions) && matchingPairs == old(matchingPairs)
      ensures wordSearchGrid == old(wordSearchGrid) && foundWords == old(foundWords)
    {
      if answer == quizQuestions[currentQuestion].correctAnswer {
        score := score + QuizPoints;
      }
      if currentQuestion < |quizQuestions| - 1 {
        currentQuestion := currentQuestion + 1;
      } else {
        EndGame();
      }
    }

    /** `handleWordSearchClick`: the clicked cell's letter is recorded and fifteen points
        added, unless the cell is empty or the letter was recorded before. */
    method HandleWordSearchClick(row: int, col: int)
      requires Valid() && 0 <= row < |wordSearchGrid| && 0 <= col < |wordSearchGrid[row]|
      modifies this
      ensures wordPlacements == old(wordPlacements) && placedGrid == old(placedGrid)
      ensures Valid()
      ensures currentGame == old(currentGame) && wordSearchGrid == old(wordSearchGrid)
      ensures var w := CellText(wordSearchGrid[row][col]);
              if w != [] && w !in old(foundWords) then
                foundWords == old(foundWords) + [w] && score == old(score) + FindPoints
              else
                foundWords == old(foundWords) && score == old(score)
      ensures |foundWords| <= 26
      ensures matchingPairs == old(matchingPairs) && quizQuestions == old(quizQuestions)
      ensures currentQuestion == old(currentQuestion)
    {
      var w := CellText(wordSearchGrid[row][col]);
      if w != [] && w !in foundWords {
        foundWords := foundWords + [w];
        score := score + FindPoints;
      }
      FoundLettersBounded(foundWords);
    }

    /** `endGame` and the "Back to Games" button: only the current game is cleared. */
    method EndGame()
      modifies this
      ensures wordPlacements == old(wordPlacements) && placedGrid == old(placedGrid)
      ensures currentGame == None
      ensures score == old(score) && matchingPairs == old(matchingPairs)
      ensures quizQuestions == old(quizQuestions) && currentQuestion == old(currentQuestion)
      ensures wordSearchGrid == old(wordSearchGrid) && foundWords == old(foundWords)
    {
      currentGame := None;
    }
  }
}
