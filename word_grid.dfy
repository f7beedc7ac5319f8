/** The word-search generator of the games page: a 10 x 10 grid of cells, filled in
    place by placing each wellness word along a row or a column and then filling the
    empty cells with random capital letters. The random draws are parameters. */
module WordGrid {

  const GridSize: int := 10

  /** A grid cell: the empty string, or one letter. */
  datatype Cell = Empty | Letter(letter: char)

  /** Direction 0 is horizontal (along a row), 1 is vertical (down a column). */
  datatype Direction = Horizontal | Vertical

  /** One random draw of the placement loop: a direction and a start cell. */
  datatype Attempt = Attempt(dir: Direction, row: int, col: int)

  const WellnessWords: seq<string> := ["CALM", "PEACE", "HAPPY", "RELAX", "SLEEP", "BREATHE", "MEDITATE", "EXERCISE"]

  predicate IsGrid(g: array2<Cell>) {
    g.Length0 == GridSize && g.Length1 == GridSize
  }

  predicate InGrid(r: int, c: int) {
    0 <= r < GridSize && 0 <= c < GridSize
  }

  /** The start cell is drawn from 0..9 in each coordinate. */
  predicate ValidAttempt(a: Attempt) {
    InGrid(a.row, a.col)
  }

  /** Row and column of the word's i-th letter. */
  function RowOf(a: Attempt, i: int): int {
    if a.dir == Horizontal then a.row else a.row + i
  }

  function ColOf(a: Attempt, i: int): int {
    if a.dir == Horizontal then a.col + i else a.col
  }

  /** The bounds test of `canPlaceWord`: the word ends inside the grid. */
  predicate Fits(word: string, a: Attempt) {
    ValidAttempt(a)
    && (a.dir == Horizontal ==> a.col + |word| <= GridSize)
    && (a.dir == Vertical ==> a.row + |word| <= GridSize)
  }

  /** Every cell the word would use is empty or already holds the same letter. */
  ghost predicate NoConflict(g: array2<Cell>, word: string, a: Attempt)
    reads g
    requires IsGrid(g) && Fits(word, a)
  {
    forall i :: 0 <= i < |word| ==>
      g[RowOf(a, i), ColOf(a, i)] == Empty || g[RowOf(a, i), ColOf(a, i)] == Letter(word[i])
  }

  /** The cell (r, c) lies on the word's line. */
  predicate OnLine(word: string, a: Attempt, r: int, c: int) {
    if a.dir == Horizontal then r == a.row && a.col <= c < a.col + |word|
    else c == a.col && a.row <= r < a.row + |word|
  }

  /** The word reads out along its line. */
  ghost predicate WordAt(g: array2<Cell>, word: string, a: Attempt)
    reads g
    requires IsGrid(g)
  {
    Fits(word, a) && forall i :: 0 <= i < |word| ==> g[RowOf(a, i), ColOf(a, i)] == Letter(word[i])
  }

  /** `canPlaceWord`: false when the word would run off the grid, or when some cell on
      its line holds a different letter; overlapping on the same letter is allowed. */
  method CanPlaceWord(g: array2<Cell>, word: string, a: Attempt) returns (ok: bool)
    requires IsGrid(g) && ValidAttempt(a)
    ensures ok <==> Fits(word, a) && forall i :: 0 <= i < |word| ==>
                      g[RowOf(a, i), ColOf(a, i)] == Empty || g[RowOf(a, i), ColOf(a, i)] == Letter(word[i])
  {
    if a.dir == Horizontal && a.col + |word| > GridSize {
      return false;
    }
    if a.dir == Vertical && a.row + |word| > GridSize {
      return false;
    }
    var i := 0;
    while i < |word|
      invariant 0 <= i <= |word|
      invariant forall j :: 0 <= j < i ==>
                  g[RowOf(a, j), ColOf(a, j)] == Empty || g[RowOf(a, j), ColOf(a, j)] == Letter(word[j])
    {
      var cell := g[RowOf(a, i), ColOf(a, i)];
      if cell != Empty && cell != Letter(word[i]) {
        return false;
      }
      i := i + 1;
    }
    return true;
  }

  /** `placeWord`: write the i-th letter at (row, col + i) or (row + i, col); nothing
      off the line changes. When the placement had no conflict, no letter already in
      the grid is overwritten by a different one. */
  method PlaceWord(g: array2<Cell>, word: string, a: Attempt)
    requires IsGrid(g) && Fits(word, a)
    modifies g
    ensures WordAt(g, word, a)
    ensures forall r, c :: InGrid(r, c) && !OnLine(word, a, r, c) ==> g[r, c] == old(g[r, c])
    ensures old(NoConflict(g, word, a)) ==>
              forall r, c :: InGrid(r, c) && old(g[r, c]) != Empty ==> g[r, c] == old(g[r, c])
  {
    var i := 0;
    while i < |word|
      invariant 0 <= i <= |word|
      invariant forall j :: 0 <= j < i ==> g[RowOf(a, j), ColOf(a, j)] == Letter(word[j])
      invariant forall r, c :: InGrid(r, c) && !OnLine(word[..i], a, r, c) ==> g[r, c] == old(g[r, c])
    {
      g[RowOf(a, i), ColOf(a, i)] := Letter(word[i]);
      i := i + 1;
    }
    assert word[..i] == word;
    if old(NoConflict(g, word, a)) {
      forall r, c | InGrid(r, c) && old(g[r, c]) != Empty ensures g[r, c] == old(g[r, c]) {
        if OnLine(word, a, r, c) {
          var k := if a.dir == Horizontal then c - a.col else r - a.row;
          assert RowOf(a, k) == r && ColOf(a, k) == c;
        }
      }
    }
  }

  /** One pass of the `while (!placed)` loop over a finite list of draws: place the
      word at the first draw that passes `canPlaceWord`. When no draw passes, the grid
      is left as it was. */
  method PlaceAtFirstFit(g: array2<Cell>, word: string, draws: seq<Attempt>) returns (placed: bool, at: Attempt)
    requires IsGrid(g)
    requires forall d :: d in draws ==> ValidAttempt(d)
    modifies g
    ensures placed ==> at in draws && WordAt(g, word, at)
    ensures placed ==>
              exists k :: 0 <= k < |draws| && draws[k] == at &&
                forall j :: 0 <= j < k ==> !(Fits(word, draws[j]) && old(NoConflict(g, word, draws[j])))
    ensures placed ==> forall r, c :: InGrid(r, c) && old(g[r, c]) != Empty ==> g[r, c] == old(g[r, c])
    ensures placed ==> forall r, c :: InGrid(r, c) && !OnLine(word, at, r, c) ==> g[r, c] == old(g[r, c])
    ensures !placed ==> forall r, c :: InGrid(r, c) ==> g[r, c] == old(g[r, c])
    ensures !placed ==> forall d :: d in draws ==> !(Fits(word, d) && old(NoConflict(g, word, d)))
  {
    var k := 0;
    placed, at := false, Attempt(Horizontal, 0, 0);
    while k < |draws|
      invariant 0 <= k <= |draws|
      invariant forall r, c :: InGrid(r, c) ==> g[r, c] == old(g[r, c])
      invariant forall j :: 0 <= j < k ==> !(Fits(word, draws[j]) && NoConflict(g, word, draws[j]))
    {
      var ok := CanPlaceWord(g, word, draws[k]);
      if ok {
        assert forall j :: 0 <= j < k ==> !(Fits(word, draws[j]) && old(NoConflict(g, word, draws[j])));
        PlaceWord(g, word, draws[k]);
        return true, draws[k];
      }
      k := k + 1;
    }
  }

  /** The letter drawn for an empty cell: `String.fromCharCode(65 + n)` with n in 0..25. */
  function RandomLetter(n: int): char
    requires 0 <= n < 26
  {
    (65 + n) as char
  }

  predicate ValidPicks(picks: seq<seq<int>>) {
    |picks| == GridSize && forall r :: 0 <= r < GridSize ==>
      |picks[r]| == GridSize && forall c :: 0 <= c < GridSize ==> 0 <= picks[r][c] < 26
  }

  predicate IsCapital(cell: Cell) {
    cell.Letter? && 'A' <= cell.letter <= 'Z'
  }

  /** The fill loop of `generateWordSearch`: every empty cell gets its drawn letter,
      and every cell that held a letter keeps it. */
  method FillEmptyCells(g: array2<Cell>, picks: seq<seq<int>>)
    requires IsGrid(g) && ValidPicks(picks)
    modifies g
    ensures forall r, c :: InGrid(r, c) && old(g[r, c]) != Empty ==> g[r, c] == old(g[r, c])
    ensures forall r, c :: InGrid(r, c) && old(g[r, c]) == Empty ==> g[r, c] == Letter(RandomLetter(picks[r][c]))
    ensures forall r, c :: InGrid(r, c) && old(g[r, c]) == Empty ==> IsCapital(g[r, c])
    ensures forall r, c :: InGrid(r, c) ==> g[r, c] != Empty
  {
    var i := 0;
    while i < GridSize
      invariant 0 <= i <= GridSize
      invariant forall r, c :: InGrid(r, c) && old(g[r, c]) != Empty ==> g[r, c] == old(g[r, c])
      invariant forall r, c :: InGrid(r, c) && r < i && old(g[r, c]) == Empty ==>
                  g[r, c] == Letter(RandomLetter(picks[r][c]))
      invariant forall r, c :: InGrid(r, c) && r >= i ==> g[r, c] == old(g[r, c])
    {
      var j := 0;
      while j < GridSize
        invariant 0 <= j <= GridSize
        invariant forall r, c :: InGrid(r, c) && old(g[r, c]) != Empty ==> g[r, c] == old(g[r, c])
        invariant forall r, c :: InGrid(r, c) && (r < i || (r == i && c < j)) && old(g[r, c]) == Empty ==>
                    g[r, c] == Letter(RandomLetter(picks[r][c]))
        invariant forall r, c :: InGrid(r, c) && (r > i || (r == i && c >= j)) ==> g[r, c] == old(g[r, c])
      {
        if g[i, j] == Empty {
          g[i, j] := Letter(RandomLetter(picks[i][j]));
        }
        j := j + 1;
      }
      i := i + 1;
    }
  }

  /** The grid as the rows the page renders. */
  function Rows(g: array2<Cell>): (rows: seq<seq<Cell>>)
    reads g
    requires IsGrid(g)
    ensures |rows| == GridSize
    ensures forall r :: 0 <= r < GridSize ==> |rows[r]| == GridSize
    ensures forall r, c :: InGrid(r, c) ==> rows[r][c] == g[r, c]
  {
    seq(GridSize, r requires 0 <= r < GridSize reads g => seq(GridSize, c requires 0 <= c < GridSize reads g => g[r, c]))
  }

  /** The word reads out along its line of a grid given as rows. */
  predicate WordReadsOut(rows: seq<seq<Cell>>, word: string, a: Attempt) {
    Fits(word, a) && forall i :: 0 <= i < |word| ==>
      0 <= RowOf(a, i) < |rows| && 0 <= ColOf(a, i) < |rows[RowOf(a, i)]|
      && rows[RowOf(a, i)][ColOf(a, i)] == Letter(word[i])
  }

  /** A grid given as rows is 10 x 10. */
  predicate IsRows(rows: seq<seq<Cell>>) {
    |rows| == GridSize && forall r :: 0 <= r < GridSize ==> |rows[r]| == GridSize
  }

  /** `NoConflict` for a grid given as rows. */
  predicate NoConflictRows(rows: seq<seq<Cell>>, word: string, a: Attempt)
    requires IsRows(rows) && Fits(word, a)
  {
    forall i :: 0 <= i < |word| ==>
      rows[RowOf(a, i)][ColOf(a, i)] == Empty || rows[RowOf(a, i)][ColOf(a, i)] == Letter(word[i])
  }

  /** The grid holds exactly the first |placements| wellness words at their placements:
      each of them reads out, and every letter lies on one of their lines. */
  ghost predicate HoldsPlacedWords(rows: seq<seq<Cell>>, placements: seq<Attempt>) {
    && IsRows(rows)
    && |placements| <= |WellnessWords|
    && (forall k :: 0 <= k < |placements| ==> WordReadsOut(rows, WellnessWords[k], placements[k]))
    && forall r, c :: InGrid(r, c) && rows[r][c] != Empty ==>
         exists k :: 0 <= k < |placements| && OnLine(WellnessWords[k], placements[k], r, c)
  }

  /** Placing stopped at the next wellness word: none of the draws for it passes
      `canPlaceWord` on the grid holding the words placed so far. */
  predicate StuckAt(rows: seq<seq<Cell>>, placements: seq<Attempt>, draws: seq<seq<Attempt>>) {
    && IsRows(rows)
    && |placements| < |WellnessWords| && |placements| < |draws|
    && forall d :: d in draws[|placements|] ==>
         !(Fits(WellnessWords[|placements|], d) && NoConflictRows(rows, WellnessWords[|placements|], d))
  }

  /** The fill loop's result: every letter of `placed` kept, every empty cell given
      its drawn capital letter. */
  ghost predicate FilledFrom(rows: seq<seq<Cell>>, placed: seq<seq<Cell>>, picks: seq<seq<int>>)
    requires IsRows(rows) && IsRows(placed) && ValidPicks(picks)
  {
    forall r, c :: InGrid(r, c) ==>
      rows[r][c] == if placed[r][c] == Empty then Letter(RandomLetter(picks[r][c])) else placed[r][c]
  }

  /** The placing loop of `generateWordSearch` on an empty grid: `draws[k]` are the
      draws tried for the k-th word. Each word placed reads out along its line, every
      letter lies on the line of a placed word, and when not every word was placed, the
      next word fits at none of its draws. */
  method PlaceWords(g: array2<Cell>, draws: seq<seq<Attempt>>) returns (placements: seq<Attempt>, allPlaced: bool)
    requires IsGrid(g) && forall r, c :: InGrid(r, c) ==> g[r, c] == Empty
    requires |draws| == |WellnessWords|
    requires forall k, d :: 0 <= k < |draws| && d in draws[k] ==> ValidAttempt(d)
    modifies g
    ensures allPlaced <==> |placements| == |WellnessWords|
    ensures |placements| <= |WellnessWords|
    ensures forall k :: 0 <= k < |placements| ==> placements[k] in draws[k] && WordAt(g, WellnessWords[k], placements[k])
    ensures forall r, c :: InGrid(r, c) ==> g[r, c] == Empty || IsCapital(g[r, c])
    ensures forall r, c :: InGrid(r, c) && g[r, c] != Empty ==>
              exists j :: 0 <= j < |placements| && OnLine(WellnessWords[j], placements[j], r, c)
    ensures !allPlaced ==>
              forall d :: d in draws[|placements|] ==>
                !(Fits(WellnessWords[|placements|], d) && NoConflict(g, WellnessWords[|placements|], d))
  {
    placements := [];
    allPlaced := true;
    var k := 0;
    while k < |WellnessWords| && allPlaced
      invariant 0 <= k <= |WellnessWords| && |placements| == k
      invariant !allPlaced ==> k < |WellnessWords|
      decreases |WellnessWords| - k, allPlaced
      invariant forall j :: 0 <= j < k ==> placements[j] in draws[j] && WordAt(g, WellnessWords[j], placements[j])
      invariant forall r, c :: InGrid(r, c) ==> g[r, c] == Empty || IsCapital(g[r, c])
      invariant forall r, c :: InGrid(r, c) && g[r, c] != Empty ==>
                  exists j :: 0 <= j < k && OnLine(WellnessWords[j], placements[j], r, c)
      invariant !allPlaced ==>
                  forall d :: d in draws[k] ==> !(Fits(WellnessWords[k], d) && NoConflict(g, WellnessWords[k], d))
    {
      var word := WellnessWords[k];
      assert forall i :: 0 <= i < |word| ==> 'A' <= word[i] <= 'Z';
      var ok, at := PlaceAtFirstFit(g, word, draws[k]);
      if ok {
        forall r, c | InGrid(r, c) && OnLine(word, at, r, c) ensures IsCapital(g[r, c]) {
          var i := if at.dir == Horizontal then c - at.col else r - at.row;
          assert RowOf(at, i) == r && ColOf(at, i) == c;
        }
        forall j | 0 <= j < k ensures WordAt(g, WellnessWords[j], placements[j]) {
          var w, p := WellnessWords[j], placements[j];
          forall i | 0 <= i < |w| ensures g[RowOf(p, i), ColOf(p, i)] == Letter(w[i]) {
            assert InGrid(RowOf(p, i), ColOf(p, i));
          }
        }
        var grown := placements + [at];
        forall r, c | InGrid(r, c) && g[r, c] != Empty
          ensures exists j :: 0 <= j < k + 1 && OnLine(WellnessWords[j], grown[j], r, c)
        {
          if OnLine(word, at, r, c) {
            assert OnLine(WellnessWords[k], grown[k], r, c);
          } else {
            var j :| 0 <= j < k && OnLine(WellnessWords[j], placements[j], r, c);
            assert grown[j] == placements[j];
          }
        }
        placements := grown;
        k := k + 1;
      } else {
        allPlaced := false;
      }
    }
  }

  /** `generateWordSearch` with its random draws as parameters: `draws[k]` are the
      draws tried for the k-th word. `placed` is the grid as it stood before the fill
      loop: it holds exactly the words placed, and when not every word was placed, the
      next word fitted at none of its draws. The finished grid is that grid with every
      empty cell filled by its drawn capital letter. */
  method GenerateWordSearch(draws: seq<seq<Attempt>>, picks: seq<seq<int>>)
    returns (g: array2<Cell>, placements: seq<Attempt>, allPlaced: bool, ghost placed: seq<seq<Cell>>)
    requires |draws| == |WellnessWords|
    requires forall k, d :: 0 <= k < |draws| && d in draws[k] ==> ValidAttempt(d)
    requires ValidPicks(picks)
    ensures fresh(g) && IsGrid(g)
    ensures forall r, c :: InGrid(r, c) ==> IsCapital(g[r, c])
    ensures allPlaced <==> |placements| == |WellnessWords|
    ensures |placements| <= |WellnessWords|
    ensures forall k :: 0 <= k < |placements| ==> placements[k] in draws[k] && WordAt(g, WellnessWords[k], placements[k])
    ensures HoldsPlacedWords(placed, placements)
    ensures !allPlaced ==> StuckAt(placed, placements, draws)
    ensures FilledFrom(Rows(g), placed, picks)
  {
    g := new Cell[GridSize, GridSize]((r, c) => Empty);
    placements, allPlaced := PlaceWords(g, draws);
    placed := Rows(g);
    forall j | 0 <= j < |placements| ensures WordReadsOut(placed, WellnessWords[j], placements[j]) {
      var w, p := WellnessWords[j], placements[j];
      forall i | 0 <= i < |w| ensures placed[RowOf(p, i)][ColOf(p, i)] == Letter(w[i]) {
        assert InGrid(RowOf(p, i), ColOf(p, i));
      }
    }
    if !allPlaced {
      var k := |placements|;
      forall d | d in draws[k] && Fits(WellnessWords[k], d)
        ensures NoConflictRows(placed, WellnessWords[k], d) == NoConflict(g, WellnessWords[k], d)
      {
      }
    }
    FillEmptyCells(g, picks);
    forall j | 0 <= j < |placements| ensures WordAt(g, WellnessWords[j], placements[j]) {
      var w, p := WellnessWords[j], placements[j];
      forall i | 0 <= i < |w| ensures g[RowOf(p, i), ColOf(p, i)] == Letter(w[i]) {
        assert InGrid(RowOf(p, i), ColOf(p, i));
      }
    }
  }
}
