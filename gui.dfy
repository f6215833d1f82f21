/**
 * The state logic behind the graphical front end: the crop boxes that cut a
 * challenge image into tiles, the immutable dynamic and multicaptcha
 * states with their reducer, and the predicates the dialog shows.
 */
module Gui {
  import opened Wrappers
  import opened Json
  import opened Errors
  import opened Types
  import opened GoalFormat

  /** Python's `a // b`: the quotient rounded toward negative infinity. */
  function FloorDiv(a: int, b: int): (q: int)
    requires b != 0
    ensures b > 0 ==> b * q <= a < b * q + b
  {
    if b > 0 then a / b else (-a) / (-b)
  }

  /** The crop box of the tile in row `row` and column `column`. */
  function TileBox(row: int, column: int, tileWidth: int, tileHeight: int): Box {
    Box(tileWidth * column, tileHeight * row, tileWidth * column + tileWidth, tileHeight * row + tileHeight)
  }

  /** The inner loop of `tiles_from_image`: the first `columns` tiles of one row. */
  function RowTiles(image: Image, row: int, columns: int, tileWidth: int, tileHeight: int): seq<Image>
    decreases columns
  {
    if columns <= 0 then []
    else RowTiles(image, row, columns - 1, tileWidth, tileHeight) + [Crop(image, TileBox(row, columns - 1, tileWidth, tileHeight))]
  }

  /** The outer loop of `tiles_from_image`: the tiles of the first `rows` rows. */
  function GridTiles(image: Image, rows: int, columns: int, tileWidth: int, tileHeight: int): seq<Image>
    decreases rows
  {
    if rows <= 0 then []
    else GridTiles(image, rows - 1, columns, tileWidth, tileHeight) + RowTiles(image, rows - 1, columns, tileWidth, tileHeight)
  }

  /**
   * `list(tiles_from_image(image, dimensions))`: the tiles in row-major
   * order; a zero dimension divides by zero.
   */
  function TilesFromImage(image: Image, dimensions: GridDimensions): (r: Result<seq<Image>, Error>)
    ensures dimensions.rows == 0 || dimensions.columns == 0 <==> r == Failure(ZeroDivision)
  {
    if dimensions.columns == 0 || dimensions.rows == 0 then Failure(ZeroDivision)
    else
      var tileWidth := FloorDiv(image.Width(), dimensions.columns);
      var tileHeight := FloorDiv(image.Height(), dimensions.rows);
      Success(GridTiles(image, dimensions.rows, dimensions.columns, tileWidth, tileHeight))
  }

  /** A negative dimension gives no tiles: `range` over it is empty. */
  lemma TilesNegative(image: Image, dimensions: GridDimensions)
    requires dimensions.rows < 0 || dimensions.columns < 0
    requires dimensions.rows != 0 && dimensions.columns != 0
    ensures TilesFromImage(image, dimensions) == Success([])
  {
    var tileWidth := FloorDiv(image.Width(), dimensions.columns);
    var tileHeight := FloorDiv(image.Height(), dimensions.rows);
    if dimensions.rows > 0 {
      NoColumns(image, dimensions.rows, dimensions.columns, tileWidth, tileHeight);
    }
  }

  lemma {:induction false} NoColumns(image: Image, rows: int, columns: int, tileWidth: int, tileHeight: int)
    requires columns <= 0
    ensures GridTiles(image, rows, columns, tileWidth, tileHeight) == []
    decreases rows
  {
    if rows > 0 {
      NoColumns(image, rows - 1, columns, tileWidth, tileHeight);
    }
  }

  lemma {:induction false} RowTilesShape(image: Image, row: int, columns: nat, tileWidth: int, tileHeight: int)
    ensures |RowTiles(image, row, columns, tileWidth, tileHeight)| == columns
    ensures forall c :: 0 <= c < columns ==>
      RowTiles(image, row, columns, tileWidth, tileHeight)[c] == Crop(image, TileBox(row, c, tileWidth, tileHeight))
    decreases columns
  {
    if columns > 0 {
      RowTilesShape(image, row, columns - 1, tileWidth, tileHeight);
    }
  }

  /** Position `k` of a row-major grid lies in row `k / columns`, column `k % columns`. */
  lemma RowMajor(k: int, row: int, columns: int)
    requires columns > 0 && row * columns <= k < row * columns + columns
    ensures k / columns == row && k % columns == k - row * columns
  {
    var q := k / columns;
    assert q * columns <= k < q * columns + columns;
    Between(q, row, columns);
  }

  /** Two multiples of `columns` that are less than `columns` apart are equal. */
  lemma Between(q: int, row: int, columns: int)
    requires columns > 0
    requires q * columns - columns < row * columns < q * columns + columns
    ensures q == row
  {
    var d := q - row;
    assert d * columns == q * columns - row * columns;
    assert (-d) * columns == -(d * columns);
    AtLeastOnce(d, columns);
    AtLeastOnce(-d, columns);
  }

  /** A positive multiple of `c` is at least `c`. */
  lemma {:induction false} AtLeastOnce(a: int, c: int)
    requires c > 0
    ensures a >= 1 ==> a * c >= c
    decreases if a > 0 then a else 0
  {
    if a > 1 {
      AtLeastOnce(a - 1, c);
      assert a * c == (a - 1) * c + c;
    }
  }

  lemma {:induction false} GridTilesShape(image: Image, rows: nat, columns: nat, tileWidth: int, tileHeight: int)
    requires columns > 0
    ensures |GridTiles(image, rows, columns, tileWidth, tileHeight)| == rows * columns
    ensures forall k :: 0 <= k < rows * columns ==>
      GridTiles(image, rows, columns, tileWidth, tileHeight)[k]
        == Crop(image, TileBox(k / columns, k % columns, tileWidth, tileHeight))
    decreases rows
  {
    if rows > 0 {
      GridTilesShape(image, rows - 1, columns, tileWidth, tileHeight);
      RowTilesShape(image, rows - 1, columns, tileWidth, tileHeight);
      var before := GridTiles(image, rows - 1, columns, tileWidth, tileHeight);
      var row := RowTiles(image, rows - 1, columns, tileWidth, tileHeight);
      assert |before| == (rows - 1) * columns == rows * columns - columns;
      forall k | 0 <= k < rows * columns
        ensures (before + row)[k] == Crop(image, TileBox(k / columns, k % columns, tileWidth, tileHeight))
      {
        if k >= |before| {
          RowMajor(k, rows - 1, columns);
          assert (before + row)[k] == row[k - |before|];
        }
      }
    }
  }

  /**
   * For positive dimensions there are `rows * columns` tiles, and tile `k`
   * is the box of row `k // columns` and column `k % columns`, which lies
   * inside the image.
   */
  lemma TilesLayout(image: Image, dimensions: GridDimensions, k: int)
    requires dimensions.rows > 0 && dimensions.columns > 0 && image.Width() >= 0 && image.Height() >= 0
    requires 0 <= k < dimensions.Count()
    ensures TilesFromImage(image, dimensions).Success?
    ensures |TilesFromImage(image, dimensions).value| == dimensions.Count()
    ensures var tileWidth, tileHeight := image.Width() / dimensions.columns, image.Height() / dimensions.rows;
      TilesFromImage(image, dimensions).value[k]
        == Crop(image, TileBox(k / dimensions.columns, k % dimensions.columns, tileWidth, tileHeight))
    ensures var box := TilesFromImage(image, dimensions).value[k].box;
      0 <= box.left <= box.right <= image.Width() && 0 <= box.top <= box.bottom <= image.Height()
  {
    var rows, columns := dimensions.rows, dimensions.columns;
    GridTilesShape(image, rows, columns, image.Width() / columns, image.Height() / rows);
    RowBound(k, rows, columns);
    TileBoxWithin(image, dimensions, k / columns, k % columns);
  }

  /** Position `k` of `rows * columns` lies in one of the rows. */
  lemma RowBound(k: int, rows: int, columns: int)
    requires columns > 0 && 0 <= k < rows * columns
    ensures 0 <= k / columns < rows
  {
    var q := k / columns;
    assert q * columns <= k;
    assert (q - rows) * columns < 0;
  }

  /** The box of a tile in the grid lies inside the image. */
  lemma TileBoxWithin(image: Image, dimensions: GridDimensions, row: int, column: int)
    requires 0 <= row < dimensions.rows && 0 <= column < dimensions.columns
    requires image.Width() >= 0 && image.Height() >= 0
    ensures var box := TileBox(row, column, image.Width() / dimensions.columns, image.Height() / dimensions.rows);
      0 <= box.left <= box.right <= image.Width() && 0 <= box.top <= box.bottom <= image.Height()
  {
    Within(column, dimensions.columns, image.Width() / dimensions.columns, image.Width());
    Within(row, dimensions.rows, image.Height() / dimensions.rows, image.Height());
  }

  /** Tile `i` of `n` equal tiles of size `size / n` fits in `size`. */
  lemma Within(i: int, n: int, tile: int, size: int)
    requires 0 <= i < n && size >= 0 && tile == size / n
    ensures 0 <= tile * i <= tile * i + tile <= size
  {
    assert tile >= 0;
    assert tile * i + tile == tile * (i + 1);
    assert tile * (i + 1) <= tile * n;
    assert tile * n <= size;
  }

  /** The number of tiles still waiting for their replacement image. */
  function Missing(images: seq<Option<Image>>): nat
    decreases |images|
  {
    if images == [] then 0
    else Missing(images[..|images| - 1]) + (if images[|images| - 1].None? then 1 else 0)
  }

  lemma {:induction false} MissingUpdate(images: seq<Option<Image>>, i: nat, image: Option<Image>)
    requires i < |images|
    ensures Missing(images[i := image]) + (if images[i].None? then 1 else 0)
         == Missing(images) + (if image.None? then 1 else 0)
    decreases |images|
  {
    var last := |images| - 1;
    var after := images[i := image];
    assert after[..last] == if i < last then images[..last][i := image] else images[..last];
    if i < last {
      MissingUpdate(images[..last], i, image);
    }
  }

  /** No tile waits exactly when the count of waiting tiles is zero. */
  lemma {:induction false} MissingZero(images: seq<Option<Image>>)
    ensures Missing(images) == 0 <==> forall i :: 0 <= i < |images| ==> images[i].Some?
    decreases |images|
  {
    if images != [] {
      var last := |images| - 1;
      MissingZero(images[..last]);
      assert forall i :: 0 <= i < last ==> images[..last][i] == images[i];
    }
  }

  function Present(tiles: seq<Image>): (r: seq<Option<Image>>)
    ensures |r| == |tiles| && forall i :: 0 <= i < |tiles| ==> r[i] == Some(tiles[i])
  {
    seq(|tiles|, i requires 0 <= i < |tiles| => Some(tiles[i]))
  }

  /** `DynamicState`: the challenge, each tile's image (None while a replacement loads), and the count of waiting tiles. */
  datatype DynamicState = DynamicState(challenge: ImageGridChallenge, tileImages: seq<Option<Image>>, numWaiting: int)
  {
    /** `num_waiting` counts the tiles without an image. */
    predicate Consistent() {
      numWaiting == Missing(tileImages)
    }

    /**
     * `replace_tile(index, image)`: only the tile at `index` changes, and the
     * waiting count follows whether it gained or lost its image.
     */
    function ReplaceTile(index: int, image: Option<Image>): (r: Result<DynamicState, Error>)
      ensures r.Success? <==> PyIndex(index, |tileImages|).Some?
      ensures r.Failure? ==> r.error == ShapeError
      ensures r.Success? ==>
        r.value.challenge == challenge && r.value.tileImages == tileImages[PyIndex(index, |tileImages|).value := image]
      ensures r.Success? && Consistent() ==> r.value.Consistent()
    {
      match PyIndex(index, |tileImages|)
      case None => Failure(ShapeError)
      case Some(i) =>
        var old_ := tileImages[i];
        var waiting := if old_.None? != image.None? then numWaiting + (if image.None? then 1 else -1) else numWaiting;
        MissingUpdate(tileImages, i, image);
        Success(DynamicState(challenge, tileImages[i := image], waiting))
    }

    /** `reduce`: only `ReplaceTile` changes a dynamic state. */
    function Reduce(msg: Msg): (r: Result<DynamicState, Error>)
      ensures !msg.ReplaceTileMsg? ==> r == Success(this)
      ensures msg.ReplaceTileMsg? ==> r == ReplaceTile(msg.index, msg.image)
    {
      if msg.ReplaceTileMsg? then ReplaceTile(msg.index, msg.image) else Success(this)
    }
  }

  /** `DynamicState.from_new_solver`, from the challenge `get_challenge` returned: every tile shown, none waiting. */
  function DynamicFromChallenge(challenge: ImageGridChallenge): (r: Result<DynamicState, Error>)
    ensures r.Success? ==> r.value.Consistent() && r.value.numWaiting == 0 && r.value.challenge == challenge
    ensures r.Success? <==> TilesFromImage(challenge.image, challenge.dimensions).Success?
  {
    match TilesFromImage(challenge.image, challenge.dimensions)
    case Failure(e) => Failure(e)
    case Success(tiles) =>
      MissingZero(Present(tiles));
      Success(DynamicState(challenge, Present(tiles), 0))
  }

  /** `MultiCaptchaState`: the challenge, its tiles, and which tiles are selected. */
  datatype MultiCaptchaState = MultiCaptchaState(challenge: ImageGridChallenge, tileImages: seq<Image>, selected: seq<bool>)
  {
    /** `toggle_tile(index)`: flips the one selection at `index`. */
    function ToggleTile(index: int): (r: Result<MultiCaptchaState, Error>)
      ensures r.Success? <==> PyIndex(index, |selected|).Some?
      ensures r.Failure? ==> r.error == ShapeError
      ensures r.Success? ==>
        var i := PyIndex(index, |selected|).value;
        r.value.challenge == challenge && r.value.tileImages == tileImages
        && |r.value.selected| == |selected| && r.value.selected[i] == !selected[i]
        && forall j :: 0 <= j < |selected| && j != i ==> r.value.selected[j] == selected[j]
    {
      match PyIndex(index, |selected|)
      case None => Failure(ShapeError)
      case Some(i) => Success(MultiCaptchaState(challenge, tileImages, selected[i := !selected[i]]))
    }

    /** `indices`: the selected positions. */
    function Indices(): seq<int> {
      TrueIndices(selected)
    }

    /** `any_selected`. */
    predicate AnySelected() {
      true in selected
    }

    /** `reduce`: a click toggles its tile, a new challenge starts afresh, all else is ignored. */
    function Reduce(msg: Msg): (r: Result<MultiCaptchaState, Error>)
      ensures msg.SelectTileMsg? ==> r == ToggleTile(msg.index)
      ensures msg.SetNextChallenge? ==> r == MultiFromChallenge(msg.challenge)
      ensures !msg.SelectTileMsg? && !msg.SetNextChallenge? ==> r == Success(this)
    {
      match msg
      case SelectTileMsg(index) => ToggleTile(index)
      case SetNextChallenge(challenge) => MultiFromChallenge(challenge)
      case _ => Success(this)
    }
  }

  /** `[False] * n`, which is empty for a negative `n`. */
  function NoneSelected(n: int): (r: seq<bool>)
    ensures |r| == (if n > 0 then n else 0) && true !in r
  {
    seq(if n > 0 then n else 0, _ => false)
  }

  /** `MultiCaptchaState.from_challenge`: the tiles of the new image, nothing selected. */
  function MultiFromChallenge(challenge: ImageGridChallenge): (r: Result<MultiCaptchaState, Error>)
    ensures r.Success? <==> TilesFromImage(challenge.image, challenge.dimensions).Success?
    ensures r.Success? ==>
      r.value.challenge == challenge && !r.value.AnySelected()
      && |r.value.selected| == (if challenge.dimensions.Count() > 0 then challenge.dimensions.Count() else 0)
  {
    match TilesFromImage(challenge.image, challenge.dimensions)
    case Failure(e) => Failure(e)
    case Success(tiles) => Success(MultiCaptchaState(challenge, tiles, NoneSelected(challenge.dimensions.Count())))
  }

  /** The positions holding `true`, in increasing order. */
  function TrueIndices(s: seq<bool>): (r: seq<int>)
    decreases |s|
  {
    if s == [] then []
    else TrueIndices(s[..|s| - 1]) + (if s[|s| - 1] then [|s| - 1] else [])
  }

  /** `indices` lists exactly the selected positions, in strictly increasing order. */
  lemma {:induction false} TrueIndicesMeaning(s: seq<bool>)
    ensures forall k :: k in TrueIndices(s) <==> 0 <= k < |s| && s[k]
    ensures forall a, b :: 0 <= a < b < |TrueIndices(s)| ==> TrueIndices(s)[a] < TrueIndices(s)[b]
    decreases |s|
  {
    if s != [] {
      var init := s[..|s| - 1];
      TrueIndicesMeaning(init);
      assert forall k :: 0 <= k < |init| ==> init[k] == s[k];
      var r := TrueIndices(s);
      forall a, b | 0 <= a < b < |r|
        ensures r[a] < r[b]
      {
        if b >= |TrueIndices(init)| {
          assert r[b] == |s| - 1;
          assert r[a] in TrueIndices(init);
        }
      }
    }
  }

  /** Something is selected exactly when `indices` is non-empty. */
  lemma AnySelectedIndices(m: MultiCaptchaState)
    ensures m.AnySelected() <==> m.Indices() != []
  {
    TrueIndicesMeaning(m.selected);
    if m.AnySelected() {
      var k :| 0 <= k < |m.selected| && m.selected[k];
      assert k in m.Indices();
    }
    if m.Indices() != [] {
      assert m.Indices()[0] in m.Indices();
    }
  }

  /** Toggling a tile twice gives back the state. */
  lemma ToggleTwice(m: MultiCaptchaState, index: int)
    requires m.ToggleTile(index).Success?
    ensures m.ToggleTile(index).value.ToggleTile(index) == Success(m)
  {
    var i := PyIndex(index, |m.selected|).value;
    assert m.selected[i := !m.selected[i]][i := m.selected[i]] == m.selected;
  }

  /** The messages the front end dispatches. */
  datatype Msg =
    | Start
    | FinishChallenge
    | SelectTileMsg(index: int)
    | ReplaceTileMsg(index: int, image: Option<Image>)
    | SetState(state: State)
    | SetNextChallenge(challenge: ImageGridChallenge)

  /** `State`: nothing yet, the final token, or a solver state. */
  datatype State = NoState | TokenState(token: string) | Dynamic(dynamic: DynamicState) | Multi(multi: MultiCaptchaState)

  /** `reduce_state`: `SetState` replaces any state; solver states reduce the message; the rest stay. */
  function ReduceState(state: State, msg: Msg): (r: Result<State, Error>)
    ensures msg.SetState? ==> r == Success(msg.state)
    ensures !msg.SetState? && (state.NoState? || state.TokenState?) ==> r == Success(state)
    ensures !msg.SetState? && state.Dynamic? && !msg.ReplaceTileMsg? ==> r == Success(state)
    ensures !msg.SetState? && state.Dynamic? && r.Success? ==> r.value.Dynamic?
    ensures !msg.SetState? && state.Multi? && r.Success? ==> r.value.Multi?
  {
    if msg.SetState? then Success(msg.state)
    else
      match state
      case Dynamic(d) =>
        (match d.Reduce(msg)
         case Failure(e) => Failure(e)
         case Success(next) => Success(Dynamic(next)))
      case Multi(m) =>
        (match m.Reduce(msg)
         case Failure(e) => Failure(e)
         case Success(next) => Success(Multi(next)))
      case _ => Success(state)
  }

  /** A state whose waiting count is right, if it is a dynamic one. */
  predicate StateConsistent(s: State) {
    s.Dynamic? ==> s.dynamic.Consistent()
  }

  /** A message that installs only a consistent state. */
  predicate MsgConsistent(msg: Msg) {
    msg.SetState? ==> StateConsistent(msg.state)
  }

  /** `reduce` keeps the waiting count right. */
  lemma ReduceConsistent(state: State, msg: Msg)
    requires StateConsistent(state) && MsgConsistent(msg)
    ensures ReduceState(state, msg).Success? ==> StateConsistent(ReduceState(state, msg).value)
  {
  }

  /** The state after a run of messages, stopping at the first that fails. */
  function Run(state: State, msgs: seq<Msg>): Result<State, Error>
    decreases |msgs|
  {
    if msgs == [] then Success(state)
    else
      match ReduceState(state, msgs[0])
      case Failure(e) => Failure(e)
      case Success(next) => Run(next, msgs[1..])
  }

  /**
   * From a start where the count is right (such as `from_new_solver`), and
   * with messages installing only such states, `num_waiting` is always the
   * number of tiles without an image.
   */
  lemma {:induction false} RunConsistent(state: State, msgs: seq<Msg>)
    requires StateConsistent(state) && forall i :: 0 <= i < |msgs| ==> MsgConsistent(msgs[i])
    ensures Run(state, msgs).Success? ==> StateConsistent(Run(state, msgs).value)
    decreases |msgs|
  {
    if msgs != [] {
      ReduceConsistent(state, msgs[0]);
      if ReduceState(state, msgs[0]).Success? {
        var next := ReduceState(state, msgs[0]).value;
        assert forall i :: 0 <= i < |msgs[1..]| ==> MsgConsistent(msgs[1..][i]) by {
          forall i | 0 <= i < |msgs[1..]| ensures MsgConsistent(msgs[1..][i]) {
            assert msgs[1..][i] == msgs[i + 1];
          }
        }
        RunConsistent(next, msgs[1..]);
      }
    }
  }

  /** What the dialog shows for a solver state. */
  datatype Pres = DynamicPres(dynamic: DynamicState) | MultiCaptchaPres(multi: MultiCaptchaState)
  {
    /** `verify_label`: "Sk_ip" only for a multicaptcha with nothing selected. */
    function VerifyLabel(): (r: string)
      ensures r == "Sk_ip" <==> MultiCaptchaPres? && !multi.AnySelected()
    {
      match this
      case DynamicPres(_) => "Ver_ify"
      case MultiCaptchaPres(m) => if m.AnySelected() then "Ver_ify" else "Sk_ip"
    }

    /** `is_verify_enabled`: a dynamic challenge waits for every replacement. */
    predicate IsVerifyEnabled() {
      match this
      case DynamicPres(d) => d.numWaiting <= 0
      case MultiCaptchaPres(_) => true
    }

    /** The note under the goal: dimmed for a multicaptcha once something is selected. */
    function Note(): string {
      match this
      case DynamicPres(_) => "Click verify once there are none left."
      case MultiCaptchaPres(m) =>
        if m.AnySelected() then "<span alpha=\"30%\">If there are none, click skip.</span>"
        else "If there are none, click skip."
    }

    /** `goal`: the formatted goal followed by the note. */
    function Goal(dumps: Json -> string): (r: string)
      ensures |r| == |FormatGoal(Challenge().goal, dumps)| + 1 + |Note()|
      ensures r[..|FormatGoal(Challenge().goal, dumps)|] == FormatGoal(Challenge().goal, dumps)
      ensures r[|FormatGoal(Challenge().goal, dumps)| + 1..] == Note()
    {
      FormatGoalWithNote(Challenge().goal, dumps, Note())
    }

    function Challenge(): ImageGridChallenge {
      match this
      case DynamicPres(d) => d.challenge
      case MultiCaptchaPres(m) => m.challenge
    }
  }

  /** `pres(state)`: solver states have a presentation, the others none. */
  function PresOf(state: State): (r: Option<Pres>)
    ensures r.Some? <==> state.Dynamic? || state.Multi?
  {
    match state
    case Dynamic(d) => Some(DynamicPres(d))
    case Multi(m) => Some(MultiCaptchaPres(m))
    case _ => None
  }

  /** `Gui.token`: the token once the state holds one. */
  function Token(state: State): (r: Option<string>)
    ensures r.Some? <==> state.TokenState?
  {
    if state.TokenState? then Some(state.token) else None
  }

  /** `dispatch_dynamic` on `FinishChallenge`: the solution is sent only when no tile is waiting. */
  predicate FinishSubmits(d: DynamicState) {
    d.numWaiting <= 0
  }

  /**
   * The finish gate agrees with the verify button, and for a consistent
   * state both mean that every tile has its image.
   */
  lemma FinishGate(d: DynamicState)
    ensures FinishSubmits(d) <==> DynamicPres(d).IsVerifyEnabled()
    ensures d.Consistent() ==> (FinishSubmits(d) <==> forall i :: 0 <= i < |d.tileImages| ==> d.tileImages[i].Some?)
  {
    MissingZero(d.tileImages);
  }

  /**
   * `dynamic_select_tile` first blanks the tile; on a consistent state, at
   * least one tile is then waiting, so the "num_waiting should be greater
   * than 0" check passes.  Whatever messages follow (`msgs`, each installing
   * only consistent states), verify stays disabled in the dynamic state they
   * lead to for as long as that tile still has no image.
   */
  lemma SelectTileWaits(d: DynamicState, index: int, msgs: seq<Msg>)
    requires d.Consistent() && d.ReplaceTile(index, None).Success?
    ensures d.ReplaceTile(index, None).value.numWaiting > 0
    ensures var i := PyIndex(index, |d.tileImages|).value;
            var run := Run(Dynamic(d.ReplaceTile(index, None).value), msgs);
            (forall k :: 0 <= k < |msgs| ==> MsgConsistent(msgs[k]))
            && run.Success? && run.value.Dynamic?
            && i < |run.value.dynamic.tileImages| && run.value.dynamic.tileImages[i].None?
            ==> !DynamicPres(run.value.dynamic).IsVerifyEnabled()
  {
    var i := PyIndex(index, |d.tileImages|).value;
    var after := d.ReplaceTile(index, None).value;
    assert after.tileImages[i].None?;
    MissingZero(after.tileImages);
    var run := Run(Dynamic(after), msgs);
    if (forall k :: 0 <= k < |msgs| ==> MsgConsistent(msgs[k])) && run.Success? && run.value.Dynamic? {
      RunConsistent(Dynamic(after), msgs);
      MissingZero(run.value.dynamic.tileImages);
    }
  }
}
