/**
 * The profile's post grid (components/profile/PostGrid.tsx): square tiles in
 * `numColumns` columns, with `spacing` between neighbours in a row and none
 * after the last tile of a row. Lengths are reals.
 */
module PostGrid {
  import opened Optional

  const DefaultSpacing: real := 2.0
  const DefaultColumns: int := 2

  /** FlatList lays out at least one column. */
  type Columns = n: int | n >= 1 witness 1

  datatype GridProps = GridProps(spacing: real, numColumns: Columns)

  /** The component's props after the destructuring defaults apply. */
  function ResolveProps(spacing: Option<real>, numColumns: Option<Columns>): (p: GridProps)
    ensures spacing == None ==> p.spacing == DefaultSpacing
    ensures numColumns == None ==> p.numColumns == DefaultColumns
    ensures spacing.Some? ==> p.spacing == spacing.value
    ensures numColumns.Some? ==> p.numColumns == numColumns.value
  {
    GridProps(if spacing.Some? then spacing.value else DefaultSpacing,
              if numColumns.Some? then numColumns.value else DefaultColumns)
  }

  /** POST_WIDTH: the tile side that makes a full row exactly as wide as the window. */
  function PostWidth(width: real, p: GridProps): (w: real)
    ensures (p.numColumns as real) * w + p.spacing * ((p.numColumns - 1) as real) == width
  {
    (width - (p.spacing * ((p.numColumns - 1) as real))) / (p.numColumns as real)
  }

  /**
   * isLastInRow: with one column every post ends its row, and no post before
   * the first full row does.
   */
  predicate IsLastInRow(index: nat, numColumns: Columns)
    ensures numColumns == 1 ==> IsLastInRow(index, numColumns)
    ensures index + 1 < numColumns ==> !IsLastInRow(index, numColumns)
  {
    (index + 1) % numColumns == 0
  }

  /** A positive multiple of a column count is at least that count. */
  lemma MultipleAtLeast(k: int, numColumns: Columns)
    requires k >= 1
    ensures k * numColumns >= numColumns
  {
    if k > 1 {
      MultipleAtLeast(k - 1, numColumns);
      assert k * numColumns == (k - 1) * numColumns + numColumns;
    }
  }

  /** Division by a column count is determined by quotient and remainder. */
  lemma DivModUnique(index: int, numColumns: Columns, q: int, r: int)
    requires 0 <= r < numColumns && index == q * numColumns + r
    ensures index / numColumns == q && index % numColumns == r
  {
    var q', r' := index / numColumns, index % numColumns;
    assert index == q' * numColumns + r' && 0 <= r' < numColumns;
    var d := q - q';
    assert d * numColumns == r' - r by {
      assert q * numColumns - q' * numColumns == d * numColumns;
    }
    if d >= 1 {
      MultipleAtLeast(d, numColumns);
      assert false;
    } else if d <= -1 {
      MultipleAtLeast(-d, numColumns);
      assert false;
    }
  }

  /** The last tile of a row is the one in the last column. */
  lemma LastInRowIsLastColumn(index: nat, numColumns: Columns)
    ensures IsLastInRow(index, numColumns) <==> index % numColumns == numColumns - 1
  {
    var q, r := index / numColumns, index % numColumns;
    assert index == q * numColumns + r;
    if r == numColumns - 1 {
      DivModUnique(index + 1, numColumns, q + 1, 0);
    } else {
      DivModUnique(index + 1, numColumns, q, r + 1);
    }
  }

  /** The style of one tile. */
  datatype TileStyle = TileStyle(width: real, height: real, marginRight: real)

  /** The style of the tile at `index`. */
  function Tile(index: nat, width: real, p: GridProps): (t: TileStyle)
    ensures t.width == t.height == PostWidth(width, p)
    ensures IsLastInRow(index, p.numColumns) ==> t.marginRight == 0.0
    ensures !IsLastInRow(index, p.numColumns) ==> t.marginRight == p.spacing
  {
    var postWidth := PostWidth(width, p);
    TileStyle(postWidth, postWidth, if IsLastInRow(index, p.numColumns) then 0.0 else p.spacing)
  }

  /** In row `row`, the tile in column `column` is last exactly when it is the last column. */
  lemma LastInFullRow(row: nat, column: nat, numColumns: Columns)
    requires column < numColumns
    ensures IsLastInRow(row * numColumns + column, numColumns) <==> column == numColumns - 1
  {
    var index := row * numColumns + column;
    DivModUnique(index, numColumns, row, column);
    LastInRowIsLastColumn(index, numColumns);
  }

  /** The horizontal room taken by the first `count` tiles of row `row`, margins included. */
  function RowExtent(row: nat, count: nat, width: real, p: GridProps): real
  {
    if count == 0 then 0.0
    else
      var t := Tile(row * p.numColumns + count - 1, width, p);
      RowExtent(row, count - 1, width, p) + t.width + t.marginRight
  }

  /** Before the last column every tile is followed by `spacing`. */
  lemma {:induction false} PartialRowExtent(row: nat, count: nat, width: real, p: GridProps)
    requires count < p.numColumns
    ensures RowExtent(row, count, width, p) == (count as real) * (PostWidth(width, p) + p.spacing)
  {
    if count > 0 {
      PartialRowExtent(row, count - 1, width, p);
      LastInFullRow(row, count - 1, p.numColumns);
    }
  }

  /** A full row fills the window's width exactly. */
  lemma FullRowFillsWidth(row: nat, width: real, p: GridProps)
    ensures RowExtent(row, p.numColumns, width, p) == width
  {
    var n: int := p.numColumns;
    PartialRowExtent(row, n - 1, width, p);
    LastInFullRow(row, n - 1, n);
    var w := PostWidth(width, p);
    assert RowExtent(row, n, width, p) == ((n - 1) as real) * (w + p.spacing) + w;
    assert ((n - 1) as real) * (w + p.spacing) + w == (n as real) * w + p.spacing * ((n - 1) as real);
  }

  /** Each full row has exactly one tile, its last, with no right margin of its own. */
  lemma OneLastTilePerRow(row: nat, numColumns: Columns)
    ensures forall index: nat :: row * numColumns <= index < (row + 1) * numColumns ==>
      (IsLastInRow(index, numColumns) <==> index == row * numColumns + numColumns - 1)
  {
    forall index: nat | row * numColumns <= index < (row + 1) * numColumns
      ensures IsLastInRow(index, numColumns) <==> index == row * numColumns + numColumns - 1
    {
      LastInFullRow(row, index - row * numColumns, numColumns);
    }
  }
}
