/** The chip flow widget: chips laid out left to right, wrapping to a new
    row when the next chip (with its shadow) would overflow the width. */
module ChipFlow {
  import opened Results

  /** A chip drawable: an identity and its intrinsic size. */
  datatype Chip = Chip(id: nat, intrinsicWidth: int, intrinsicHeight: int)

  datatype Bounds = Bounds(left: int, top: int, right: int, bottom: int)

  /** The widget's dimensions that take part in the layout. */
  datatype Style = Style(
    shadowDx: int,
    shadowDy: int,
    horizontalSpacing: int,
    verticalSpacing: int,
    lastItemHeightCompensation: int)

  /** Where the previous chip ended: the width taken on the current row,
      the height taken by the rows above, and the last chip's height. */
  datatype Cursor = Cursor(takenWidth: int, takenHeight: int, chipHeight: int)

  function Start(style: Style): Cursor {
    Cursor(style.shadowDx, style.shadowDy, 0)
  }

  function Min(a: int, b: int): int { if a > b then b else a }

  /** Whether placing `chip` after `cursor` starts a new row. */
  predicate Wraps(cursor: Cursor, chip: Chip, availableWidth: int, style: Style) {
    var width := Min(chip.intrinsicWidth, availableWidth);
    var spacing := if cursor.takenWidth > style.shadowDx then style.horizontalSpacing else 0;
    cursor.takenWidth + width + 2 * style.shadowDx + spacing > availableWidth
  }

  /** One iteration of the measuring loop: the chip's bounds and the cursor
      after it. */
  function Place(cursor: Cursor, chip: Chip, availableWidth: int, style: Style): (r: (Bounds, Cursor))
    ensures r.0.right - r.0.left == Min(chip.intrinsicWidth, availableWidth)
    ensures r.0.bottom - r.0.top == chip.intrinsicHeight
    ensures r.1 == Cursor(r.0.right, r.1.takenHeight, chip.intrinsicHeight)
    ensures !Wraps(cursor, chip, availableWidth, style) ==>
              r.0.right + style.shadowDx <= availableWidth && r.1.takenHeight == cursor.takenHeight
    ensures Wraps(cursor, chip, availableWidth, style) ==>
              r.0.left == 2 * style.shadowDx &&
              r.1.takenHeight == cursor.takenHeight + chip.intrinsicHeight + 2 * style.shadowDy + style.verticalSpacing
    ensures r.0.top == r.1.takenHeight + style.shadowDy
  {
    var width := Min(chip.intrinsicWidth, availableWidth);
    var height := chip.intrinsicHeight;
    var wraps := Wraps(cursor, chip, availableWidth, style);
    var spacing := if wraps || cursor.takenWidth <= style.shadowDx then 0 else style.horizontalSpacing;
    var takenWidth := if wraps then style.shadowDx else cursor.takenWidth;
    var takenHeight :=
      if wraps then cursor.takenHeight + (height + 2 * style.shadowDy + style.verticalSpacing)
      else cursor.takenHeight;
    var left := takenWidth + style.shadowDx + spacing;
    var top := takenHeight + style.shadowDy;
    (Bounds(left, top, left + width, top + height), Cursor(left + width, takenHeight, height))
  }

  /** The whole layout, as a left fold over the chips. */
  function Layout(chips: seq<Chip>, availableWidth: int, style: Style): (r: (seq<Bounds>, Cursor))
    ensures |r.0| == |chips|
  {
    if |chips| == 0 then ([], Start(style))
    else
      var (bounds, cursor) := Layout(chips[..|chips| - 1], availableWidth, style);
      var (b, next) := Place(cursor, chips[|chips| - 1], availableWidth, style);
      (bounds + [b], next)
  }

  /** The measured height: the height taken plus the last chip's height and
      the compensation. */
  function MeasuredHeight(chips: seq<Chip>, availableWidth: int, style: Style): (h: int)
    ensures |chips| == 0 ==> h == style.shadowDy + style.lastItemHeightCompensation
    ensures |chips| > 0 ==>
              h == Layout(chips, availableWidth, style).0[|chips| - 1].bottom - style.shadowDy
                   + style.lastItemHeightCompensation
  {
    var cursor := Layout(chips, availableWidth, style).1;
    cursor.takenHeight + cursor.chipHeight + style.lastItemHeightCompensation
  }

  /** The layout of one more chip places it after the cursor so far. */
  lemma LayoutStep(chips: seq<Chip>, i: nat, availableWidth: int, style: Style)
    requires i < |chips|
    ensures var (bounds, cursor) := Layout(chips[..i], availableWidth, style);
            var placed := Place(cursor, chips[i], availableWidth, style);
            Layout(chips[..i + 1], availableWidth, style) == (bounds + [placed.0], placed.1)
  {
    assert chips[..i + 1][..i] == chips[..i];
  }

  /** `measureChips`: the loop that applies each chip's bounds and returns
      the height the widget needs. */
  method MeasureChips(chips: seq<Chip>, availableWidth: int, style: Style) returns (bounds: seq<Bounds>, height: int)
    ensures bounds == Layout(chips, availableWidth, style).0
    ensures height == MeasuredHeight(chips, availableWidth, style)
  {
    var chipShadowDx := style.shadowDx;
    var chipShadowDy := style.shadowDy;
    var chipTotalShadowDx := chipShadowDx * 2;
    var chipTotalShadowDy := chipShadowDy * 2;
    var chipHeight := 0;
    var initialWidth := chipShadowDx;
    var takenWidth := initialWidth;
    var takenHeight := chipShadowDy;
    bounds := [];
    var i := 0;
    while i < |chips|
      invariant 0 <= i <= |chips|
      invariant (bounds, Cursor(takenWidth, takenHeight, chipHeight)) == Layout(chips[..i], availableWidth, style)
    {
      var chip := chips[i];
      ghost var placed := Place(Cursor(takenWidth, takenHeight, chipHeight), chip, availableWidth, style);
      LayoutStep(chips, i, availableWidth, style);
      var chipWidth := if chip.intrinsicWidth > availableWidth then availableWidth else chip.intrinsicWidth;
      assert chipWidth == Min(chip.intrinsicWidth, availableWidth);
      chipHeight := chip.intrinsicHeight;
      var chipHorizontalSpacing := if takenWidth > initialWidth then style.horizontalSpacing else 0;
      var newWidth := takenWidth + chipWidth + chipTotalShadowDx + chipHorizontalSpacing;
      if newWidth > availableWidth {
        takenWidth := initialWidth;
        takenHeight := takenHeight + (chipHeight + chipTotalShadowDy + style.verticalSpacing);
        chipHorizontalSpacing := 0;
      }
      var chipLeft := takenWidth + chipShadowDx + chipHorizontalSpacing;
      var chipTop := takenHeight + chipShadowDy;
      var chipRight := chipLeft + chipWidth;
      var chipBottom := chipTop + chipHeight;
      assert Bounds(chipLeft, chipTop, chipRight, chipBottom) == placed.0;
      bounds := bounds + [Bounds(chipLeft, chipTop, chipRight, chipBottom)];
      takenWidth := chipRight;
      assert Cursor(takenWidth, takenHeight, chipHeight) == placed.1;
      i := i + 1;
    }
    assert chips[..i] == chips;
    height := takenHeight + chipHeight + style.lastItemHeightCompensation;
  }

  /** Non-negative dimensions, as the widget's resources provide. */
  predicate NonNegative(chips: seq<Chip>, style: Style) {
    style.shadowDx >= 0 && style.shadowDy >= 0 && style.horizontalSpacing >= 0 && style.verticalSpacing >= 0 &&
    forall i :: 0 <= i < |chips| ==> chips[i].intrinsicWidth >= 0 && chips[i].intrinsicHeight >= 0
  }

  /** The height taken only grows, so chips never move up: every chip's top
      is at or below the previous chip's top. */
  lemma {:induction false} TopsNeverDecrease(chips: seq<Chip>, availableWidth: int, style: Style)
    requires NonNegative(chips, style)
    ensures var r := Layout(chips, availableWidth, style);
      forall i :: 0 < i < |chips| ==> r.0[i - 1].top <= r.0[i].top
    ensures Layout(chips, availableWidth, style).1.takenHeight >= style.shadowDy
  {
    if |chips| > 0 {
      var init := chips[..|chips| - 1];
      assert NonNegative(init, style) by {
        forall i | 0 <= i < |init| ensures init[i] == chips[i] {}
      }
      TopsNeverDecrease(init, availableWidth, style);
      if |init| > 0 {
        LastTop(init, availableWidth, style);
      }
    }
  }

  /** The last chip's top sits a shadow below the height taken. */
  lemma LastTop(chips: seq<Chip>, availableWidth: int, style: Style)
    requires |chips| > 0
    ensures var r := Layout(chips, availableWidth, style);
      r.0[|chips| - 1].top == r.1.takenHeight + style.shadowDy
  {
  }

  /** Every chip has its capped width and its own height. */
  lemma {:induction false} ChipSizes(chips: seq<Chip>, availableWidth: int, style: Style)
    ensures var r := Layout(chips, availableWidth, style);
      forall i :: 0 <= i < |chips| ==>
        r.0[i].right - r.0[i].left == Min(chips[i].intrinsicWidth, availableWidth) &&
        r.0[i].bottom - r.0[i].top == chips[i].intrinsicHeight
  {
    if |chips| > 0 {
      var init := chips[..|chips| - 1];
      ChipSizes(init, availableWidth, style);
      var r := Layout(chips, availableWidth, style);
      forall i | 0 <= i < |init|
        ensures r.0[i] == Layout(init, availableWidth, style).0[i]
      {
      }
    }
  }

  /** A chip that continues a row starts after the previous chip, and ends,
      shadow included, within the available width. */
  lemma ContinuedRowFits(chips: seq<Chip>, chip: Chip, availableWidth: int, style: Style)
    requires |chips| > 0 && NonNegative(chips, style)
    requires !Wraps(Layout(chips, availableWidth, style).1, chip, availableWidth, style)
    ensures var before := Layout(chips, availableWidth, style).0;
      var after := Layout(chips + [chip], availableWidth, style).0;
      after[|chips|].left >= before[|chips| - 1].right + style.shadowDx &&
      after[|chips|].right + style.shadowDx <= availableWidth &&
      after[|chips|].top == before[|chips| - 1].top
  {
    assert (chips + [chip])[..|chips|] == chips;
    LastTop(chips, availableWidth, style);
  }

  /** When every chip has the same height, a new row starts below the
      bottom of the previous one. */
  lemma WrappedRowClearsUniformChips(chips: seq<Chip>, chip: Chip, availableWidth: int, style: Style)
    requires |chips| > 0 && NonNegative(chips, style) && style.verticalSpacing >= 0 && style.shadowDy >= 0
    requires chips[|chips| - 1].intrinsicHeight == chip.intrinsicHeight
    requires Wraps(Layout(chips, availableWidth, style).1, chip, availableWidth, style)
    ensures var before := Layout(chips, availableWidth, style).0;
      var after := Layout(chips + [chip], availableWidth, style).0;
      after[|chips|].top >= before[|chips| - 1].bottom
  {
    assert (chips + [chip])[..|chips|] == chips;
    LastTop(chips, availableWidth, style);
    ChipSizes(chips, availableWidth, style);
  }

  /** The row advance uses the height of the chip that wraps, not of the row
      above: a short chip after a tall one overlaps it. */
  lemma ShortChipAfterTallOneOverlaps()
    ensures var style := Style(0, 0, 0, 0, 0);
      var chips := [Chip(0, 10, 100), Chip(1, 10, 10)];
      var r := Layout(chips, 15, style).0;
      r[1].top < r[0].bottom
  {
    var style := Style(0, 0, 0, 0, 0);
    var first := Place(Start(style), Chip(0, 10, 100), 15, style);
    assert first.0 == Bounds(0, 0, 10, 100);
    var second := Place(first.1, Chip(1, 10, 10), 15, style);
    assert second.0.top == 10;
    var chips := [Chip(0, 10, 100), Chip(1, 10, 10)];
    assert chips[..1] == [Chip(0, 10, 100)];
    assert chips[..1][..0] == [];
  }

  /** `initChips`: one chip per item, in item order, each a new drawable. */
  function InitChips<T>(items: seq<T>, nextId: nat, size: T -> (int, int)): (chips: seq<Chip>)
    ensures |chips| == |items|
    ensures forall i :: 0 <= i < |items| ==> chips[i].id == nextId + i
    ensures forall i :: 0 <= i < |items| ==> (chips[i].intrinsicWidth, chips[i].intrinsicHeight) == size(items[i])
  {
    if |items| == 0 then []
    else
      var (w, h) := size(items[0]);
      [Chip(nextId, w, h)] + InitChips(items[1..], nextId + 1, size)
  }

  /** Android's `Rect.contains`: a non-empty rectangle, left and top edges
      inclusive, right and bottom edges exclusive. */
  predicate Contains(b: Bounds, x: int, y: int) {
    b.left < b.right && b.top < b.bottom && b.left <= x < b.right && b.top <= y < b.bottom
  }

  /** `findPressedChip`: the index of the first chip whose bounds contain
      the point. */
  function FindPressedChip(bounds: seq<Bounds>, x: int, y: int): (r: Option<nat>)
    ensures r.Some? ==> r.value < |bounds| && Contains(bounds[r.value], x, y)
    ensures r.Some? ==> forall j :: 0 <= j < r.value ==> !Contains(bounds[j], x, y)
    ensures r.None? <==> forall j :: 0 <= j < |bounds| ==> !Contains(bounds[j], x, y)
  {
    if |bounds| == 0 then None
    else if Contains(bounds[0], x, y) then Some(0)
    else
      match FindPressedChip(bounds[1..], x, y)
      case None => None
      case Some(i) => Some(i + 1)
  }

  /** `indexOfFirstOrNull { it == chip }`. */
  function IndexOf(chips: seq<Chip>, chip: Chip): (r: Option<nat>)
    ensures r.Some? ==> r.value < |chips| && chips[r.value] == chip
    ensures r.Some? ==> forall j :: 0 <= j < r.value ==> chips[j] != chip
    ensures r.None? <==> chip !in chips
  {
    if |chips| == 0 then None
    else if chips[0] == chip then Some(0)
    else
      match IndexOf(chips[1..], chip)
      case None => None
      case Some(i) => Some(i + 1)
  }

  /** `findItemForChip`: the item at the chip's index, if there is one. */
  function FindItemForChip<T>(chips: seq<Chip>, items: seq<T>, chip: Chip): (r: Option<T>)
    ensures r.None? <==> chip !in chips || IndexOf(chips, chip).value >= |items|
    ensures r.Some? ==> exists i :: 0 <= i < |chips| && i < |items| && chips[i] == chip && r.value == items[i]
                                  && forall j :: 0 <= j < i ==> chips[j] != chip
  {
    match IndexOf(chips, chip)
    case None => None
    case Some(i) => if i < |items| then Some(items[i]) else None
  }

  /** A tap on the widget reaches the item whose chip is the first one
      under the finger, when the chips were made from the items. */
  lemma TapFindsItemUnderFinger<T>(items: seq<T>, nextId: nat, size: T -> (int, int),
                                   availableWidth: int, style: Style, x: int, y: int)
    ensures var chips := InitChips(items, nextId, size);
      var bounds := Layout(chips, availableWidth, style).0;
      var pressed := FindPressedChip(bounds, x, y);
      pressed.Some? ==> FindItemForChip(chips, items, chips[pressed.value]) == Some(items[pressed.value])
  {
    var chips := InitChips(items, nextId, size);
    var bounds := Layout(chips, availableWidth, style).0;
    var pressed := FindPressedChip(bounds, x, y);
    if pressed.Some? {
      var k := pressed.value;
      var found := IndexOf(chips, chips[k]);
      assert found.Some?;
      assert chips[found.value].id == chips[k].id;
    }
  }
}
