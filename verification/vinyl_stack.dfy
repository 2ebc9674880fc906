/** The stacked-sleeve layout of the collection view: each album's horizontal offset and
    stacking order, and when the scroll hint appears. */
module VinylStack {

  /** Horizontal shift of one sleeve over the previous one, in pixels. */
  const BaseOffset := 40

  /** More albums than this and the stack overflows its box. */
  const VisibleAlbums := 8

  /** A sleeve's style: `left` in pixels (the source renders it as "<n>px") and its `zIndex`. */
  datatype Offset = Offset(left: int, zIndex: int)

  /** `calculateOffset(index, total)` */
  function CalculateOffset(index: int, total: int): (offset: Offset)
    ensures offset.left == index * BaseOffset
    ensures offset.zIndex + index == total
  {
    Offset(index * BaseOffset, total - index)
  }

  /** `albums.map((album, index) => calculateOffset(index, albums.length))`: sleeves move right
      in steps of 40 pixels, and earlier albums sit above later ones, every one at z-index 1 or more. */
  function StackLayout(total: nat): (layout: seq<Offset>)
    ensures |layout| == total
    ensures forall i :: 0 <= i < total ==> layout[i].left == BaseOffset * i && 1 <= layout[i].zIndex <= total
    ensures forall i :: 0 <= i < total - 1 ==>
      layout[i + 1].left == layout[i].left + BaseOffset && layout[i + 1].zIndex == layout[i].zIndex - 1
  {
    seq(total, i requires 0 <= i < total => CalculateOffset(i, total))
  }

  /** Of any two albums in the stack, the earlier is drawn above and to the left of the later. */
  lemma EarlierOnTop(total: nat, i: int, j: int)
    requires 0 <= i < j < total
    ensures StackLayout(total)[i].zIndex > StackLayout(total)[j].zIndex
    ensures StackLayout(total)[i].left < StackLayout(total)[j].left
  {
  }

  /** `albums.length > 8`: the hint shows exactly when the last sleeve starts beyond the
      width of eight sleeve steps. */
  function ShowScrollHint(albumCount: nat): (show: bool)
    ensures show <==> albumCount > 0 && StackLayout(albumCount)[albumCount - 1].left >= VisibleAlbums * BaseOffset
  {
    albumCount > VisibleAlbums
  }
}
