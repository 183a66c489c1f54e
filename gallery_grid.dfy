/**
 * The gallery on the home screen: the header counts and one cell per catalog
 * angle, each showing its photo or a placeholder and its position in the
 * checklist. It only reads the captures map.
 */
module GalleryGrid {
  import opened CarAngles
  import opened CapturedImages

  /** The header: captured, remaining and total, as displayed. */
  datatype Stats = Stats(captured: int, remaining: int, total: int)

  /**
   * The header counts: the number of truthy captures, `11 - capturedCount`
   * and the constant 11. Nothing is clamped, so captured and remaining always
   * add up to the total.
   */
  function HeaderStats(m: Captures): (s: Stats)
    ensures s.captured == CapturedCount(m) && s.total == REQUIRED_ANGLES
    ensures s.captured + s.remaining == s.total
  {
    var capturedCount := CapturedCount(m);
    Stats(capturedCount, 11 - capturedCount, 11)
  }

  /**
   * Over the parent's map the remaining count lies in 0..11; it is 0 exactly
   * when every angle is captured and 11 exactly when none is.
   */
  lemma RemainingWithinRange(m: Captures)
    requires CatalogKeyed(m)
    ensures 0 <= HeaderStats(m).remaining <= REQUIRED_ANGLES
    ensures HeaderStats(m).remaining == 0 <==> forall i :: 0 <= i < |Catalog()| ==> Captured(m, Catalog()[i].id)
    ensures HeaderStats(m).remaining == REQUIRED_ANGLES <==> forall id :: id in m ==> !Captured(m, id)
  {
    CountWithinCatalog(m);
  }

  /** What a cell shows in its frame. */
  datatype Thumbnail = Photo(uri: string) | Placeholder(iconName: string)

  /** One grid cell. */
  datatype Cell = Cell(angleId: int, thumbnail: Thumbnail, indexBadge: int, checkBadge: bool, caption: string)

  /** The cell the map callback renders for `angle` at position `index`. */
  function CellFor(angle: CarAngle, index: int, m: Captures): (cell: Cell)
    ensures cell.angleId == angle.id && cell.indexBadge == index + 1 && cell.caption == angle.shortLabel
    ensures cell.checkBadge <==> Captured(m, angle.id)
    ensures cell.thumbnail.Photo? <==> cell.checkBadge
    ensures cell.thumbnail.Photo? ==> cell.thumbnail.uri == m[angle.id]
    ensures cell.thumbnail.Placeholder? ==> cell.thumbnail.iconName == angle.iconName
  {
    var uri := if angle.id in m then m[angle.id] else "";
    var isCaptured := uri != "";
    Cell(angle.id, if isCaptured then Photo(uri) else Placeholder(angle.iconName), index + 1, isCaptured,
         angle.shortLabel)
  }

  /** `angles.map((angle, index) => …)`, with the positions counted from `start`. */
  function CellsFrom(angles: seq<CarAngle>, start: int, m: Captures): (cells: seq<Cell>)
    ensures |cells| == |angles|
    ensures forall i :: 0 <= i < |angles| ==> cells[i] == CellFor(angles[i], start + i, m)
  {
    if angles == [] then [] else [CellFor(angles[0], start, m)] + CellsFrom(angles[1..], start + 1, m)
  }

  /**
   * The grid: one cell per catalog angle in catalog order, badged 1 to 11;
   * a cell shows the photo and the check badge exactly when its capture is
   * truthy, and the angle's icon otherwise.
   */
  function Grid(m: Captures): (cells: seq<Cell>)
    ensures |cells| == REQUIRED_ANGLES
    ensures forall i :: 0 <= i < |cells| ==>
      && cells[i].angleId == i + 1
      && cells[i].indexBadge == i + 1
      && (cells[i].checkBadge <==> Captured(m, i + 1))
      && (cells[i].thumbnail.Photo? <==> Captured(m, i + 1))
      && (cells[i].thumbnail.Photo? ==> cells[i].thumbnail.uri == m[i + 1])
      && (cells[i].thumbnail.Placeholder? ==> cells[i].thumbnail.iconName == Catalog()[i].iconName)
  {
    CatalogLayout();
    CellsFrom(Catalog(), 0, m)
  }
}
