/**
 * The strip of angle buttons above (portrait) or beside (landscape) the
 * camera: it scrolls to keep the selected angle in view and marks each item
 * as selected and/or captured.
 */
module AngleStrip {
  import opened Wrappers
  import opened CarAngles
  import opened CapturedImages

  datatype Orientation = Portrait | Landscape

  /** The `{x, y}` passed to `scrollTo`. */
  datatype ScrollOffset = ScrollOffset(x: int, y: int)

  /** `ITEM_SIZE`: the pitch of one item along the strip. */
  function ItemSize(orientation: Orientation): int {
    if orientation.Portrait? then 70 else 78
  }

  /**
   * The scroll the effect issues for the selected id, when the scroll view is
   * mounted: none for an id outside the catalog, otherwise along x in
   * portrait and along y in landscape, one item pitch per catalog position.
   */
  function ScrollRequest(selectedAngleId: int, orientation: Orientation, hasScrollView: bool): (r: Option<ScrollOffset>)
    ensures r.None? <==> !hasScrollView || !(1 <= selectedAngleId <= REQUIRED_ANGLES)
    ensures r.Some? && orientation.Portrait? ==> r.value == ScrollOffset((selectedAngleId - 1) * 70, 0)
    ensures r.Some? && orientation.Landscape? ==> r.value == ScrollOffset(0, (selectedAngleId - 1) * 78)
  {
    var index := IndexOfId(selectedAngleId);
    if hasScrollView && index >= 0 then
      var itemSize := ItemSize(orientation);
      Some(ScrollOffset(if orientation.Portrait? then index * itemSize else 0,
                        if orientation.Landscape? then index * itemSize else 0))
    else
      None
  }

  /** The item's graphic: the photo, or the angle's icon, highlighted when selected. */
  datatype Visual = Thumbnail(uri: string) | Icon(iconName: string, highlighted: bool)

  /**
   * One strip item. `angle` is what a tap on it hands to `onSelectAngle`.
   */
  datatype Item = Item(angle: CarAngle, isSelected: bool, isCaptured: bool, visual: Visual,
                       checkBadge: bool, numberBadge: int, caption: string)

  /** The item the map callback renders for `angle` at position `index`. */
  function ItemFor(angle: CarAngle, index: int, selectedAngleId: int, m: Captures): (item: Item)
    ensures item.angle == angle && item.numberBadge == index + 1 && item.caption == angle.shortLabel
    ensures item.isSelected <==> angle.id == selectedAngleId
    ensures item.isCaptured <==> Captured(m, angle.id)
    ensures item.checkBadge == item.isCaptured && (item.visual.Thumbnail? <==> item.isCaptured)
    ensures item.visual.Thumbnail? ==> item.visual.uri == m[angle.id]
    ensures item.visual.Icon? ==> item.visual.iconName == angle.iconName
                                  && (item.visual.highlighted <==> item.isSelected)
  {
    var isSelected := angle.id == selectedAngleId;
    var capturedUri := if angle.id in m then m[angle.id] else "";
    var isCaptured := capturedUri != "";
    Item(angle, isSelected, isCaptured,
         if capturedUri != "" then Thumbnail(capturedUri) else Icon(angle.iconName, isSelected),
         isCaptured, index + 1, angle.shortLabel)
  }

  /** `angles.map((angle, index) => …)`, with the positions counted from `start`. */
  function ItemsFrom(angles: seq<CarAngle>, start: int, selectedAngleId: int, m: Captures): (items: seq<Item>)
    ensures |items| == |angles|
    ensures forall i :: 0 <= i < |angles| ==> items[i] == ItemFor(angles[i], start + i, selectedAngleId, m)
  {
    if angles == [] then []
    else [ItemFor(angles[0], start, selectedAngleId, m)] + ItemsFrom(angles[1..], start + 1, selectedAngleId, m)
  }

  /**
   * The strip: one item per catalog angle in catalog order, numbered 1 to 11;
   * an item is selected exactly when its id is the selected id, shows its
   * photo and check badge exactly when its capture is truthy, and a tap on
   * the item at position i selects the catalog angle at position i.
   */
  function Strip(selectedAngleId: int, m: Captures): (items: seq<Item>)
    ensures |items| == REQUIRED_ANGLES
    ensures forall i :: 0 <= i < |items| ==>
      && items[i].angle == Catalog()[i]
      && items[i].numberBadge == i + 1
      && (items[i].isSelected <==> i + 1 == selectedAngleId)
      && (items[i].isCaptured <==> Captured(m, i + 1))
      && items[i].checkBadge == items[i].isCaptured
      && (items[i].visual.Thumbnail? <==> items[i].isCaptured)
      && (items[i].visual.Thumbnail? ==> items[i].visual.uri == m[i + 1])
      && (items[i].visual.Icon? ==> items[i].visual.iconName == Catalog()[i].iconName
                                    && (items[i].visual.highlighted <==> items[i].isSelected))
  {
    CatalogLayout();
    ItemsFrom(Catalog(), 0, selectedAngleId, m)
  }

  /**
   * At most one item is selected, and exactly one when the selected id is a
   * catalog id.
   */
  lemma OneSelectedItem(selectedAngleId: int, m: Captures)
    ensures var items := Strip(selectedAngleId, m);
      forall i, j :: 0 <= i < |items| && 0 <= j < |items| && items[i].isSelected && items[j].isSelected ==> i == j
    ensures var items := Strip(selectedAngleId, m);
      (exists i :: 0 <= i < |items| && items[i].isSelected) <==> 1 <= selectedAngleId <= REQUIRED_ANGLES
  {
    var items := Strip(selectedAngleId, m);
    if 1 <= selectedAngleId <= REQUIRED_ANGLES {
      assert items[selectedAngleId - 1].isSelected;
    }
  }

  /**
   * Tapping the item at position i hands catalog angle i to `onSelectAngle`;
   * once that angle is selected, the strip marks only item i and scrolls to
   * position i.
   */
  lemma TapSelectsItem(i: int, selectedAngleId: int, m: Captures, orientation: Orientation)
    requires 0 <= i < REQUIRED_ANGLES
    ensures var tapped := Strip(selectedAngleId, m)[i].angle;
      && tapped == Catalog()[i]
      && (forall j :: 0 <= j < REQUIRED_ANGLES ==> (Strip(tapped.id, m)[j].isSelected <==> j == i))
      && ScrollRequest(tapped.id, orientation, true) ==
           Some(if orientation.Portrait? then ScrollOffset(i * 70, 0) else ScrollOffset(0, i * 78))
  {
    CatalogLayout();
  }
}
