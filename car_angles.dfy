/**
 * The fixed, ordered catalog of the eleven shots an inspection needs.
 * Order matters: it is the capture sequence and the order of every list on
 * screen. The overlay image of each entry is a bundled asset and is not
 * modelled.
 */
module CarAngles {
  import opened ArraySearch

  datatype CarAngle = CarAngle(id: int, labelText: string, shortLabel: string, iconName: string)

  /** The number of required angles, written as the literal 11 throughout the components. */
  const REQUIRED_ANGLES: int := 11

  /** The catalog entry at each position, in the order of the `CAR_ANGLES` array. */
  function AngleAt(i: int): CarAngle
  {
    if i == 0 then CarAngle(1, "Front", "Front", "car")
    else if i == 1 then CarAngle(2, "Front Left", "Fr. Left", "car-arrow-left")
    else if i == 2 then CarAngle(3, "Driver Side", "Driver", "car-side")
    else if i == 3 then CarAngle(4, "Rear Left", "Re. Left", "car-arrow-left")
    else if i == 4 then CarAngle(5, "Rear", "Rear", "car-back")
    else if i == 5 then CarAngle(6, "Rear Right", "Re. Right", "car-arrow-right")
    else if i == 6 then CarAngle(7, "Passenger Side", "Pass.", "car-side")
    else if i == 7 then CarAngle(8, "Front Right", "Fr. Right", "car-arrow-right")
    else if i == 8 then CarAngle(9, "Interior Front", "Int. Front", "steering")
    else if i == 9 then CarAngle(10, "Interior Rear", "Int. Rear", "car-seat")
    else CarAngle(11, "Odometer", "Odometer", "speedometer")
  }

  /** The `CAR_ANGLES` array. */
  function Catalog(): (c: seq<CarAngle>)
    ensures |c| == REQUIRED_ANGLES
  {
    seq(11, i => AngleAt(i))
  }

  /** The catalog has eleven entries and the entry at position i has id i + 1. */
  lemma CatalogLayout()
    ensures |Catalog()| == REQUIRED_ANGLES
    ensures forall i :: 0 <= i < |Catalog()| ==> Catalog()[i].id == i + 1
  {
  }

  /** No two entries share an id, so an id names at most one position. */
  lemma IdsDistinct()
    ensures forall i, j :: 0 <= i < j < |Catalog()| ==> Catalog()[i].id != Catalog()[j].id
  {
    CatalogLayout();
  }

  /** Every entry has both labels; the catalog runs from Front to Odometer. */
  lemma LabelsPresent()
    ensures forall i :: 0 <= i < |Catalog()| ==> Catalog()[i].labelText != "" && Catalog()[i].shortLabel != ""
    ensures Catalog()[0].labelText == "Front" && Catalog()[|Catalog()| - 1].labelText == "Odometer"
  {
  }

  /** The test `a.id === id` that the id lookups pass to `findIndex`. */
  function HasId(id: int): CarAngle -> bool {
    (a: CarAngle) => a.id == id
  }

  /** `CAR_ANGLES.findIndex((a) => a.id === id)`: position id - 1 for a catalog id, -1 otherwise. */
  function IndexOfId(id: int): (r: int)
    ensures r == if 1 <= id <= REQUIRED_ANGLES then id - 1 else -1
  {
    CatalogLayout();
    if 1 <= id <= REQUIRED_ANGLES then
      FindFirst(Catalog(), HasId(id), id - 1);
      FindIndex(Catalog(), HasId(id))
    else
      FindIndex(Catalog(), HasId(id))
  }

  /** A catalog entry sits at the position its id names. */
  lemma CatalogEntryById(a: CarAngle)
    requires a in Catalog()
    ensures 1 <= a.id <= REQUIRED_ANGLES && Catalog()[a.id - 1] == a
  {
    CatalogLayout();
  }

  /** The ids of the entries of `s`. */
  function IdsOf(s: seq<CarAngle>): set<int> {
    if s == [] then {} else {s[0].id} + IdsOf(s[1..])
  }

  lemma {:induction false} IdsOfConsecutive(s: seq<CarAngle>, base: int)
    requires forall i :: 0 <= i < |s| ==> s[i].id == base + i
    ensures |IdsOf(s)| == |s|
    ensures forall id :: id in IdsOf(s) <==> base <= id < base + |s|
  {
    if s != [] {
      IdsOfConsecutive(s[1..], base + 1);
      assert base !in IdsOf(s[1..]);
    }
  }

  lemma {:induction false} IdsOfIsImage(s: seq<CarAngle>)
    ensures IdsOf(s) == set a | a in s :: a.id
  {
    if s != [] {
      IdsOfIsImage(s[1..]);
      assert s == [s[0]] + s[1..];
      assert forall a :: a in s <==> a == s[0] || a in s[1..];
    }
  }

  /** The set of catalog ids. */
  function CatalogIds(): set<int> {
    set a | a in Catalog() :: a.id
  }

  /** There are exactly eleven catalog ids, and they are 1 to 11. */
  lemma CatalogIdsSize()
    ensures |CatalogIds()| == REQUIRED_ANGLES
    ensures forall id :: id in CatalogIds() <==> 1 <= id <= REQUIRED_ANGLES
  {
    CatalogLayout();
    IdsOfConsecutive(Catalog(), 1);
    IdsOfIsImage(Catalog());
  }
}
