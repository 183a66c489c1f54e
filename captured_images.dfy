/**
 * The captures map that the screen receives from its parent: for each angle
 * id, the uri of its photo, with JavaScript truthiness deciding what counts as
 * captured. A `null` entry and a missing key are both modelled as "no entry or
 * the empty string"; the empty string is falsy as well.
 */
module CapturedImages {
  import opened CarAngles

  type Captures = map<int, string>

  /** `!!capturedImages[id]`: the entry is present and truthy. */
  predicate Captured(m: Captures, id: int) {
    id in m && m[id] != ""
  }

  /** The keys whose value is truthy. */
  function CapturedIds(m: Captures): (ids: set<int>)
    ensures ids <= m.Keys
    ensures forall id :: id in ids <==> Captured(m, id)
  {
    set k | k in m && m[k] != ""
  }

  lemma SubsetSize(a: set<int>, b: set<int>)
    requires a <= b
    ensures |a| <= |b|
    ensures |a| == |b| ==> a == b
  {
    assert b == a + (b - a);
    if |a| == |b| {
      assert |b - a| == 0;
    }
  }

  lemma NothingCapturedMeansNoIds(m: Captures)
    ensures |CapturedIds(m)| == 0 <==> forall id :: id in m ==> !Captured(m, id)
  {
    var ids := CapturedIds(m);
    if forall id :: id in m ==> !Captured(m, id) {
      assert forall x :: x !in ids;
      assert ids == {};
    } else {
      var x :| x in m && Captured(m, x);
      assert x in ids;
    }
  }

  /**
   * `Object.values(capturedImages).filter(Boolean).length`: the number of
   * truthy values, over every key of the map and not only the catalog ids.
   */
  function CapturedCount(m: Captures): (n: nat)
    ensures n <= |m|
    ensures n == 0 <==> forall id :: id in m ==> !Captured(m, id)
  {
    var ids := CapturedIds(m);
    SubsetSize(ids, m.Keys);
    NothingCapturedMeansNoIds(m);
    |ids|
  }

  /** `capturedCount === 11`. */
  predicate AllCaptured(m: Captures) {
    CapturedCount(m) == REQUIRED_ANGLES
  }

  /** The map the parent keeps: its keys are catalog ids. */
  predicate CatalogKeyed(m: Captures) {
    m.Keys <= CatalogIds()
  }

  /** Every catalog id is the id of a catalog entry, and the other way round. */
  lemma CatalogIdsAreEntryIds()
    ensures forall id :: id in CatalogIds() ==> Catalog()[id - 1].id == id
    ensures forall i :: 0 <= i < |Catalog()| ==> Catalog()[i].id in CatalogIds()
  {
    CatalogIdsSize();
    CatalogLayout();
  }

  /**
   * Over a map keyed by catalog ids the count is at most eleven, and it is
   * eleven exactly when every catalog angle is captured.
   */
  lemma CountWithinCatalog(m: Captures)
    requires CatalogKeyed(m)
    ensures CapturedCount(m) <= REQUIRED_ANGLES
    ensures AllCaptured(m) <==> forall i :: 0 <= i < |Catalog()| ==> Captured(m, Catalog()[i].id)
  {
    CatalogIdsSize();
    var ids := CapturedIds(m);
    SubsetSize(ids, CatalogIds());
    if forall i :: 0 <= i < |Catalog()| ==> Captured(m, Catalog()[i].id) {
      forall id | id in CatalogIds()
        ensures id in ids
      {
        CatalogIdsAreEntryIds();
        assert Captured(m, Catalog()[id - 1].id);
      }
      assert ids == CatalogIds();
    }
    if AllCaptured(m) {
      assert |ids| == |CatalogIds()|;
      assert ids == CatalogIds();
      CatalogIdsAreEntryIds();
      forall i | 0 <= i < |Catalog()|
        ensures Captured(m, Catalog()[i].id)
      {
        assert Catalog()[i].id in ids;
      }
    }
  }

  /**
   * `initCapturedImages()` of the home screen: every catalog id set to `null`,
   * so no id at all is captured and a session begins from nothing.
   */
  function InitialCaptures(): (m: Captures)
    ensures CatalogKeyed(m) && m.Keys == CatalogIds()
    ensures forall id :: !Captured(m, id)
    ensures CapturedCount(m) == 0 && !AllCaptured(m)
  {
    map id | id in CatalogIds() :: ""
  }
}
