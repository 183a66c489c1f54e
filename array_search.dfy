/**
 * The two array searches the components use: `findIndex`, which answers the
 * first position whose element passes a test (or -1), and `find`, which
 * answers that element itself (or nothing).
 */
module ArraySearch {
  import opened Wrappers

  /** `s.findIndex(p)`. */
  function FindIndex<T>(s: seq<T>, p: T -> bool): (r: int)
    ensures -1 <= r < |s|
    ensures r >= 0 ==> p(s[r]) && forall j :: 0 <= j < r ==> !p(s[j])
    ensures r == -1 <==> forall j :: 0 <= j < |s| ==> !p(s[j])
  {
    if s == [] then -1
    else if p(s[0]) then 0
    else
      var k := FindIndex(s[1..], p);
      assert forall j :: 0 < j < |s| ==> s[j] == s[1..][j - 1];
      if k < 0 then -1 else k + 1
  }

  /** `s.find(p)`. */
  function Find<T>(s: seq<T>, p: T -> bool): (r: Option<T>)
    ensures r.None? <==> forall j :: 0 <= j < |s| ==> !p(s[j])
    ensures r.Some? ==> r.value in s && p(r.value)
  {
    var k := FindIndex(s, p);
    if k < 0 then None else Some(s[k])
  }

  /** The element `find` answers is the first one that passes the test. */
  lemma FindFirst<T>(s: seq<T>, p: T -> bool, k: int)
    requires 0 <= k < |s| && p(s[k])
    requires forall j :: 0 <= j < k ==> !p(s[j])
    ensures FindIndex(s, p) == k
    ensures Find(s, p) == Some(s[k])
  {
  }

  /** Searching a concatenation searches the first part, then the second. */
  lemma {:induction false} FindAppend<T>(a: seq<T>, b: seq<T>, p: T -> bool)
    ensures Find(a + b, p) == Find(a, p).OrElse(Find(b, p))
  {
    var ab := a + b;
    var ka := FindIndex(a, p);
    if ka >= 0 {
      assert forall j :: 0 <= j <= ka ==> ab[j] == a[j];
      FindFirst(ab, p, ka);
    } else {
      var kb := FindIndex(b, p);
      assert forall j :: 0 <= j < |b| ==> ab[|a| + j] == b[j];
      if kb >= 0 {
        assert forall j :: 0 <= j < |a| ==> ab[j] == a[j];
        FindFirst(ab, p, |a| + kb);
      } else {
        forall j | 0 <= j < |ab|
          ensures !p(ab[j])
        {
          if j < |a| {
            assert ab[j] == a[j];
          } else {
            assert ab[j] == b[j - |a|];
          }
        }
      }
    }
  }

  /**
   * `s.slice(k).find(p) ?? s.find(p)`: whatever it answers passes the test and
   * comes from `s`, and it answers nothing only when nothing in `s` passes.
   */
  lemma FindAfterOrFromStart<T>(s: seq<T>, k: int, p: T -> bool)
    requires 0 <= k <= |s|
    ensures var r := Find(s[k..], p).OrElse(Find(s, p));
      (r.Some? ==> r.value in s && p(r.value)) && (r.None? <==> forall j :: 0 <= j < |s| ==> !p(s[j]))
  {
    var r := Find(s[k..], p);
    if r.Some? {
      assert r.value in s[k..];
    }
  }

  /** Two tests that agree on every element find the same element. */
  lemma {:induction false} FindAgree<T>(s: seq<T>, p: T -> bool, q: T -> bool)
    requires forall j :: 0 <= j < |s| ==> p(s[j]) == q(s[j])
    ensures Find(s, p) == Find(s, q)
  {
    if s != [] {
      assert forall j :: 0 <= j < |s| - 1 ==> s[1..][j] == s[j + 1];
      FindAgree(s[1..], p, q);
    }
  }
}
