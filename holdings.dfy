/** Holdings entries as the holdings service returns them, and the in-place
    `sort!` the detail page applies to them. */
module Holdings {
  import opened Wrappers
  import opened RubyString

  /** One entry of `holdings(@document, :items)`: a hash whose `:location`,
      `:holdable` and `:bookable` keys may each be missing (`nil`). */
  datatype Holding = Holding(location: Option<string>, holdable: Option<bool>, bookable: Option<bool>)

  /** The sort key `entry[:location].downcase`. */
  function Key(h: Holding): string {
    match h.location
    case Some(l) => Downcase(l)
    case None => ""
  }

  /** The block `b[:location].downcase <=> a[:location].downcase` puts `a` before `b`
      when it is negative; so the result is ordered by downcased location, descending. */
  predicate Descending(s: seq<Holding>) {
    forall i, j :: 0 <= i < j < |s| ==> Cmp(Key(s[j]), Key(s[i])) <= 0
  }

  /** With two or more entries every entry reaches the sort block, and `nil.downcase`
      raises for an entry without a location; a single entry is never compared. */
  predicate SortRaises(s: seq<Holding>) {
    |s| >= 2 && exists i :: 0 <= i < |s| && s[i].location.None?
  }

  /** In a descending sequence the first entry carries the greatest key. */
  lemma DescendingHeadIsGreatest(s: seq<Holding>, i: int)
    requires Descending(s) && 0 < i < |s|
    ensures Cmp(Key(s[0]), Key(s[i])) >= 0
  {
    CmpAntisymmetric(Key(s[0]), Key(s[i]));
  }

  /** Locations "main" and "Annex" compare as "main" and "annex", so "main" comes first. */
  lemma MainBeforeAnnex()
    ensures Descending([Holding(Some("main"), None, None), Holding(Some("Annex"), None, None)])
    ensures !Descending([Holding(Some("Annex"), None, None), Holding(Some("main"), None, None)])
  {
    assert Downcase("Annex") == "annex" by {
      assert DowncaseChar('A') == 'a';
    }
    assert Downcase("main") == "main";
    assert Cmp("annex", "main") == -1;
    assert Cmp("main", "annex") == 1;
    var wrong := [Holding(Some("Annex"), None, None), Holding(Some("main"), None, None)];
    assert Key(wrong[0]) == "annex" && Key(wrong[1]) == "main";
    assert Cmp(Key(wrong[1]), Key(wrong[0])) > 0;
  }

  /** The first `n` entries are in descending order. */
  ghost predicate DescendingUpTo(a: array<Holding>, n: int)
    reads a
  {
    forall k, l :: 0 <= k < l < n && l < a.Length ==> Cmp(Key(a[l]), Key(a[k])) <= 0
  }

  /** The in-place sort of the holdings, greatest downcased location first.
      Ruby's sort is not stable, so nothing is promised about entries with equal keys. */
  method SortByLocationDescending(a: array<Holding>)
    modifies a
    ensures Descending(a[..])
    ensures multiset(a[..]) == multiset(old(a[..]))
  {
    var i := if a.Length < 2 then a.Length else 1;
    while i < a.Length
      invariant 0 < i <= a.Length || a.Length == 0
      invariant DescendingUpTo(a, i)
      invariant multiset(a[..]) == multiset(old(a[..]))
    {
      InsertDown(a, i);
      i := i + 1;
    }
  }

  /** One insertion step: moves `a[i]` down past every entry with a smaller key. */
  method InsertDown(a: array<Holding>, i: int)
    requires 0 < i < a.Length
    requires DescendingUpTo(a, i)
    modifies a
    ensures DescendingUpTo(a, i + 1)
    ensures multiset(a[..]) == multiset(old(a[..]))
  {
    var j := i;
    while j > 0 && Cmp(Key(a[j - 1]), Key(a[j])) < 0
      invariant 0 <= j <= i
      invariant DescendingApartFrom(a, i, j)
      invariant SmallerAfter(a, i, j)
      invariant multiset(a[..]) == multiset(old(a[..]))
    {
      SwapDown(a, i, j);
      j := j - 1;
    }
    InsertedInPlace(a, i, j);
  }

  /** Entries `0..i` are descending once the one at position `j` is set aside. */
  ghost predicate DescendingApartFrom(a: array<Holding>, i: int, j: int)
    reads a
  {
    forall k, l :: 0 <= k < l <= i && l < a.Length && k != j && l != j ==> Cmp(Key(a[l]), Key(a[k])) <= 0
  }

  /** Every entry after position `j`, up to `i`, has a smaller key than the one at `j`. */
  ghost predicate SmallerAfter(a: array<Holding>, i: int, j: int)
    reads a
  {
    0 <= j < a.Length && forall l :: j < l <= i && l < a.Length ==> Cmp(Key(a[l]), Key(a[j])) < 0
  }

  /** Swaps the moving entry with the smaller one just before it. */
  method SwapDown(a: array<Holding>, i: int, j: int)
    requires 0 < j <= i < a.Length
    requires DescendingApartFrom(a, i, j) && SmallerAfter(a, i, j)
    requires Cmp(Key(a[j - 1]), Key(a[j])) < 0
    modifies a
    ensures DescendingApartFrom(a, i, j - 1) && SmallerAfter(a, i, j - 1)
    ensures multiset(a[..]) == multiset(old(a[..]))
  {
    ghost var before := a[..];
    a[j - 1], a[j] := a[j], a[j - 1];
    forall k, l | 0 <= k < l <= i && k != j - 1 && l != j - 1 ensures Cmp(Key(a[l]), Key(a[k])) <= 0 {
      var k', l' := if k == j then j - 1 else k, if l == j then j - 1 else l;
      assert a[k] == before[k'] && a[l] == before[l'];
    }
    forall l | j - 1 < l <= i ensures Cmp(Key(a[l]), Key(a[j - 1])) < 0 {
      assert a[j - 1] == before[j];
      if l > j { assert a[l] == before[l]; }
    }
  }

  /** When the moving entry stops, entries `0..i` are descending. */
  lemma InsertedInPlace(a: array<Holding>, i: int, j: int)
    requires 0 <= j <= i < a.Length
    requires DescendingApartFrom(a, i, j) && SmallerAfter(a, i, j)
    requires j > 0 ==> Cmp(Key(a[j - 1]), Key(a[j])) >= 0
    ensures DescendingUpTo(a, i + 1)
  {
    forall k, l | 0 <= k < l <= i ensures Cmp(Key(a[l]), Key(a[k])) <= 0 {
      if l == j {
        CmpAntisymmetric(Key(a[j - 1]), Key(a[j]));
        if k < j - 1 {
          CmpTransitive(Key(a[j]), Key(a[j - 1]), Key(a[k]));
        }
      }
    }
  }
}
