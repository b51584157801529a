/**
 * The badge catalogue screen's view model: the loaded catalogue, the
 * badge selected for the detail dialog, a points-range filter and the
 * categories read off the badge names ("Eco-Detective" is in "Eco").
 */
module BadgeViewModel {
  import opened Wrappers
  import opened Models
  import opened Lists

  const GeneralCategory: string := "Generale"

  predicate IsDelimiter(c: char)
  {
    c == '-' || c == ' '
  }

  predicate HasDelimiter(s: string)
  {
    exists i :: 0 <= i < |s| && IsDelimiter(s[i])
  }

  /** The position of the first '-' or ' ' of `s`. */
  function FirstDelimiter(s: string): (i: nat)
    requires HasDelimiter(s)
    ensures i < |s| && IsDelimiter(s[i])
    ensures forall j :: 0 <= j < i ==> !IsDelimiter(s[j])
    decreases |s|
  {
    if IsDelimiter(s[0]) then 0
    else
      assert HasDelimiter(s[1..]) by {
        var i :| 0 <= i < |s| && IsDelimiter(s[i]);
        assert s[1..][i - 1] == s[i];
      }
      1 + FirstDelimiter(s[1..])
  }

  /** `s.split("-", " ")`: the pieces between delimiters, empty pieces included. */
  function Split(s: string): (parts: seq<string>)
    ensures |parts| >= 1
    decreases |s|
  {
    if s == [] then [""]
    else
      var rest := Split(s[1..]);
      if IsDelimiter(s[0]) then [""] + rest else [[s[0]] + rest[0]] + rest[1..]
  }

  /** There is more than one piece exactly when the name holds a delimiter. */
  lemma {:induction false} SplitHasSeveralPartsIffDelimiter(s: string)
    ensures |Split(s)| > 1 <==> HasDelimiter(s)
    decreases |s|
  {
    if s != [] {
      SplitHasSeveralPartsIffDelimiter(s[1..]);
      if HasDelimiter(s[1..]) {
        var i :| 0 <= i < |s[1..]| && IsDelimiter(s[1..][i]);
        assert IsDelimiter(s[i + 1]);
      }
      if HasDelimiter(s) && !IsDelimiter(s[0]) {
        var i :| 0 <= i < |s| && IsDelimiter(s[i]);
        assert IsDelimiter(s[1..][i - 1]);
      }
    }
  }

  /** The first piece is the text before the first delimiter (all of it if there is none). */
  lemma {:induction false} SplitFirstPart(s: string)
    ensures HasDelimiter(s) ==> Split(s)[0] == s[..FirstDelimiter(s)]
    ensures !HasDelimiter(s) ==> Split(s)[0] == s
    decreases |s|
  {
    if s != [] && !IsDelimiter(s[0]) {
      var t := s[1..];
      SplitFirstPart(t);
      assert Split(s)[0] == [s[0]] + Split(t)[0];
      DelimiterInTail(s);
      if HasDelimiter(t) {
        var i := FirstDelimiter(t);
        assert FirstDelimiter(s) == i + 1;
        assert s[..i + 1] == [s[0]] + t[..i];
      } else {
        assert s == [s[0]] + t;
      }
    }
  }

  /** A name that does not start with a delimiter has one exactly when its tail has one. */
  lemma DelimiterInTail(s: string)
    requires s != [] && !IsDelimiter(s[0])
    ensures HasDelimiter(s) <==> HasDelimiter(s[1..])
  {
    if HasDelimiter(s[1..]) {
      var i :| 0 <= i < |s[1..]| && IsDelimiter(s[1..][i]);
      assert IsDelimiter(s[i + 1]);
    }
    if HasDelimiter(s) {
      var i :| 0 <= i < |s| && IsDelimiter(s[i]);
      assert IsDelimiter(s[1..][i - 1]);
    }
  }

  /**
   * Kotlin's `String.length`: the number of UTF-16 code units, so a
   * character outside the Basic Multilingual Plane (an emoji) counts twice.
   */
  function Utf16Length(s: string): (n: nat)
    ensures |s| <= n <= 2 * |s|
    ensures (forall i :: 0 <= i < |s| ==> (s[i] as int) < 0x1_0000) ==> n == |s|
    decreases |s|
  {
    if s == [] then 0 else (if (s[0] as int) >= 0x1_0000 then 2 else 1) + Utf16Length(s[1..])
  }

  /**
   * `extractCategory`: the text before the first '-' or ' ' when the name
   * has one and that text is longer than two UTF-16 units, else "Generale".
   */
  function ExtractCategory(badgeName: string): (category: string)
    ensures HasDelimiter(badgeName) && Utf16Length(badgeName[..FirstDelimiter(badgeName)]) > 2 ==>
      category == badgeName[..FirstDelimiter(badgeName)]
    ensures !(HasDelimiter(badgeName) && Utf16Length(badgeName[..FirstDelimiter(badgeName)]) > 2) ==>
      category == GeneralCategory
    ensures category != GeneralCategory ==>
      && Utf16Length(category) > 2 && 0 < |category| < |badgeName|
      && category == badgeName[..|category|] && IsDelimiter(badgeName[|category|])
  {
    var parts := Split(badgeName);
    SplitHasSeveralPartsIffDelimiter(badgeName);
    SplitFirstPart(badgeName);
    if |parts| > 1 && Utf16Length(parts[0]) > 2 then parts[0] else GeneralCategory
  }

  lemma ExtractCategoryWithPrefix()
    ensures ExtractCategory("Eco-Detective") == "Eco"
  {
    assert IsDelimiter("Eco-Detective"[3]);
    assert FirstDelimiter("Eco-Detective") == 3;
  }

  lemma ExtractCategoryWithoutDelimiter()
    ensures ExtractCategory("Riciclatore") == GeneralCategory
  {
    assert !HasDelimiter("Riciclatore");
  }

  lemma ExtractCategoryShortPrefix()
    ensures ExtractCategory("Re Verde") == GeneralCategory
  {
    assert IsDelimiter("Re Verde"[2]);
    assert FirstDelimiter("Re Verde") == 2;
  }

  /** Two emoji before the dash are four UTF-16 units, so they make a category of their own. */
  lemma ExtractCategoryEmojiPrefix()
    ensures ExtractCategory("\U{1F30D}\U{1F331}-Verde") == "\U{1F30D}\U{1F331}"
  {
    var name := "\U{1F30D}\U{1F331}-Verde";
    assert IsDelimiter(name[2]);
    assert FirstDelimiter(name) == 2;
    assert name[..2] == "\U{1F30D}\U{1F331}";
  }

  function Categories(badges: seq<Badge>): (cs: seq<string>)
    ensures |cs| == |badges|
    ensures forall i :: 0 <= i < |badges| ==> cs[i] == ExtractCategory(badges[i].name)
    decreases |badges|
  {
    if badges == [] then [] else [ExtractCategory(badges[0].name)] + Categories(badges[1..])
  }

  predicate InRequiredRange(range: (int, int), b: Badge)
  {
    range.0 <= b.pointsRequired <= range.1
  }

  class BadgeViewModel {
    var badges: seq<Badge>
    var selectedBadge: Option<Badge>
    var isLoading: bool
    var error: Option<string>

    /** The initial `BadgesUiState`. */
    constructor ()
      ensures badges == [] && selectedBadge == None && !isLoading && error == None
    {
      badges := [];
      selectedBadge := None;
      isLoading := false;
      error := None;
    }

    method SelectBadge(badge: Badge)
      modifies this
      ensures selectedBadge == Some(badge)
      ensures badges == old(badges) && isLoading == old(isLoading) && error == old(error)
    {
      selectedBadge := Some(badge);
    }

    method ClearSelectedBadge()
      modifies this
      ensures selectedBadge == None
      ensures badges == old(badges) && isLoading == old(isLoading) && error == old(error)
    {
      selectedBadge := None;
    }

    /**
     * `filterBadgesByRequiredPoints`: exactly the badges whose threshold lies
     * in `minPoints..maxPoints`, cheapest first (stably, see the lemma below).
     */
    function FilterBadgesByRequiredPoints(minPoints: int, maxPoints: int): (r: seq<Badge>)
      reads this
      ensures forall b :: b in r <==> b in badges && minPoints <= b.pointsRequired <= maxPoints
      ensures SortedByKey(r, PointsRequired)
      ensures multiset(r) == multiset(Filter(badges, (minPoints, maxPoints), InRequiredRange))
      ensures minPoints > maxPoints ==> r == []
    {
      var f := Filter(badges, (minPoints, maxPoints), InRequiredRange);
      SortByKeySameMembers(f, PointsRequired);
      assert minPoints > maxPoints ==> f == [] by {
        if minPoints > maxPoints {
          FilterNothingPasses(badges, (minPoints, maxPoints), InRequiredRange);
        }
      }
      SortByKey(f, PointsRequired)
    }

    /** `getBadgeCategories`: each badge's category once, in order of first appearance. */
    function GetBadgeCategories(): (r: seq<string>)
      reads this
      ensures NoDuplicates(r)
      ensures forall c :: c in r <==> c in Categories(badges)
      ensures forall c :: c in r <==> exists b :: b in badges && ExtractCategory(b.name) == c
      ensures forall i, j :: 0 <= i < j < |r| ==>
        FirstIndex(Categories(badges), r[i]) < FirstIndex(Categories(badges), r[j])
    {
      var cs := Categories(badges);
      DistinctFirstOccurrenceOrder(cs);
      assert forall c :: c in cs <==> exists b :: b in badges && ExtractCategory(b.name) == c by {
        forall c | c in cs ensures exists b :: b in badges && ExtractCategory(b.name) == c {
          var i :| 0 <= i < |cs| && cs[i] == c;
          assert badges[i] in badges;
        }
        forall b | b in badges ensures ExtractCategory(b.name) in cs {
          var i :| 0 <= i < |badges| && badges[i] == b;
          assert cs[i] == ExtractCategory(b.name);
        }
      }
      Distinct(cs)
    }
  }

  /** Badges with the same threshold are listed in catalogue order. */
  lemma FilterKeepsCatalogueOrderOnTies(vm: BadgeViewModel, minPoints: int, maxPoints: int, k: int)
    ensures WithKey(vm.FilterBadgesByRequiredPoints(minPoints, maxPoints), PointsRequired, k)
         == WithKey(Filter(vm.badges, (minPoints, maxPoints), InRequiredRange), PointsRequired, k)
  {
    SortByKeyStable(Filter(vm.badges, (minPoints, maxPoints), InRequiredRange), PointsRequired, k);
  }
}
