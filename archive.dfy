/**
 * The archive list: a keyword search over each profile's name and place, then one of two orders,
 * newest first or earliest birth first. Building a date from the solar birth components belongs
 * to the calendar, so it is given as a function; a date it cannot build sorts as the earliest.
 */
module Archive {
  import opened Wrappers
  import opened Text
  import opened Sorting
  import opened ProfileModels

  /** `ArchiveView.SortOption`. */
  datatype SortOption = CreatedAtDesc | BirthTimeAsc

  /** `Date.distantPast`, in seconds since 2001-01-01. */
  const DistantPast: int := -63114076800

  /** The text the keyword is looked for in: name, province, city and district. */
  function Haystack(p: UserProfile): string {
    Join([p.name, p.location.province, p.location.city, p.location.district], " ")
  }

  predicate Matches(p: UserProfile, keyword: string) {
    Contains(Haystack(p), keyword)
  }

  /** The profiles that match, in their order. */
  function KeepMatching(profiles: seq<UserProfile>, keyword: string): seq<UserProfile> {
    if profiles == [] then []
    else
      var rest := KeepMatching(profiles[..|profiles| - 1], keyword);
      var last := profiles[|profiles| - 1];
      if Matches(last, keyword) then rest + [last] else rest
  }

  /** `filteredProfiles`. */
  function FilteredProfiles(profiles: seq<UserProfile>, searchText: string): seq<UserProfile> {
    var keyword := TrimWhite(searchText);
    if keyword == [] then profiles else KeepMatching(profiles, keyword)
  }

  /** `a` is `b` with some elements left out, the rest in order. */
  predicate IsSubsequence<T(==)>(a: seq<T>, b: seq<T>)
    decreases |b|
  {
    || a == []
    || (&& b != []
        && (|| IsSubsequence(a, b[..|b| - 1])
            || (a[|a| - 1] == b[|b| - 1] && IsSubsequence(a[..|a| - 1], b[..|b| - 1]))))
  }

  /** Only matching profiles are kept, every matching one is, and their order is the archive's. */
  lemma {:induction false} KeepMatchingMeaning(profiles: seq<UserProfile>, keyword: string)
    ensures forall p :: p in KeepMatching(profiles, keyword) <==> p in profiles && Matches(p, keyword)
    ensures IsSubsequence(KeepMatching(profiles, keyword), profiles)
  {
    if profiles != [] {
      var init := profiles[..|profiles| - 1];
      var last := profiles[|profiles| - 1];
      KeepMatchingMeaning(init, keyword);
      assert profiles == init + [last];
      var rest := KeepMatching(init, keyword);
      if Matches(last, keyword) {
        assert (rest + [last])[..|rest + [last]| - 1] == rest;
      }
    }
  }

  /**
   * A blank search shows the archive unchanged; any other shows, in the archive's order, exactly
   * the profiles whose name or place holds the trimmed keyword.
   */
  lemma FilteredProfilesMeaning(profiles: seq<UserProfile>, searchText: string)
    ensures AllWhite(searchText) ==> FilteredProfiles(profiles, searchText) == profiles
    ensures !AllWhite(searchText) ==>
      && IsSubsequence(FilteredProfiles(profiles, searchText), profiles)
      && forall p :: p in FilteredProfiles(profiles, searchText) <==> p in profiles && Matches(p, TrimWhite(searchText))
  {
    TrimWhiteEmpty(searchText);
    KeepMatchingMeaning(profiles, TrimWhite(searchText));
  }

  /** A profile whose name holds the keyword matches it. */
  lemma NameMatches(p: UserProfile, keyword: string)
    requires Contains(p.name, keyword)
    ensures Matches(p, keyword)
  {
    var rest := [p.location.province, p.location.city, p.location.district];
    assert [p.name, p.location.province, p.location.city, p.location.district][1..] == rest;
    ContainsLeft(p.name, " " + Join(rest, " "), keyword);
    assert Haystack(p) == p.name + (" " + Join(rest, " "));
  }

  /** The solar birth date as the sort compares it: `distantPast` for one that cannot be built. */
  function BirthKey(build: DateComponents -> Option<int>, p: UserProfile): int {
    match build(p.birthInfo.solar)
    case Some(t) => t
    case None => DistantPast
  }

  /** `sortedProfiles`' comparators. */
  function Comparator(option: SortOption, build: DateComponents -> Option<int>): (UserProfile, UserProfile) -> bool {
    match option
    case CreatedAtDesc => (a: UserProfile, b: UserProfile) => a.createdAt > b.createdAt
    case BirthTimeAsc => (a: UserProfile, b: UserProfile) => BirthKey(build, a) < BirthKey(build, b)
  }

  /** `sortedProfiles(from:)`. */
  function SortedProfiles(profiles: seq<UserProfile>, option: SortOption, build: DateComponents -> Option<int>): seq<UserProfile> {
    Sort(profiles, Comparator(option, build))
  }

  lemma ComparatorStrict(option: SortOption, build: DateComponents -> Option<int>)
    ensures StrictOrder(Comparator(option, build))
  {
  }

  /**
   * Either order keeps every profile as often as it was there. Newest first never puts a profile
   * after a later-created one; earliest birth first never puts one after an earlier-born one, and a
   * profile whose date cannot be built comes after none dated later than `distantPast`.
   */
  lemma SortedProfilesMeaning(profiles: seq<UserProfile>, option: SortOption, build: DateComponents -> Option<int>)
    ensures multiset(SortedProfiles(profiles, option, build)) == multiset(profiles)
    ensures option == CreatedAtDesc ==> var s := SortedProfiles(profiles, option, build);
      forall i, j :: 0 <= i < j < |s| ==> s[i].createdAt >= s[j].createdAt
    ensures option == BirthTimeAsc ==> var s := SortedProfiles(profiles, option, build);
      forall i, j :: 0 <= i < j < |s| ==> BirthKey(build, s[i]) <= BirthKey(build, s[j])
    ensures option == BirthTimeAsc ==> var s := SortedProfiles(profiles, option, build);
      forall i, j :: 0 <= i < j < |s| && build(s[j].birthInfo.solar).None? ==> BirthKey(build, s[i]) <= DistantPast
  {
    var lt := Comparator(option, build);
    ComparatorStrict(option, build);
    SortSorted(profiles, lt);
  }
}
