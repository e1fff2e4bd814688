/** The pure parts of the catalogue page (App.tsx): the service filter, the language toggle and the status styles. */
module Catalog {
  import opened Types
  import opened Text

  /** The category selection that imposes no restriction. */
  const AllCategories: string := "all"
  /** The location selection that imposes no restriction. */
  const AllAreas: string := "All Areas"

  /** The three filter inputs the page holds: category, free-text query and location. */
  datatype Filters = Filters(category: string, query: string, location: string)

  /** The filter state on first render and after "clear filters". */
  const Unrestricted: Filters := Filters(AllCategories, "", AllAreas)

  predicate MatchesCategory(s: ServiceItem, category: string) {
    category == AllCategories || s.categoryId == category
  }

  /** English fields are compared lower-cased; Bengali fields are compared as typed. */
  predicate MatchesSearch(s: ServiceItem, query: string) {
    var term := Lower(query);
    Contains(Lower(s.name), term) ||
    Contains(s.nameBn, query) ||
    Contains(Lower(s.description), term) ||
    Contains(s.descriptionBn, query)
  }

  /** The English half of the search test: a lower-cased name or description contains the lower-cased query. */
  predicate MatchesEnglish(s: ServiceItem, query: string) {
    Contains(Lower(s.name), Lower(query)) || Contains(Lower(s.description), Lower(query))
  }

  /** The simulated location test: a case-sensitive substring of either description. */
  predicate MatchesLocation(s: ServiceItem, location: string) {
    location == AllAreas ||
    Contains(s.description, location) ||
    Contains(s.descriptionBn, location)
  }

  predicate Matches(s: ServiceItem, f: Filters) {
    MatchesCategory(s, f.category) && MatchesSearch(s, f.query) && MatchesLocation(s, f.location)
  }

  /** `SERVICES.filter(...)`: the services that pass all three tests, in catalogue order. */
  function Visible(services: seq<ServiceItem>, f: Filters): seq<ServiceItem> {
    if services == [] then []
    else if Matches(services[0], f) then [services[0]] + Visible(services[1..], f)
    else Visible(services[1..], f)
  }

  /** `r` can be obtained from `s` by deleting elements. */
  predicate IsSubsequence<T(==)>(r: seq<T>, s: seq<T>)
    decreases |s|
  {
    if r == [] then true
    else if s == [] then false
    else (r[0] == s[0] && IsSubsequence(r[1..], s[1..])) || IsSubsequence(r, s[1..])
  }

  /** The filtered list keeps catalogue order and invents nothing. */
  lemma {:induction false} VisibleIsSubsequence(services: seq<ServiceItem>, f: Filters)
    ensures IsSubsequence(Visible(services, f), services)
    ensures |Visible(services, f)| <= |services|
    decreases |services|
  {
    if services != [] {
      VisibleIsSubsequence(services[1..], f);
      var rest := Visible(services[1..], f);
      if Matches(services[0], f) {
        assert ([services[0]] + rest)[1..] == rest;
      } else if rest != [] {
      }
    }
  }

  /** Filtering works service by service: it distributes over concatenation, so catalogue order is kept. */
  lemma {:induction false} VisibleAppend(a: seq<ServiceItem>, b: seq<ServiceItem>, f: Filters)
    ensures Visible(a + b, f) == Visible(a, f) + Visible(b, f)
    decreases |a|
  {
    if a == [] {
      assert a + b == b;
    } else {
      VisibleAppend(a[1..], b, f);
      assert (a + b)[1..] == a[1..] + b;
    }
  }

  /** A single service is listed exactly when it passes all three tests. */
  lemma VisibleSingle(s: ServiceItem, f: Filters)
    ensures Visible([s], f) == if Matches(s, f) then [s] else []
  {
    assert [s][1..] == [];
  }

  /** A service is listed exactly when it is in the catalogue and passes all three tests. */
  lemma {:induction false} VisibleMembership(services: seq<ServiceItem>, f: Filters, s: ServiceItem)
    ensures s in Visible(services, f) <==> s in services && Matches(s, f)
    decreases |services|
  {
    if services != [] {
      VisibleMembership(services[1..], f, s);
      assert services == [services[0]] + services[1..];
    }
  }

  /** A service passing all three tests is kept at every position it occupies. */
  lemma {:induction false} VisibleKeepsAllWhenAllMatch(services: seq<ServiceItem>, f: Filters)
    requires forall i :: 0 <= i < |services| ==> Matches(services[i], f)
    ensures Visible(services, f) == services
    decreases |services|
  {
    if services != [] {
      VisibleKeepsAllWhenAllMatch(services[1..], f);
      assert services == [services[0]] + services[1..];
    }
  }

  /** With no category, an empty query and "All Areas", the whole catalogue is listed. */
  lemma UnrestrictedShowsAll(services: seq<ServiceItem>)
    ensures Visible(services, Unrestricted) == services
  {
    forall i | 0 <= i < |services| ensures Matches(services[i], Unrestricted) {
      EmptyQueryMatches(services[i]);
    }
    VisibleKeepsAllWhenAllMatch(services, Unrestricted);
  }

  /** A named category lets through only services of that category. */
  lemma VisibleCategoryExact(services: seq<ServiceItem>, f: Filters)
    requires f.category != AllCategories
    ensures forall s :: s in Visible(services, f) ==> s.categoryId == f.category
  {
    forall s | s in Visible(services, f) ensures s.categoryId == f.category {
      VisibleMembership(services, f, s);
    }
  }

  /** A location other than "All Areas" lets through only services whose descriptions mention it verbatim. */
  lemma VisibleLocationMentioned(services: seq<ServiceItem>, f: Filters)
    requires f.location != AllAreas
    ensures forall s :: s in Visible(services, f) ==>
              Contains(s.description, f.location) || Contains(s.descriptionBn, f.location)
  {
    forall s | s in Visible(services, f)
      ensures Contains(s.description, f.location) || Contains(s.descriptionBn, f.location)
    {
      VisibleMembership(services, f, s);
    }
  }

  /** The empty query matches every service. */
  lemma EmptyQueryMatches(s: ServiceItem)
    ensures MatchesSearch(s, "")
  {
    assert Lower("") == "";
    ContainsEmpty(Lower(s.name));
  }

  /**
   * The English half of the search depends only on the lower-cased query: two queries
   * that lower-case alike match the same services there, and an English match is a
   * search match for either of them, the already lower-cased query included.
   */
  lemma EnglishMatchIgnoresQueryCase(s: ServiceItem, q1: string, q2: string)
    requires Lower(q1) == Lower(q2)
    ensures MatchesEnglish(s, q1) <==> MatchesEnglish(s, q2)
    ensures MatchesEnglish(s, q1) ==> MatchesSearch(s, q2) && MatchesSearch(s, Lower(q1))
  {
    LowerIdempotent(q1);
  }

  /** The Bengali comparison is on the raw query. */
  lemma SearchMatchesRawBengali(s: ServiceItem, query: string)
    requires Contains(s.nameBn, query) || Contains(s.descriptionBn, query)
    ensures MatchesSearch(s, query)
  {
  }

  /** `toggleLanguage`: en becomes bn and bn becomes en. */
  function ToggleLanguage(lang: Language): (r: Language)
    ensures r != lang
  {
    if lang == En then Bn else En
  }

  /** Toggling twice restores the language. */
  lemma ToggleTwice(lang: Language)
    ensures ToggleLanguage(ToggleLanguage(lang)) == lang
  {
  }

  /** `getStatusColor`: the badge classes for a booking status. */
  function StatusColor(status: BookingStatus): string {
    match status
    case Completed => "bg-green-100 text-green-700 border-green-200"
    case Pending => "bg-yellow-100 text-yellow-700 border-yellow-200"
    case Scheduled => "bg-blue-100 text-blue-700 border-blue-200"
    case Cancelled => "bg-red-100 text-red-700 border-red-200"
  }

  /** Each status has its own style. */
  lemma StatusColorInjective(a: BookingStatus, b: BookingStatus)
    ensures StatusColor(a) == StatusColor(b) <==> a == b
  {
    if a != b {
      assert |StatusColor(a)| != |StatusColor(b)|;
    }
  }
}
