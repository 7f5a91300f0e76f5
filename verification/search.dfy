/**
 * The Flux Hub search: `apps.filter(app =>
 * app.name.toLowerCase().includes(searchQuery.toLowerCase()))`.
 */
module Search {
  import opened Text
  import opened Catalogue

  /** Whether one app survives the query: a case-insensitive substring match on its name. */
  predicate Matches(app: AppIcon, query: string) {
    Contains(Lower(app.name), Lower(query))
  }

  /** `sub` is `s` with some elements dropped and the rest kept in order. */
  predicate IsSubsequence<T(==)>(sub: seq<T>, s: seq<T>)
    decreases |s|
  {
    if sub == [] then true
    else if s == [] then false
    else (sub[0] == s[0] && IsSubsequence(sub[1..], s[1..])) || IsSubsequence(sub, s[1..])
  }

  /** The apps that match, in catalogue order. */
  function FilteredApps(apps: seq<AppIcon>, query: string): (r: seq<AppIcon>)
    ensures |r| <= |apps|
    ensures forall a :: a in r ==> a in apps && Matches(a, query)
    ensures forall a :: a in apps && Matches(a, query) ==> a in r
  {
    if apps == [] then []
    else if Matches(apps[0], query) then [apps[0]] + FilteredApps(apps[1..], query)
    else FilteredApps(apps[1..], query)
  }

  /** A matching app is kept as many times as it occurs in the input; any other app not at all. */
  lemma {:induction false} FilteredCounts(apps: seq<AppIcon>, query: string, a: AppIcon)
    ensures multiset(FilteredApps(apps, query))[a] == if Matches(a, query) then multiset(apps)[a] else 0
    decreases |apps|
  {
    if apps != [] {
      FilteredCounts(apps[1..], query, a);
      assert apps == [apps[0]] + apps[1..];
    }
  }

  /** The filter keeps catalogue order: its result is a subsequence of its input. */
  lemma {:induction false} FilteredIsSubsequence(apps: seq<AppIcon>, query: string)
    ensures IsSubsequence(FilteredApps(apps, query), apps)
    decreases |apps|
  {
    if apps != [] {
      FilteredIsSubsequence(apps[1..], query);
      var r := FilteredApps(apps, query);
      if Matches(apps[0], query) {
        assert r[0] == apps[0] && r[1..] == FilteredApps(apps[1..], query);
      }
    }
  }

  /** An app is dropped exactly when its lower-cased name does not contain the lower-cased query. */
  lemma DroppedIffNoMatch(apps: seq<AppIcon>, query: string, i: int)
    requires 0 <= i < |apps|
    ensures apps[i] !in FilteredApps(apps, query) <==> !Contains(Lower(apps[i].name), Lower(query))
  {
  }

  /** A query longer than an app's name drops that app: every kept name is at least as long as the query. */
  lemma KeptNameNotShorter(apps: seq<AppIcon>, query: string, a: AppIcon)
    requires a in FilteredApps(apps, query)
    ensures |query| <= |a.name|
  {
    ContainsLength(Lower(a.name), Lower(query));
  }

  /** The empty query keeps every app. */
  lemma {:induction false} EmptyQueryKeepsAll(apps: seq<AppIcon>)
    ensures FilteredApps(apps, "") == apps
    decreases |apps|
  {
    if apps != [] {
      EmptyContained(Lower(apps[0].name));
      EmptyQueryKeepsAll(apps[1..]);
      assert [apps[0]] + apps[1..] == apps;
    }
  }

  /** The search is case-insensitive: lower-casing the query first changes nothing. */
  lemma {:induction false} QueryCaseInsensitive(apps: seq<AppIcon>, query: string)
    ensures FilteredApps(apps, Lower(query)) == FilteredApps(apps, query)
    decreases |apps|
  {
    LowerIdempotent(query);
    if apps != [] {
      QueryCaseInsensitive(apps[1..], query);
    }
  }

  /** A longer query keeps no app that a shorter query it extends dropped. */
  lemma {:induction false} NarrowingQuery(apps: seq<AppIcon>, query: string, more: string)
    ensures IsSubsequence(FilteredApps(apps, query + more), FilteredApps(apps, query))
    decreases |apps|
  {
    if apps != [] {
      NarrowingQuery(apps[1..], query, more);
      var name := Lower(apps[0].name);
      if Matches(apps[0], query + more) {
        ContainsPrefix(name, query, more);
      }
      var wide := FilteredApps(apps, query);
      var narrow := FilteredApps(apps, query + more);
      if Matches(apps[0], query + more) {
        assert narrow[0] == apps[0] && narrow[1..] == FilteredApps(apps[1..], query + more);
        assert wide[0] == apps[0] && wide[1..] == FilteredApps(apps[1..], query);
      } else if Matches(apps[0], query) {
        assert wide[0] == apps[0] && wide[1..] == FilteredApps(apps[1..], query);
        SubsequenceOfTail(narrow, wide);
      }
    }
  }

  /** Lower-casing distributes over concatenation. */
  lemma LowerAppend(a: string, b: string)
    ensures Lower(a + b) == Lower(a) + Lower(b)
  {
  }

  /** If `hay` contains `a + b` (lower-cased) it contains `a` (lower-cased). */
  lemma ContainsPrefix(hay: string, a: string, b: string)
    requires Contains(hay, Lower(a + b))
    ensures Contains(hay, Lower(a))
  {
    LowerAppend(a, b);
    var i :| 0 <= i <= |hay| && OccursAt(hay, Lower(a) + Lower(b), i);
    assert hay[i..i + |Lower(a)|] == (hay[i..i + |Lower(a) + Lower(b)|])[..|Lower(a)|];
    assert OccursAt(hay, Lower(a), i);
  }

  /** A subsequence of the tail of `s` is a subsequence of `s`. */
  lemma {:induction false} SubsequenceOfTail<T>(sub: seq<T>, s: seq<T>)
    requires s != [] && IsSubsequence(sub, s[1..])
    ensures IsSubsequence(sub, s)
  {
  }
}
