/** The failed-startup catalogue helpers (a model of `src/lib/supabase.ts`). Fetching the
    catalogue over the network is not modelled: the records are an input. */
module Startups {
  import opened Wrappers
  import opened Seqs
  import opened Text

  /** A catalogue record. An empty `category` or `sector` stands for a missing or empty one
      (every use of them tests truthiness); a missing or zero `moneyBurnedRaw` is `None`. */
  datatype FailedStartup = FailedStartup(
    id: string,
    name: string,
    description: string,
    category: string,
    yearDied: int,
    moneyBurned: string,
    moneyBurnedRaw: Option<int>,
    failureReason: Option<string>,
    sector: string)

  // ---------------------------------------------------------------------------------------
  // searchFailedStartups

  predicate MatchesQuery(s: FailedStartup, lowerQuery: string) {
    || Contains(Lower(s.name), lowerQuery)
    || Contains(Lower(s.description), lowerQuery)
    || (s.category != "" && Contains(Lower(s.category), lowerQuery))
    || (s.sector != "" && Contains(Lower(s.sector), lowerQuery))
  }

  function Search(lowerQuery: string, startups: seq<FailedStartup>): seq<FailedStartup> {
    if startups == [] then []
    else (if MatchesQuery(startups[0], lowerQuery) then [startups[0]] else []) + Search(lowerQuery, startups[1..])
  }

  /** `searchFailedStartups`: the records matching the lower-cased query, in input order. */
  function SearchFailedStartups(query: string, startups: seq<FailedStartup>): seq<FailedStartup> {
    Search(Lower(query), startups)
  }

  /** The search keeps exactly the matching records, as a subsequence of the input. */
  lemma {:induction false} SearchMeaning(lowerQuery: string, startups: seq<FailedStartup>)
    ensures IsSubsequence(Search(lowerQuery, startups), startups)
    ensures forall s :: s in Search(lowerQuery, startups) <==> s in startups && MatchesQuery(s, lowerQuery)
  {
    if startups != [] {
      SearchMeaning(lowerQuery, startups[1..]);
      var rest := Search(lowerQuery, startups[1..]);
      assert startups == [startups[0]] + startups[1..];
      if MatchesQuery(startups[0], lowerQuery) {
        assert Search(lowerQuery, startups) == [startups[0]] + rest;
        assert ([startups[0]] + rest)[1..] == rest;
      } else {
        assert Search(lowerQuery, startups) == rest;
        SubsequenceCons(rest, startups[1..], startups[0]);
      }
    }
  }

  /** Every record contains the empty string, so an empty query keeps the whole list. */
  lemma {:induction false} EmptyQueryKeepsAll(startups: seq<FailedStartup>)
    ensures SearchFailedStartups("", startups) == startups
  {
    if startups != [] {
      assert OccursAt(Lower(startups[0].name), "", 0);
      EmptyQueryKeepsAll(startups[1..]);
      assert startups == [startups[0]] + startups[1..];
    }
  }

  // ---------------------------------------------------------------------------------------
  // getCategories

  /** The order `Array.prototype.sort` uses on strings: by character code, a proper prefix first. */
  predicate LexLess(a: string, b: string) {
    if a == [] then b != []
    else if b == [] then false
    else if a[0] != b[0] then a[0] < b[0]
    else LexLess(a[1..], b[1..])
  }

  lemma {:induction false} LexLessIrreflexive(a: string)
    ensures !LexLess(a, a)
  {
    if a != [] { LexLessIrreflexive(a[1..]); }
  }

  lemma {:induction false} LexLessTransitive(a: string, b: string, c: string)
    requires LexLess(a, b) && LexLess(b, c)
    ensures LexLess(a, c)
  {
    if a != [] && b != [] && c != [] && a[0] == b[0] && b[0] == c[0] {
      LexLessTransitive(a[1..], b[1..], c[1..]);
    }
  }

  lemma {:induction false} LexLessTotal(a: string, b: string)
    requires a != b
    ensures LexLess(a, b) || LexLess(b, a)
  {
    if a != [] && b != [] && a[0] == b[0] {
      assert a == [a[0]] + a[1..] && b == [b[0]] + b[1..];
      LexLessTotal(a[1..], b[1..]);
    }
  }

  predicate StrictlySorted(xs: seq<string>) {
    forall i, j :: 0 <= i < j < |xs| ==> LexLess(xs[i], xs[j])
  }

  /** The non-empty categories and sectors of the records. */
  function Categories(startups: seq<FailedStartup>): set<string> {
    if startups == [] then {}
    else
      (if startups[0].category != "" then {startups[0].category} else {})
      + (if startups[0].sector != "" then {startups[0].sector} else {})
      + Categories(startups[1..])
  }

  predicate IsLeast(m: string, s: set<string>) {
    m in s && forall x :: x in s && x != m ==> LexLess(m, x)
  }

  /** A least element of a finite non-empty set of strings. */
  lemma {:induction false} LeastExists(s: set<string>)
    requires s != {}
    ensures exists m :: IsLeast(m, s)
    decreases |s|
  {
    var y :| y in s;
    var rest := s - {y};
    if rest == {} {
      assert s == {y};
      assert IsLeast(y, s);
    } else {
      LeastExists(rest);
      var m :| IsLeast(m, rest);
      LexLessTotal(m, y);
      if LexLess(y, m) {
        forall x | x in s && x != y ensures LexLess(y, x) {
          if x != m { LexLessTransitive(y, m, x); }
        }
        assert IsLeast(y, s);
      } else {
        assert IsLeast(m, s);
      }
    }
  }

  /** `getCategories`: collects the non-empty categories and sectors in a set, then lists
      them in sorted order. */
  method GetCategories(startups: seq<FailedStartup>) returns (r: seq<string>)
    ensures StrictlySorted(r)
    ensures forall c :: c in r <==> c in Categories(startups)
    ensures "" !in r
  {
    var categories: set<string> := {};
    for i := 0 to |startups|
      invariant categories + Categories(startups[i..]) == Categories(startups)
    {
      assert startups[i..] == [startups[i]] + startups[i + 1..];
      if startups[i].category != "" {
        categories := categories + {startups[i].category};
      }
      if startups[i].sector != "" {
        categories := categories + {startups[i].sector};
      }
    }
    assert startups[|startups|..] == [];
    NoEmptyCategory(startups);
    r := [];
    var remaining := categories;
    while remaining != {}
      invariant remaining <= categories
      invariant forall c :: c in r <==> c in categories - remaining
      invariant StrictlySorted(r)
      invariant forall a, b :: a in r && b in remaining ==> LexLess(a, b)
      decreases |remaining|
    {
      LeastExists(remaining);
      var m :| IsLeast(m, remaining);
      r := r + [m];
      remaining := remaining - {m};
    }
  }

  lemma {:induction false} NoEmptyCategory(startups: seq<FailedStartup>)
    ensures "" !in Categories(startups)
  {
    if startups != [] { NoEmptyCategory(startups[1..]); }
  }

  // ---------------------------------------------------------------------------------------
  // calculateTotalBurned and formatMoney

  /** `money_burned_raw || 0` */
  function Burned(s: FailedStartup): int {
    s.moneyBurnedRaw.GetOr(0)
  }

  /** `calculateTotalBurned`: the reduce over the records, from 0. */
  function TotalBurned(startups: seq<FailedStartup>): int {
    if startups == [] then 0 else TotalBurned(startups[..|startups| - 1]) + Burned(startups[|startups| - 1])
  }

  /** The total of a concatenation is the sum of the totals. */
  lemma {:induction false} TotalBurnedAppend(a: seq<FailedStartup>, b: seq<FailedStartup>)
    ensures TotalBurned(a + b) == TotalBurned(a) + TotalBurned(b)
    decreases |b|
  {
    if b == [] {
      assert a + b == a;
    } else {
      assert (a + b)[..|a + b| - 1] == a + b[..|b| - 1];
      assert (a + b)[|a + b| - 1] == b[|b| - 1];
      TotalBurnedAppend(a, b[..|b| - 1]);
    }
  }

  /** Records with no recorded amount add nothing; non-negative amounts give a non-negative total. */
  lemma {:induction false} TotalBurnedBounds(startups: seq<FailedStartup>)
    ensures (forall s :: s in startups ==> s.moneyBurnedRaw.None?) ==> TotalBurned(startups) == 0
    ensures (forall s :: s in startups ==> Burned(s) >= 0) ==> TotalBurned(startups) >= 0
  {
    if startups != [] {
      TotalBurnedBounds(startups[..|startups| - 1]);
      assert forall s :: s in startups[..|startups| - 1] ==> s in startups;
    }
  }

  /** The unit `formatMoney` abbreviates an amount with. */
  datatype MoneyUnit = Billions | Millions | Thousands | Dollars

  function UnitRank(u: MoneyUnit): nat {
    match u
    case Dollars => 0
    case Thousands => 1
    case Millions => 2
    case Billions => 3
  }

  function MoneyUnitOf(amount: int): MoneyUnit {
    if amount >= 1_000_000_000 then Billions
    else if amount >= 1_000_000 then Millions
    else if amount >= 1_000 then Thousands
    else Dollars
  }

  /** The unit is the largest whose threshold the amount reaches, so a larger amount never gets
      a smaller unit. */
  lemma MoneyUnitThresholds(a: int, b: int)
    ensures MoneyUnitOf(a) == Billions <==> a >= 1_000_000_000
    ensures MoneyUnitOf(a) == Millions <==> 1_000_000 <= a < 1_000_000_000
    ensures MoneyUnitOf(a) == Thousands <==> 1_000 <= a < 1_000_000
    ensures MoneyUnitOf(a) == Dollars <==> a < 1_000
    ensures a <= b ==> UnitRank(MoneyUnitOf(a)) <= UnitRank(MoneyUnitOf(b))
  {
  }
}
