/**
 * Properties of the reference statement and parameter list of
 * `getAllProperties`: how many parameters there are and in which order,
 * which placeholder binds to which parameter, when the WHERE and HAVING
 * clauses appear, and that a falsy option is the same as a missing one.
 */
module PropertyQueryFacts {
  import opened Wrappers
  import Decimal
  import opened PropertyQuery

  /** Sources strictly ordered by rank: no repeats, builder order. */
  ghost predicate Ascending(xs: seq<Source>) {
    forall i, j :: 0 <= i < j < |xs| ==> Rank(xs[i]) < Rank(xs[j])
  }

  /** The one-element list [s] when the builder pushes for s, else []. */
  function IfPresent(o: SearchOptions, s: Source): seq<Source> {
    if Present(o, s) then [s] else []
  }

  /** How many of the five filters are truthy. */
  function FilterCount(o: SearchOptions): nat {
    (if TruthyText(o.city) then 1 else 0)
    + (if TruthyNumber(o.ownerId) then 1 else 0)
    + (if TruthyNumber(o.minimumPricePerNight) then 1 else 0)
    + (if TruthyNumber(o.maximumPricePerNight) then 1 else 0)
    + (if TruthyNumber(o.minimumRating) then 1 else 0)
  }

  /** Whether any of the four WHERE filters is truthy. */
  predicate AnyWhereFilter(o: SearchOptions) {
    TruthyText(o.city) || TruthyNumber(o.ownerId)
    || TruthyNumber(o.minimumPricePerNight) || TruthyNumber(o.maximumPricePerNight)
  }

  /** The options with every falsy field replaced by undefined. */
  function Normalize(o: SearchOptions): SearchOptions {
    SearchOptions(
      if TruthyText(o.city) then o.city else None,
      if TruthyNumber(o.ownerId) then o.ownerId else None,
      if TruthyNumber(o.minimumPricePerNight) then o.minimumPricePerNight else None,
      if TruthyNumber(o.maximumPricePerNight) then o.maximumPricePerNight else None,
      if TruthyNumber(o.minimumRating) then o.minimumRating else None)
  }

  // ---------------------------------------------------------------------------
  // The inputs

  /** JavaScript's falsy values among a field's values: undefined and "", or undefined and 0. */
  lemma FalsyValues(v: Option<string>, n: Option<nat>)
    ensures !TruthyText(v) <==> v == None || v == Some("")
    ensures !TruthyNumber(n) <==> n == None || n == Some(0)
  {
  }

  /** The limit is always pushed; a filter is pushed exactly when its field is truthy. */
  lemma PresentFields(o: SearchOptions)
    ensures Present(o, Limit)
    ensures Present(o, City) <==> o.city != None && o.city != Some("")
    ensures Present(o, OwnerId) <==> o.ownerId != None && o.ownerId != Some(0)
    ensures Present(o, MinimumPrice)
        <==> o.minimumPricePerNight != None && o.minimumPricePerNight != Some(0)
    ensures Present(o, MaximumPrice)
        <==> o.maximumPricePerNight != None && o.maximumPricePerNight != Some(0)
    ensures Present(o, MinimumRating) <==> o.minimumRating != None && o.minimumRating != Some(0)
  {
  }

  /** `limit = 10`: a given limit is used as it is, even a falsy 0; only undefined takes 10. */
  lemma LimitDefault(limit: Option<nat>)
    ensures limit.None? ==> EffectiveLimit(limit) == 10
    ensures limit.Some? ==> EffectiveLimit(limit) == limit.value
    ensures EffectiveLimit(Some(0)) == 0
  {
  }

  /**
   * The parameter pushed for each source: only the limit is a raw number; the
   * city is wrapped in `%`; every other filter is decimal text that reads back
   * as the field's value, prices multiplied by 100.
   */
  lemma ValueShape(o: SearchOptions, limit: nat, s: Source)
    requires Present(o, s)
    ensures Value(o, limit, s).Number? <==> s == Limit
    ensures s == Limit ==> Value(o, limit, s).n == limit
    ensures s == City ==> var t := Value(o, limit, s).text;
      |t| == |o.city.value| + 2 && t[0] == '%' && t[|t| - 1] == '%' && t[1..|t| - 1] == o.city.value
    ensures s == OwnerId ==> var t := Value(o, limit, s).text;
      Decimal.IsDigits(t) && Decimal.Parse(t) == o.ownerId.value
    ensures s == MinimumPrice ==> var t := Value(o, limit, s).text;
      Decimal.IsDigits(t) && Decimal.Parse(t) == 100 * o.minimumPricePerNight.value
    ensures s == MaximumPrice ==> var t := Value(o, limit, s).text;
      Decimal.IsDigits(t) && Decimal.Parse(t) == 100 * o.maximumPricePerNight.value
    ensures s == MinimumRating ==> var t := Value(o, limit, s).text;
      Decimal.IsDigits(t) && Decimal.Parse(t) == o.minimumRating.value
  {
    match s
    case City =>
      var t := Value(o, limit, s).text;
      assert t == "%" + o.city.value + "%";
      assert t[1..|t| - 1] == o.city.value;
    case OwnerId => Decimal.ParseShow(o.ownerId.value);
    case MinimumPrice => Decimal.ParseShow(o.minimumPricePerNight.value * 100);
    case MaximumPrice => Decimal.ParseShow(o.maximumPricePerNight.value * 100);
    case MinimumRating => Decimal.ParseShow(o.minimumRating.value);
    case Limit =>
  }

  // ---------------------------------------------------------------------------
  // Keeping the present sources

  lemma KeepSnoc(o: SearchOptions, xs: seq<Source>, x: Source)
    ensures Keep(o, xs + [x]) == Keep(o, xs) + IfPresent(o, x)
  {
    assert (xs + [x])[..|xs|] == xs;
  }

  lemma PushedSnoc(o: SearchOptions, limit: nat, xs: seq<Source>, x: Source)
    ensures Pushed(o, limit, xs + [x])
         == Pushed(o, limit, xs) + (if Present(o, x) then [Value(o, limit, x)] else [])
  {
    assert (xs + [x])[..|xs|] == xs;
  }

  /** Keep drops exactly the absent sources. */
  lemma {:induction false} KeepMembers(o: SearchOptions, xs: seq<Source>)
    ensures forall s :: s in Keep(o, xs) <==> s in xs && Present(o, s)
  {
    if xs != [] {
      var init := xs[..|xs| - 1];
      KeepMembers(o, init);
      assert xs == init + [xs[|xs| - 1]];
    }
  }

  /** The i-th parameter pushed is the value of the i-th present source. */
  lemma {:induction false} PushedValues(o: SearchOptions, limit: nat, xs: seq<Source>)
    ensures forall i :: 0 <= i < |Keep(o, xs)| ==>
      Present(o, Keep(o, xs)[i]) && Pushed(o, limit, xs)[i] == Value(o, limit, Keep(o, xs)[i])
  {
    if xs != [] {
      PushedValues(o, limit, xs[..|xs| - 1]);
    }
  }

  /** Keeping a subsequence preserves the order of the original. */
  lemma {:induction false} KeepAscending(o: SearchOptions, xs: seq<Source>)
    requires Ascending(xs)
    ensures Ascending(Keep(o, xs))
  {
    if xs != [] {
      var init, last := xs[..|xs| - 1], xs[|xs| - 1];
      KeepAscending(o, init);
      KeepMembers(o, init);
      var kept := Keep(o, init);
      forall e | e in kept ensures Rank(e) < Rank(last) {
        var k :| 0 <= k < |init| && init[k] == e;
      }
    }
  }

  /** Two option objects with the same truthy fields keep the same sources. */
  lemma {:induction false} KeepAgrees(o: SearchOptions, p: SearchOptions, xs: seq<Source>)
    requires forall s :: Present(o, s) == Present(p, s)
    ensures Keep(o, xs) == Keep(p, xs)
  {
    if xs != [] {
      KeepAgrees(o, p, xs[..|xs| - 1]);
    }
  }

  /** Two option objects with the same truthy fields and values push the same parameters. */
  lemma {:induction false} PushedAgrees(o: SearchOptions, p: SearchOptions, limit: nat, xs: seq<Source>)
    requires forall s :: Present(o, s) == Present(p, s)
    requires forall s :: Present(o, s) ==> Value(o, limit, s) == Value(p, limit, s)
    ensures Pushed(o, limit, xs) == Pushed(p, limit, xs)
  {
    if xs != [] {
      PushedAgrees(o, p, limit, xs[..|xs| - 1]);
    }
  }

  lemma WhereUnfold(o: SearchOptions)
    ensures Keep(o, WhereSources)
         == IfPresent(o, City) + IfPresent(o, OwnerId) + IfPresent(o, MinimumPrice) + IfPresent(o, MaximumPrice)
  {
    assert WhereSources == [] + [City] + [OwnerId] + [MinimumPrice] + [MaximumPrice];
    assert Keep(o, []) == [];
    KeepSnoc(o, [], City);
    KeepSnoc(o, [City], OwnerId);
    KeepSnoc(o, [City, OwnerId], MinimumPrice);
    KeepSnoc(o, [City, OwnerId, MinimumPrice], MaximumPrice);
  }

  /** The parameter sources: the WHERE filters, then the rating, then the limit. */
  lemma SourcesSplit(o: SearchOptions)
    ensures Sources(o) == Keep(o, WhereSources) + IfPresent(o, MinimumRating) + [Limit]
  {
    assert AllSources == (WhereSources + [MinimumRating]) + [Limit];
    KeepSnoc(o, WhereSources + [MinimumRating], Limit);
    KeepSnoc(o, WhereSources, MinimumRating);
  }

  // ---------------------------------------------------------------------------
  // The parameter list

  /** One parameter per truthy filter, plus one for the limit. */
  lemma ParamCount(o: SearchOptions, limit: nat)
    ensures |Params(o, limit)| == FilterCount(o) + 1
  {
    SourcesSplit(o);
    WhereUnfold(o);
  }

  /**
   * The parameters come in the fixed order city, owner, minimum price,
   * maximum price, minimum rating, limit, skipping the absent ones; the i-th
   * parameter is the value of the i-th source.
   */
  lemma ParamOrder(o: SearchOptions, limit: nat)
    ensures Ascending(Sources(o))
    ensures forall s :: s in Sources(o) <==> Present(o, s)
    ensures |Params(o, limit)| == |Sources(o)|
    ensures forall i :: 0 <= i < |Sources(o)| ==> Params(o, limit)[i] == Value(o, limit, Sources(o)[i])
  {
    KeepAscending(o, AllSources);
    KeepMembers(o, AllSources);
    PushedValues(o, limit, AllSources);
    assert AllSources == [City, OwnerId, MinimumPrice, MaximumPrice, MinimumRating, Limit];
    forall s ensures s in AllSources {
      assert AllSources[Rank(s)] == s;
    }
  }

  /** b ends d. */
  predicate EndsWith(d: string, b: string) {
    |b| <= |d| && d[|d| - |b|..] == b
  }

  lemma EndsWithAppend(a: string, b: string, c: string)
    requires EndsWith(b, c)
    ensures EndsWith(a + b, c)
  {
    assert (a + b)[|a + b| - |c|..] == b[|b| - |c|..];
  }

  /** The limit is always the last parameter and the LIMIT placeholder, which ends the statement, names it. */
  lemma LimitIsLast(o: SearchOptions, limit: nat)
    ensures var ps := Params(o, limit);
      |ps| >= 1 && ps[|ps| - 1] == Number(limit) && Plan(o, limit).limit.slot == |ps|
    ensures EndsWith(Statement(o, limit), "LIMIT $" + Decimal.Show(|Params(o, limit)|) + Terminator)
  {
    SourcesSplit(o);
    var q := Plan(o, limit);
    var tail := TermText(q.limit) + Terminator;
    assert EndsWith(tail, tail);
    EndsWithAppend(OrderBy, tail, tail);
    EndsWithAppend(HavingClause(q.having), Ordering(q), tail);
    EndsWithAppend(GroupBy, HavingClause(q.having) + Ordering(q), tail);
    EndsWithAppend(WhereClause(q.where), Grouping(q), tail);
    EndsWithAppend(Prefix, Clauses(q), tail);
  }

  /**
   * The placeholders, read in textual order, are $1, $2, ..., $n with n the
   * number of parameters, and the k-th placeholder belongs to the input that
   * pushed the k-th parameter.
   */
  lemma PlaceholdersMatchParams(o: SearchOptions, limit: nat)
    ensures var ts := Terms(Plan(o, limit));
      |ts| == |Params(o, limit)| == |Sources(o)|
      && forall i :: 0 <= i < |ts| ==> ts[i].slot == i + 1 && ts[i].source == Sources(o)[i]
  {
    SourcesSplit(o);
    var where := Keep(o, WhereSources);
    var q := Plan(o, limit);
    var ts := Terms(q);
    var ss := Sources(o);
    forall i | 0 <= i < |ts| ensures ts[i].slot == i + 1 && ts[i].source == ss[i] {
      if i < |where| {
        assert ts[i] == q.where[i];
      } else if i < |ts| - 1 {
        assert ts[i] == q.having.value;
      }
    }
  }

  /** Each placeholder's parameter is the value of the filter that introduced it. */
  lemma PlaceholderBinding(o: SearchOptions, limit: nat)
    ensures var ts := Terms(Plan(o, limit));
      forall t :: t in ts ==>
        1 <= t.slot <= |Params(o, limit)| && Present(o, t.source)
        && Params(o, limit)[t.slot - 1] == Value(o, limit, t.source)
  {
    PlaceholdersMatchParams(o, limit);
    ParamOrder(o, limit);
    var ts := Terms(Plan(o, limit));
    forall t | t in ts
      ensures 1 <= t.slot <= |Params(o, limit)| && Present(o, t.source)
        && Params(o, limit)[t.slot - 1] == Value(o, limit, t.source)
    {
      var i :| 0 <= i < |ts| && ts[i] == t;
      assert Sources(o)[i] in Sources(o);
    }
  }

  /** The city is wrapped as a LIKE pattern; the prices are sent in cents. */
  lemma FilterValues(o: SearchOptions, limit: nat)
    ensures TruthyText(o.city) ==>
      var t := Value(o, limit, City).text;
      |t| == |o.city.value| + 2 && t[0] == '%' && t[|t| - 1] == '%' && t[1..|t| - 1] == o.city.value
    ensures TruthyNumber(o.minimumPricePerNight) ==>
      Decimal.Parse(Value(o, limit, MinimumPrice).text) == 100 * o.minimumPricePerNight.value
    ensures TruthyNumber(o.maximumPricePerNight) ==>
      Decimal.Parse(Value(o, limit, MaximumPrice).text) == 100 * o.maximumPricePerNight.value
  {
    if TruthyNumber(o.minimumPricePerNight) {
      Decimal.ParseShow(o.minimumPricePerNight.value * 100);
    }
    if TruthyNumber(o.maximumPricePerNight) {
      Decimal.ParseShow(o.maximumPricePerNight.value * 100);
    }
  }

  // ---------------------------------------------------------------------------
  // The clauses

  /** A joined list starts with its first element and ends with its last. */
  lemma {:induction false} JoinEnds(sep: string, xs: seq<string>)
    requires xs != []
    ensures var j := Join(sep, xs);
      |j| >= |xs[0]| && |j| >= |xs[|xs| - 1]|
      && j[..|xs[0]|] == xs[0] && j[|j| - |xs[|xs| - 1]|..] == xs[|xs| - 1]
  {
    if |xs| > 1 {
      var init := xs[..|xs| - 1];
      JoinEnds(sep, init);
      var j := Join(sep, xs);
      assert j == Join(sep, init) + sep + xs[|xs| - 1];
      assert init[0] == xs[0];
    }
  }

  /** A term's text starts with a letter and ends with a digit. */
  lemma TermTextEnds(t: Term)
    ensures var s := TermText(t);
      |s| >= 2 && ('a' <= s[0] <= 'z' || 'A' <= s[0] <= 'Z') && Decimal.IsDigit(s[|s| - 1])
  {
    var c, d := Condition(t.source), Decimal.Show(t.slot);
    assert TermText(t)[|TermText(t)| - 1] == d[|d| - 1];
    assert TermText(t)[0] == c[0];
    match t.source
    case City =>
    case OwnerId =>
    case MinimumPrice =>
    case MaximumPrice =>
    case MinimumRating =>
    case Limit =>
  }

  /** The clauses start with "WHERE " exactly when there are WHERE terms. */
  lemma ClausesStart(q: Query)
    ensures |Clauses(q)| >= 6 && (Clauses(q)[..6] == "WHERE " <==> q.where != [])
  {
    var rest := Clauses(q);
    if q.where == [] {
      assert rest[0] == 'G';
    } else {
      var w := WhereClause(q.where);
      assert w[..6] == "WHERE ";
      assert rest[..6] == w[..6];
    }
  }

  /**
   * The WHERE clause appears exactly when a WHERE filter is truthy, right
   * after the fixed prefix; otherwise GROUP BY follows the prefix directly.
   */
  lemma WhereIff(o: SearchOptions, limit: nat)
    ensures Plan(o, limit).where != [] <==> AnyWhereFilter(o)
    ensures var rest := Statement(o, limit)[|Prefix|..];
      |rest| >= 6 && (rest[..6] == "WHERE " <==> AnyWhereFilter(o))
  {
    WhereUnfold(o);
    ClausesStart(Plan(o, limit));
  }

  /**
   * A joined WHERE text without a dangling separator: it starts with the
   * first term's text and ends with the last one's, so it starts with a
   * letter and ends with a digit, and neither end is part of " AND ".
   */
  ghost predicate WellJoined(w: seq<Term>)
    requires w != []
  {
    Bracketed(Join(And, Texts(w)), TermText(w[0]), TermText(w[|w| - 1]))
  }

  /** j starts with first, ends with last, and its ends are a non-blank and a digit. */
  predicate Bracketed(j: string, first: string, last: string) {
    |j| >= |first| && |j| >= |last| && |j| >= 2
    && j[..|first|] == first && j[|j| - |last|..] == last
    && j[0] != ' ' && Decimal.IsDigit(j[|j| - 1])
  }

  lemma JoinedTermsEnds(w: seq<Term>)
    requires w != []
    ensures WellJoined(w)
  {
    var xs := Texts(w);
    TextsEnds(w);
    JoinEnds(And, xs);
    TermTextEnds(w[0]);
    TermTextEnds(w[|w| - 1]);
    BracketedFrom(Join(And, xs), TermText(w[0]), TermText(w[|w| - 1]));
  }

  lemma TextsEnds(w: seq<Term>)
    requires w != []
    ensures Texts(w)[0] == TermText(w[0]) && Texts(w)[|w| - 1] == TermText(w[|w| - 1])
  {
  }

  /** A text that starts with a and ends with b has a's first and b's last character. */
  lemma BracketedFrom(j: string, a: string, b: string)
    requires 2 <= |a| <= |j| && j[..|a|] == a && a[0] != ' '
    requires 2 <= |b| <= |j| && j[|j| - |b|..] == b && Decimal.IsDigit(b[|b| - 1])
    ensures Bracketed(j, a, b)
  {
    assert j[0] == j[..|a|][0];
    assert j[|j| - 1] == j[|j| - |b|..][|b| - 1];
  }

  /**
   * Inside the WHERE clause the predicates are separated by " AND " with none
   * at either end: the joined text starts with the first predicate and ends
   * with the last one.
   */
  lemma NoDanglingAnd(o: SearchOptions, limit: nat)
    requires AnyWhereFilter(o)
    ensures Plan(o, limit).where != [] && WellJoined(Plan(o, limit).where)
  {
    WhereIff(o, limit);
    JoinedTermsEnds(Plan(o, limit).where);
  }

  /** GROUP BY is followed by "HAVING " exactly when there is a HAVING term. */
  lemma GroupingStart(q: Query)
    ensures var g := Grouping(q);
      |g| >= |GroupBy| + 7 && g[..|GroupBy|] == GroupBy
      && (g[|GroupBy|..|GroupBy| + 7] == "HAVING " <==> q.having.Some?)
  {
    var g := Grouping(q);
    var rest := HavingClause(q.having) + Ordering(q);
    assert g[|GroupBy|..] == rest;
    if q.having.None? {
      assert rest[0] == 'O';
    } else {
      var h := HavingClause(q.having);
      assert h[..7] == "HAVING ";
      assert rest[..7] == h[..7];
    }
  }

  /**
   * The HAVING clause appears exactly when the rating filter is truthy, right
   * after GROUP BY, which follows the optional WHERE clause; otherwise
   * ORDER BY follows GROUP BY directly.
   */
  lemma HavingIff(o: SearchOptions, limit: nat)
    ensures Plan(o, limit).having.Some? <==> TruthyNumber(o.minimumRating)
    ensures var g := Statement(o, limit)[|Prefix| + |WhereClause(Plan(o, limit).where)|..];
      |g| >= |GroupBy| + 7 && g[..|GroupBy|] == GroupBy
      && (g[|GroupBy|..|GroupBy| + 7] == "HAVING " <==> TruthyNumber(o.minimumRating))
  {
    var q := Plan(o, limit);
    var text := Statement(o, limit);
    assert text[|Prefix|..] == Clauses(q);
    assert text[|Prefix| + |WhereClause(q.where)|..] == Clauses(q)[|WhereClause(q.where)|..];
    assert Clauses(q)[|WhereClause(q.where)|..] == Grouping(q);
    GroupingStart(q);
  }

  /** A falsy filter (an empty city, a zero number) is the same as an undefined one. */
  lemma FalsyIsAbsent(o: SearchOptions, limit: nat)
    ensures Params(Normalize(o), limit) == Params(o, limit)
    ensures Statement(Normalize(o), limit) == Statement(o, limit)
  {
    var p := Normalize(o);
    assert forall s :: Present(o, s) == Present(p, s);
    forall s | Present(o, s) ensures Value(p, limit, s) == Value(o, limit, s) {
      match s
      case City => assert p.city == o.city;
      case OwnerId => assert p.ownerId == o.ownerId;
      case MinimumPrice => assert p.minimumPricePerNight == o.minimumPricePerNight;
      case MaximumPrice => assert p.maximumPricePerNight == o.maximumPricePerNight;
      case MinimumRating => assert p.minimumRating == o.minimumRating;
      case Limit =>
    }
    PushedAgrees(o, p, limit, AllSources);
    KeepAgrees(o, p, WhereSources);
  }

  /** The options {city: "Van", minimum_price_per_night: 50, minimum_rating: 4}. */
  function ExampleOptions(): SearchOptions {
    SearchOptions(Some("Van"), None, Some(50), None, Some(4))
  }

  lemma ExampleSources()
    ensures Sources(ExampleOptions()) == [City, MinimumPrice, MinimumRating, Limit]
    ensures Keep(ExampleOptions(), WhereSources) == [City, MinimumPrice]
  {
    var o := ExampleOptions();
    SourcesSplit(o);
    WhereUnfold(o);
    assert IfPresent(o, City) == [City];
    assert IfPresent(o, OwnerId) == [];
    assert IfPresent(o, MinimumPrice) == [MinimumPrice];
    assert IfPresent(o, MaximumPrice) == [];
    assert IfPresent(o, MinimumRating) == [MinimumRating];
  }

  lemma ShowSmall()
    ensures Decimal.Show(1) == "1" && Decimal.Show(2) == "2" && Decimal.Show(3) == "3"
    ensures Decimal.Show(4) == "4" && Decimal.Show(5000) == "5000"
  {
    assert Decimal.Show(5) == "5";
    assert Decimal.Show(50) == "50";
    assert Decimal.Show(500) == "500";
  }

  /**
   * City, minimum price and minimum rating together, with the limit given as
   * 10: the pattern, the price in cents, the rating, then the limit.
   */
  lemma ExampleParams()
    ensures Params(ExampleOptions(), 10) == [Text("%Van%"), Text("5000"), Text("4"), Number(10)]
  {
    var o := ExampleOptions();
    ExampleSources();
    ShowSmall();
    PushedValues(o, 10, AllSources);
    var ps := Params(o, 10);
    assert ps[0] == Text("%Van%");
    assert ps[1] == Text("5000");
    assert ps[2] == Text("4");
  }

  /** The same options bind $1 to the city, $2 to the price, $3 to the rating and $4 to the limit. */
  lemma ExamplePlan()
    ensures Plan(ExampleOptions(), 10)
         == Query([Term(City, 1), Term(MinimumPrice, 2)], Some(Term(MinimumRating, 3)), Term(Limit, 4))
  {
    ExampleSources();
    var q := Plan(ExampleOptions(), 10);
    assert q.where == [Term(City, 1), Term(MinimumPrice, 2)];
  }

  /** The WHERE clause those terms render to, piece by piece. */
  lemma ExampleWhere()
    ensures WhereClause([Term(City, 1), Term(MinimumPrice, 2)])
         == "WHERE " + "city LIKE $1" + " AND " + "cost_per_night >= $2" + " "
  {
    ShowSmall();
    var w := [Term(City, 1), Term(MinimumPrice, 2)];
    var a, b := TermText(w[0]), TermText(w[1]);
    assert a == "city LIKE $1";
    assert b == "cost_per_night >= $2";
    var xs := Texts(w);
    assert xs == [a, b];
    assert xs[..1] == [a];
  }

  /** The HAVING clause of the same options. */
  lemma ExampleHaving()
    ensures HavingClause(Some(Term(MinimumRating, 3)))
         == "HAVING " + "avg(property_reviews.rating) >= $3" + " "
  {
    ShowSmall();
  }
}
