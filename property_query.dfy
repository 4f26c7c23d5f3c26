/**
 * What `getAllProperties` is meant to send to PostgreSQL, stated without the
 * builder's running bookkeeping: the present filters are kept in a fixed
 * order, each parameter is the value of one present input, and every
 * placeholder is numbered by the final position of its parameter.
 */
module PropertyQuery {
  import opened Wrappers
  import Decimal

  /** The options object: a field that is undefined is None. */
  datatype SearchOptions = SearchOptions(
    city: Option<string>,
    ownerId: Option<nat>,
    minimumPricePerNight: Option<nat>,
    maximumPricePerNight: Option<nat>,
    minimumRating: Option<nat>)

  /**
   * A positional parameter: each filter is pushed as a template-literal
   * string, the limit as the raw number it was given.
   */
  datatype Param = Text(text: string) | Number(n: nat)

  /** The input a parameter, and the placeholder that refers to it, comes from. */
  datatype Source = City | OwnerId | MinimumPrice | MaximumPrice | MinimumRating | Limit

  /** A clause fragment that ends in the placeholder `$slot`. */
  datatype Term = Term(source: Source, slot: nat)

  /** The statement before rendering: WHERE terms, the HAVING term, the LIMIT term. */
  datatype Query = Query(where: seq<Term>, having: Option<Term>, limit: Term)

  const DefaultLimit: nat := 10

  /** The filters that go into the WHERE clause, in the order the builder tests them. */
  const WhereSources: seq<Source> := [City, OwnerId, MinimumPrice, MaximumPrice]

  /** Every parameter source, in the order the builder pushes them. */
  const AllSources: seq<Source> := WhereSources + [MinimumRating, Limit]

  function Rank(s: Source): nat {
    match s
    case City => 0
    case OwnerId => 1
    case MinimumPrice => 2
    case MaximumPrice => 3
    case MinimumRating => 4
    case Limit => 5
  }

  /** `limit = 10`: the default applies only when the argument is undefined. */
  function EffectiveLimit(limit: Option<nat>): nat {
    if limit.Some? then limit.value else DefaultLimit
  }

  /** JavaScript truthiness of a string field: undefined and "" are falsy. */
  predicate TruthyText(v: Option<string>) {
    v.Some? && v.value != ""
  }

  /** JavaScript truthiness of a numeric field: undefined and 0 are falsy. */
  predicate TruthyNumber(v: Option<nat>) {
    v.Some? && v.value != 0
  }

  /** Whether the builder pushes a parameter for source s. */
  predicate Present(o: SearchOptions, s: Source) {
    match s
    case City => TruthyText(o.city)
    case OwnerId => TruthyNumber(o.ownerId)
    case MinimumPrice => TruthyNumber(o.minimumPricePerNight)
    case MaximumPrice => TruthyNumber(o.maximumPricePerNight)
    case MinimumRating => TruthyNumber(o.minimumRating)
    case Limit => true
  }

  /** The parameter pushed for a present source; prices go from dollars to cents. */
  function Value(o: SearchOptions, limit: nat, s: Source): Param
    requires Present(o, s)
  {
    match s
    case City => Text("%" + o.city.value + "%")
    case OwnerId => Text(Decimal.Show(o.ownerId.value))
    case MinimumPrice => Text(Decimal.Show(o.minimumPricePerNight.value * 100))
    case MaximumPrice => Text(Decimal.Show(o.maximumPricePerNight.value * 100))
    case MinimumRating => Text(Decimal.Show(o.minimumRating.value))
    case Limit => Number(limit)
  }

  /** The present sources of xs, in the order of xs. */
  function Keep(o: SearchOptions, xs: seq<Source>): (r: seq<Source>)
    ensures |r| <= |xs|
  {
    if xs == [] then []
    else
      var last := xs[|xs| - 1];
      Keep(o, xs[..|xs| - 1]) + (if Present(o, last) then [last] else [])
  }

  /** The sources of the parameter list, in push order. */
  function Sources(o: SearchOptions): seq<Source> {
    Keep(o, AllSources)
  }

  /** The parameters pushed while testing the sources xs in order: one per present source. */
  function Pushed(o: SearchOptions, limit: nat, xs: seq<Source>): (r: seq<Param>)
    ensures |r| == |Keep(o, xs)|
  {
    if xs == [] then []
    else
      var last := xs[|xs| - 1];
      Pushed(o, limit, xs[..|xs| - 1]) + (if Present(o, last) then [Value(o, limit, last)] else [])
  }

  /** The parameter list handed to the driver. */
  function Params(o: SearchOptions, limit: nat): seq<Param> {
    Pushed(o, limit, AllSources)
  }

  /** Terms for ss whose placeholders count up from first. */
  function Numbered(ss: seq<Source>, first: nat): (r: seq<Term>)
    ensures |r| == |ss|
  {
    seq(|ss|, i requires 0 <= i < |ss| => Term(ss[i], first + i))
  }

  /** The reference plan: each term is numbered by the final position of its parameter. */
  function Plan(o: SearchOptions, limit: nat): Query {
    var where := Keep(o, WhereSources);
    Query(
      Numbered(where, 1),
      if Present(o, MinimumRating) then Some(Term(MinimumRating, |where| + 1)) else None,
      Term(Limit, |Params(o, limit)|))
  }

  /** Every term of a plan, in the order its placeholder appears in the text. */
  function Terms(q: Query): seq<Term> {
    q.where + (if q.having.Some? then [q.having.value] else []) + [q.limit]
  }

  // ---------------------------------------------------------------------------
  // Rendering

  const Prefix: string :=
    "\n  SELECT properties.*, avg(property_reviews.rating) as average_rating\n  FROM properties\n  JOIN property_reviews ON properties.id = property_id\n  "
  const GroupBy: string := "GROUP BY properties.id "
  const OrderBy: string := "ORDER BY cost_per_night\n  "
  const Terminator: string := ";\n  "
  const And: string := " AND "

  /** The SQL text that precedes a placeholder of source s. */
  function Condition(s: Source): string {
    match s
    case City => "city LIKE $"
    case OwnerId => "owner_id = $"
    case MinimumPrice => "cost_per_night >= $"
    case MaximumPrice => "cost_per_night <= $"
    case MinimumRating => "avg(property_reviews.rating) >= $"
    case Limit => "LIMIT $"
  }

  function TermText(t: Term): string {
    Condition(t.source) + Decimal.Show(t.slot)
  }

  function Texts(ts: seq<Term>): (r: seq<string>)
    ensures |r| == |ts|
  {
    seq(|ts|, i requires 0 <= i < |ts| => TermText(ts[i]))
  }

  /** The strings of xs with sep between neighbours. */
  function Join(sep: string, xs: seq<string>): string {
    if xs == [] then ""
    else if |xs| == 1 then xs[0]
    else Join(sep, xs[..|xs| - 1]) + sep + xs[|xs| - 1]
  }

  function WhereClause(where: seq<Term>): string {
    if where == [] then "" else "WHERE " + Join(And, Texts(where)) + " "
  }

  function HavingClause(having: Option<Term>): string {
    if having.None? then "" else "HAVING " + TermText(having.value) + " "
  }

  /** The statement: the fixed prefix, then the clauses. */
  function Render(q: Query): string {
    Prefix + Clauses(q)
  }

  /** The optional WHERE clause, then GROUP BY and what follows it. */
  function Clauses(q: Query): string {
    WhereClause(q.where) + Grouping(q)
  }

  /** GROUP BY, the optional HAVING clause, then ORDER BY and LIMIT. */
  function Grouping(q: Query): string {
    GroupBy + (HavingClause(q.having) + Ordering(q))
  }

  function Ordering(q: Query): string {
    OrderBy + (TermText(q.limit) + Terminator)
  }

  /** The statement text handed to the driver. */
  function Statement(o: SearchOptions, limit: nat): string {
    Render(Plan(o, limit))
  }
}
