# LightBnB property search: a verified model of `getAllProperties`

LightBnB's data-access layer has one function with logic of its own.
`getAllProperties(options, limit = 10)` takes an options object whose fields
may be undefined: `city`, `owner_id`, `minimum_price_per_night`,
`maximum_price_per_night` and `minimum_rating`. It builds a PostgreSQL
statement and the positional parameter list that goes with it:

- The statement always starts with a fixed SELECT/JOIN prefix.
- Each truthy filter pushes one parameter onto `queryParams`.
- Each truthy filter appends a predicate whose placeholder `$k` is numbered
  by the length of `queryParams` right after the push.
- The four WHERE predicates are separated by ` AND `. The separator is added
  only when a parameter is already there.
- The minimum rating becomes a HAVING predicate.
- The builder then appends the optional WHERE clause, `GROUP BY`, the
  optional HAVING clause, `ORDER BY` and `LIMIT $n`. The limit is pushed
  last, so `n` is the final number of parameters.

The project has four modules:

- `PropertyQuery` (property_query.dfy) states what the statement is meant to
  be, without the running bookkeeping. It keeps the present sources in a
  fixed order, gives each parameter the value of one input, and numbers each
  placeholder by the final position of its parameter (`Plan`, `Params`,
  `Statement`).
- `PropertyQueryFacts` (property_query_facts.dfy) proves the properties of
  that reference: parameter count and order, placeholder binding, the limit
  coming last, when each clause appears, and how the values are encoded.
- `Database` (database.dfy) models the builder itself, imperatively. Each
  guarded `if` block of the source is a method that updates the running
  `queryParams` and `conditionString`/`havingString`, with exactly the
  source's branches. `GetAllProperties` runs the blocks in the source's
  order. It is proved to return exactly `Params` and `Statement` of the
  reference.
- `Decimal` (decimal.dfy) models `${n}` for a natural number below 2^53,
  where JavaScript prints plain decimal: its decimal text, with a parser and
  a round-trip lemma.

Inputs follow JavaScript truthiness. An undefined field is `None`. An empty
city string and a zero number are falsy, like an undefined field. A
parameter is either the text of a template literal (`Text`) or the raw
`limit` number (`Number`). The limit argument is `Option<nat>`: `None`
takes the default 10.

## Model

| member | source | states |
|---|---|---|
| Database.GetAllProperties | LightBnB_WebApp/db/database.js:107-167 | The parameter list and statement text built step by step equal the reference `Params` and `Statement` for every options object and limit. The default limit 10 applies only when the argument is undefined. |
| Database.AddCity | LightBnB_WebApp/db/database.js:120-123 | With no parameter yet, a truthy city pushes `%city%` and appends `city LIKE $1`. A falsy city changes nothing. Either way the state is the reference's after testing the city. |
| Database.AddOwner | LightBnB_WebApp/db/database.js:125-131 | From any reference state, a truthy owner id adds ` AND ` only if a parameter exists, pushes the id's decimal text and numbers its placeholder by the new length. The result is the reference state with the owner filter tested. |
| Database.AddMinimumPrice | LightBnB_WebApp/db/database.js:133-139 | As for the owner, with the price pushed in cents and the `cost_per_night >= $k` predicate. |
| Database.AddMaximumPrice | LightBnB_WebApp/db/database.js:141-147 | As for the owner, with the price pushed in cents and the `cost_per_night <= $k` predicate. |
| Database.AddRating | LightBnB_WebApp/db/database.js:149-152 | After the WHERE filters, a truthy rating is pushed. The HAVING text becomes the reference's HAVING term, numbered one past the WHERE parameters. Otherwise the HAVING text stays empty. |
| Database.AppendClauses | LightBnB_WebApp/db/database.js:154-167 | Given the filter state, the text appended to the prefix is exactly the reference clauses, and pushing the limit completes the reference parameter list. |
| Database.WhereStep | LightBnB_WebApp/db/database.js:125-130 | One truthy WHERE block turns the reference state after `tested` into the reference state after `tested + [s]`. |
| Database.SkipStep | LightBnB_WebApp/db/database.js:125 | A falsy WHERE filter leaves the reference state unchanged while the filter counts as tested. |
| Database.ConditionSnoc | LightBnB_WebApp/db/database.js:126-130 | Appending a predicate to the joined WHERE text adds ` AND ` exactly when the text already holds a predicate. |
| Database.ConditionEmpty | LightBnB_WebApp/db/database.js:154 | The WHERE text is empty exactly when no WHERE filter was pushed, so `conditionString.length > 0` tests for a WHERE filter. |
| Database.LimitPushedLast | LightBnB_WebApp/db/database.js:158 | Pushing the limit after the five filters gives the complete reference parameter list. |
| Database.Finish | LightBnB_WebApp/db/database.js:154-167 | The WHERE and HAVING texts, each wrapped only when non-empty, with GROUP BY, ORDER BY and `LIMIT $n` numbered by the final parameter count, form the reference clauses. |
| Database.Assemble | LightBnB_WebApp/db/database.js:155-167 | Helper of `Database.Finish`, no model of its own: it only re-brackets the pieces appended at lines 155-167 (WHERE clause, GROUP BY, HAVING clause, ORDER BY and LIMIT) to match the right-nested `Clauses` of a plan. |
| PropertyQueryFacts.ParamCount | LightBnB_WebApp/db/database.js:109-158 | There is exactly one parameter per truthy filter among the five, plus one for the limit. |
| PropertyQueryFacts.ParamOrder | LightBnB_WebApp/db/database.js:120-158 | Parameter sources are strictly ordered city, owner, minimum price, maximum price, rating, limit. A source appears iff it is truthy. The i-th parameter is the value of the i-th source. |
| PropertyQueryFacts.PlaceholdersMatchParams | LightBnB_WebApp/db/database.js:121-122 | Read in text order, the placeholders are `$1 .. $n` with n the parameter count, and the k-th belongs to the k-th parameter's source. The same holds for lines 129-130, 137-138, 145-146 and 150-151. |
| PropertyQueryFacts.PlaceholderBinding | LightBnB_WebApp/db/database.js:150-151 | Every placeholder `$k` lies in `1..n`, its source is truthy, and parameter k is that source's value. The same holds for lines 121-122, 129-130, 137-138 and 145-146. |
| PropertyQueryFacts.LimitIsLast | LightBnB_WebApp/db/database.js:158-167 | The limit is always the last parameter, and the statement ends with `LIMIT $n;` where n is the total parameter count. |
| PropertyQueryFacts.FilterValues | LightBnB_WebApp/db/database.js:121-145 | The city parameter is the city between two `%`. Each price parameter is decimal text that parses back to 100 times the input. |
| PropertyQueryFacts.WhereIff | LightBnB_WebApp/db/database.js:154-155 | There are WHERE terms iff some WHERE filter is truthy. The text right after the prefix starts with `WHERE ` iff some WHERE filter is truthy. |
| PropertyQueryFacts.NoDanglingAnd | LightBnB_WebApp/db/database.js:125-143 | When a WHERE filter is truthy, the joined predicates start with the first predicate's text and end with the last one's. So the joined text starts with a non-blank character and ends with a digit, and there is no leading or trailing ` AND `. |
| PropertyQueryFacts.HavingIff | LightBnB_WebApp/db/database.js:149-163 | There is a HAVING term iff the rating is truthy. Right after the prefix and the optional WHERE clause comes `GROUP BY`, followed by `HAVING ` iff the rating is truthy. |
| PropertyQueryFacts.FalsyIsAbsent | LightBnB_WebApp/db/database.js:120-149 | An empty city or a zero number gives the same parameters and statement as an undefined field. |
| PropertyQueryFacts.KeepMembers | LightBnB_WebApp/db/database.js:120-151 | A source is kept iff it was tested and is truthy. |
| PropertyQueryFacts.PushedValues | LightBnB_WebApp/db/database.js:121-150 | The i-th parameter pushed is the value of the i-th truthy source tested. |
| PropertyQueryFacts.KeepAscending | LightBnB_WebApp/db/database.js:120-152 | Skipping falsy filters keeps the remaining ones in the order they were tested. |
| PropertyQueryFacts.ExampleParams | LightBnB_WebApp/db/database.js:120-158 | For city "Van", minimum price 50, rating 4 and limit 10, the parameters are `%Van%`, `5000`, `4` and 10. |
| PropertyQueryFacts.ExamplePlan | LightBnB_WebApp/db/database.js:122-166 | For the same options, the placeholders are city `$1`, price `$2`, rating `$3` and limit `$4`. |
| PropertyQueryFacts.ExampleWhere | LightBnB_WebApp/db/database.js:155 | Those WHERE terms render to `WHERE city LIKE $1 AND cost_per_night >= $2 `. |
| PropertyQueryFacts.ExampleHaving | LightBnB_WebApp/db/database.js:162 | That HAVING term renders to `HAVING avg(property_reviews.rating) >= $3 `. |
| Decimal.Show | LightBnB_WebApp/db/database.js:122-166 | `${n}` for a natural n, as used at lines 122, 129, 137, 145, 150 and 166. The text is non-empty and all digits, and it starts with `0` exactly when n is 0, so there are no leading zeros. `Decimal.ParseShow` reads it back as n. |
| PropertyQueryFacts.FalsyValues | LightBnB_WebApp/db/database.js:120-149 | States what `PropertyQuery.TruthyText` and `PropertyQuery.TruthyNumber` mean: the city test is false exactly for undefined and `""`, and a number test is false exactly for undefined and `0`. These are the guards at lines 120, 125, 133, 141 and 149. |
| PropertyQueryFacts.PresentFields | LightBnB_WebApp/db/database.js:120-158 | States what `PropertyQuery.Present` means: the limit is always pushed (line 158). Each of the five filters is pushed exactly when its field is neither undefined nor its falsy value (lines 120, 125, 133, 141 and 149). |
| PropertyQueryFacts.ValueShape | LightBnB_WebApp/db/database.js:121-158 | States what `PropertyQuery.Value` pushes. Only the limit is a raw number, and it equals the limit (line 158). The city is the city between two `%` (line 121). The owner id and the rating are decimal text that reads back as the field (lines 129, 150). The prices are decimal text that reads back as 100 times the field (lines 137, 145). |
| PropertyQueryFacts.LimitDefault | LightBnB_WebApp/db/database.js:107 | States what `PropertyQuery.EffectiveLimit` means: an undefined limit becomes 10. A given limit is used as it is, even a falsy 0. |
| Decimal.ParseShow | LightBnB_WebApp/db/database.js:129 | The decimal text that `${n}` produces for a natural number reads back as n. |
| Decimal.ShowInjective | LightBnB_WebApp/db/database.js:122 | Distinct numbers give distinct decimal texts, so distinct placeholders `$k` name distinct parameters. |

## Left out

- Pool construction and `pool.connect()` (database.js:1-9) are driver configuration and network I/O.
- `console.log` (line 169) is a side effect. Executing the statement through `pool.query` and the promise chain (line 171) is a call into the `pg` driver. The model stops at the statement text and parameter list handed to `pool.query`.
- `getUserWithEmail`, `getUserWithId`, `addUser` and `getAllReservations` (lines 18-97) pass constant SQL strings to the driver. Their results are decided by the database.
- `addProperty` (lines 180-185) reads and writes an undeclared `properties` variable, so calling it throws. There is no behaviour to model.
- Prices and the owner id are natural numbers, so `* 100` is exact. JavaScript numbers are floating point, so fractional or non-numeric prices are not modelled.
- Decimal.Show: matches JavaScript's `${n}` only for naturals below 2^53, and for prices only when 100 times the price is also below 2^53. In that range JavaScript numbers are exact integers and `${n}` is plain decimal. Above 2^53, `* 100` can round. From 1e21, `${n}` switches to exponent notation: a price of 1e19 is pushed as `"1e+21"`, while the model pushes the 22-digit decimal.
- The options argument is always an object. `getAllProperties(undefined, …)` and `getAllProperties(null, …)` throw a TypeError at line 120, and `SearchOptions` cannot express either call.
- Template-literal stringification of arbitrary values is not modelled. A city is a string; numeric fields and the limit are naturals shown in decimal. A non-numeric or negative `limit` is not modelled.
- Database.GetAllProperties: each guarded block of the source (and the closing clauses on lines 154-167) is a separate method called in source order, rather than straight-line code in one body. The statements, their order and their branches are the source's. The split only keeps each proof small.
