/**
 * The property search of the data-access layer: `getAllProperties` builds a
 * PostgreSQL statement and its positional parameters step by step, pushing
 * one parameter per truthy filter and numbering each placeholder from the
 * length of the parameter list right after the push. Each guarded block is
 * a method of its own; GetAllProperties runs them in the source's order and
 * is proved to produce the reference statement and parameters.
 */
module Database {
  import opened Wrappers
  import Decimal
  import opened PropertyQuery
  import opened PropertyQueryFacts

  /** The WHERE text for the pushed filters ss, numbered from $1. */
  function ConditionText(ss: seq<Source>): string {
    Join(And, Texts(Numbered(ss, 1)))
  }

  /**
   * The builder's state after testing the filters in tested: the parameters
   * pushed are the values of the present ones, in order, and the condition
   * text joins their predicates numbered from $1.
   */
  ghost predicate Built(o: SearchOptions, limit: nat, tested: seq<Source>,
                        queryParams: seq<Param>, conditionString: string)
  {
    queryParams == Pushed(o, limit, tested) && conditionString == ConditionText(Keep(o, tested))
  }

  /** Appending a filter adds " AND " only when something was appended before. */
  lemma ConditionSnoc(ss: seq<Source>, s: Source)
    ensures ConditionText(ss + [s])
         == (if ss == [] then "" else ConditionText(ss) + And) + TermText(Term(s, |ss| + 1))
  {
    var xs := Texts(Numbered(ss + [s], 1));
    assert xs[..|xs| - 1] == Texts(Numbered(ss, 1));
    assert xs[|xs| - 1] == TermText(Term(s, |ss| + 1));
  }

  lemma ConditionEmpty(ss: seq<Source>)
    ensures ConditionText(ss) == "" <==> ss == []
  {
    if ss != [] {
      JoinedTermsEnds(Numbered(ss, 1));
    }
  }

  /**
   * A guarded block of the builder whose WHERE filter s is truthy: it adds
   * " AND " if a parameter is already there, pushes the value and appends
   * the predicate numbered by the new length of the parameter list.
   */
  lemma WhereStep(o: SearchOptions, limit: nat, tested: seq<Source>,
                  queryParams: seq<Param>, conditionString: string, s: Source,
                  queryParams': seq<Param>, conditionString': string)
    requires Built(o, limit, tested, queryParams, conditionString)
    requires Present(o, s)
    requires queryParams' == queryParams + [Value(o, limit, s)]
    requires conditionString'
          == (if |queryParams| > 0 then conditionString + And else conditionString)
             + Condition(s) + Decimal.Show(|queryParams| + 1)
    ensures Built(o, limit, tested + [s], queryParams', conditionString')
  {
    KeepSnoc(o, tested, s);
    PushedSnoc(o, limit, tested, s);
    var kept := Keep(o, tested);
    ConditionSnoc(kept, s);
    var base := if |queryParams| > 0 then conditionString + And else conditionString;
    AppendAssoc(base, Condition(s), Decimal.Show(|queryParams| + 1));
    assert conditionString' == base + TermText(Term(s, |kept| + 1));
    assert Keep(o, tested + [s]) == kept + [s];
  }

  /** A guarded block whose filter s is falsy changes nothing. */
  lemma SkipStep(o: SearchOptions, limit: nat, tested: seq<Source>,
                 queryParams: seq<Param>, conditionString: string, s: Source)
    requires Built(o, limit, tested, queryParams, conditionString)
    requires !Present(o, s)
    ensures Built(o, limit, tested + [s], queryParams, conditionString)
  {
    KeepSnoc(o, tested, s);
    PushedSnoc(o, limit, tested, s);
    assert Keep(o, tested + [s]) == Keep(o, tested);
    assert Pushed(o, limit, tested + [s]) == Pushed(o, limit, tested);
  }

  lemma AppendAssoc(a: string, b: string, c: string)
    ensures (a + b) + c == a + (b + c)
  {
  }

  /** The pieces the builder appends after the prefix, put together, are the clauses. */
  lemma Assemble(q: Query, where: string, having: string, n: nat)
    requires where == WhereClause(q.where) && having == HavingClause(q.having)
    requires q.limit == Term(Limit, n)
    ensures where + GroupBy + having + (OrderBy + "LIMIT $" + Decimal.Show(n) + Terminator)
         == Clauses(q)
  {
    AppendAssoc(OrderBy, "LIMIT $" + Decimal.Show(n), Terminator);
    AppendAssoc(OrderBy, "LIMIT $", Decimal.Show(n));
    assert OrderBy + "LIMIT $" + Decimal.Show(n) + Terminator == Ordering(q);
    AppendAssoc(where + GroupBy, having, Ordering(q));
    AppendAssoc(where, GroupBy, having + Ordering(q));
  }

  /** The text the builder accumulates for the optional HAVING term. */
  function HavingText(having: Option<Term>): string {
    if having.None? then "" else TermText(having.value)
  }

  lemma BuiltEmpty(o: SearchOptions, limit: nat)
    ensures Built(o, limit, [], [], "")
  {
    assert Texts(Numbered(Keep(o, []), 1)) == [];
  }

  // ---------------------------------------------------------------------------
  // The guarded blocks of getAllProperties, one method each. A block receives
  // the builder's state after the filters in tested and leaves it as the
  // state after tested + [its own filter].

  /** `if (options.city)`: the first filter, pushed as a LIKE pattern without " AND ". */
  method AddCity(options: SearchOptions, ghost limit: nat, ghost tested: seq<Source>,
                 queryParams: seq<Param>, conditionString: string)
    returns (queryParams': seq<Param>, conditionString': string)
    requires Built(options, limit, tested, queryParams, conditionString)
    requires queryParams == []
    ensures Built(options, limit, tested + [City], queryParams', conditionString')
  {
    queryParams', conditionString' := queryParams, conditionString;
    if TruthyText(options.city) {
      queryParams' := queryParams' + [Text("%" + options.city.value + "%")];
      conditionString' := conditionString' + "city LIKE $" + Decimal.Show(|queryParams'|);
      WhereStep(options, limit, tested, queryParams, conditionString, City, queryParams', conditionString');
    } else {
      SkipStep(options, limit, tested, queryParams, conditionString, City);
    }
  }

  /** `if (options.owner_id)`: the owner's id as decimal text. */
  method AddOwner(options: SearchOptions, ghost limit: nat, ghost tested: seq<Source>,
                  queryParams: seq<Param>, conditionString: string)
    returns (queryParams': seq<Param>, conditionString': string)
    requires Built(options, limit, tested, queryParams, conditionString)
    ensures Built(options, limit, tested + [OwnerId], queryParams', conditionString')
  {
    queryParams', conditionString' := queryParams, conditionString;
    if TruthyNumber(options.ownerId) {
      if |queryParams'| > 0 {
        conditionString' := conditionString' + " AND ";
      }
      queryParams' := queryParams' + [Text(Decimal.Show(options.ownerId.value))];
      conditionString' := conditionString' + "owner_id = $" + Decimal.Show(|queryParams'|);
      WhereStep(options, limit, tested, queryParams, conditionString, OwnerId, queryParams', conditionString');
    } else {
      SkipStep(options, limit, tested, queryParams, conditionString, OwnerId);
    }
  }

  /** `if (options.minimum_price_per_night)`: dollars pushed as cents. */
  method AddMinimumPrice(options: SearchOptions, ghost limit: nat, ghost tested: seq<Source>,
                         queryParams: seq<Param>, conditionString: string)
    returns (queryParams': seq<Param>, conditionString': string)
    requires Built(options, limit, tested, queryParams, conditionString)
    ensures Built(options, limit, tested + [MinimumPrice], queryParams', conditionString')
  {
    queryParams', conditionString' := queryParams, conditionString;
    if TruthyNumber(options.minimumPricePerNight) {
      if |queryParams'| > 0 {
        conditionString' := conditionString' + " AND ";
      }
      queryParams' := queryParams' + [Text(Decimal.Show(options.minimumPricePerNight.value * 100))];
      conditionString' := conditionString' + "cost_per_night >= $" + Decimal.Show(|queryParams'|);
      WhereStep(options, limit, tested, queryParams, conditionString, MinimumPrice, queryParams', conditionString');
    } else {
      SkipStep(options, limit, tested, queryParams, conditionString, MinimumPrice);
    }
  }

  /** `if (options.maximum_price_per_night)`: dollars pushed as cents. */
  method AddMaximumPrice(options: SearchOptions, ghost limit: nat, ghost tested: seq<Source>,
                         queryParams: seq<Param>, conditionString: string)
    returns (queryParams': seq<Param>, conditionString': string)
    requires Built(options, limit, tested, queryParams, conditionString)
    ensures Built(options, limit, tested + [MaximumPrice], queryParams', conditionString')
  {
    queryParams', conditionString' := queryParams, conditionString;
    if TruthyNumber(options.maximumPricePerNight) {
      if |queryParams'| > 0 {
        conditionString' := conditionString' + " AND ";
      }
      queryParams' := queryParams' + [Text(Decimal.Show(options.maximumPricePerNight.value * 100))];
      conditionString' := conditionString' + "cost_per_night <= $" + Decimal.Show(|queryParams'|);
      WhereStep(options, limit, tested, queryParams, conditionString, MaximumPrice, queryParams', conditionString');
    } else {
      SkipStep(options, limit, tested, queryParams, conditionString, MaximumPrice);
    }
  }

  /**
   * `if (options.minimum_rating)`: the rating goes into the HAVING text, with
   * its placeholder numbered after every WHERE parameter.
   */
  method AddRating(options: SearchOptions, ghost limit: nat,
                   queryParams: seq<Param>, havingString: string)
    returns (queryParams': seq<Param>, havingString': string)
    requires queryParams == Pushed(options, limit, WhereSources)
    requires havingString == ""
    ensures queryParams' == Pushed(options, limit, WhereSources + [MinimumRating])
    ensures havingString' == HavingText(Plan(options, limit).having)
  {
    PushedSnoc(options, limit, WhereSources, MinimumRating);
    queryParams', havingString' := queryParams, havingString;
    if TruthyNumber(options.minimumRating) {
      queryParams' := queryParams' + [Text(Decimal.Show(options.minimumRating.value))];
      havingString' := havingString' + "avg(property_reviews.rating) >= $" + Decimal.Show(|queryParams'|);
    }
  }

  /** The limit is pushed after every filter, as the last parameter. */
  lemma LimitPushedLast(o: SearchOptions, limit: nat)
    ensures Pushed(o, limit, WhereSources + [MinimumRating]) + [Number(limit)] == Params(o, limit)
  {
    PushedSnoc(o, limit, WhereSources + [MinimumRating], Limit);
    assert AllSources == WhereSources + [MinimumRating] + [Limit];
  }

  /**
   * The tail of the builder: the WHERE text is wrapped only when non-empty,
   * the HAVING text only when non-empty, and LIMIT is numbered by the final
   * length of the parameter list.
   */
  lemma Finish(o: SearchOptions, limit: nat, conditionString: string, havingString: string,
               whereClause: string, havingClause: string)
    requires conditionString == ConditionText(Keep(o, WhereSources))
    requires havingString == HavingText(Plan(o, limit).having)
    requires whereClause == if |conditionString| > 0 then "WHERE " + conditionString + " " else ""
    requires havingClause == if |havingString| > 0 then "HAVING " + havingString + " " else ""
    ensures whereClause + GroupBy + havingClause
            + (OrderBy + "LIMIT $" + Decimal.Show(|Params(o, limit)|) + Terminator)
         == Clauses(Plan(o, limit))
  {
    var where := Keep(o, WhereSources);
    ConditionEmpty(where);
    assert whereClause == WhereClause(Numbered(where, 1));
    var plan := Plan(o, limit);
    assert havingClause == HavingClause(plan.having);
    Assemble(plan, whereClause, havingClause, |Params(o, limit)|);
  }

  /**
   * The end of getAllProperties: wraps the WHERE text only when it is
   * non-empty, pushes the limit last, wraps the HAVING text only when it is
   * non-empty, and numbers LIMIT by the final length of the parameter list.
   */
  method AppendClauses(ghost options: SearchOptions, limit: nat, queryString: string,
                       queryParams: seq<Param>, conditionString: string, havingString: string)
    returns (queryString': string, queryParams': seq<Param>)
    requires queryParams == Pushed(options, limit, WhereSources + [MinimumRating])
    requires conditionString == ConditionText(Keep(options, WhereSources))
    requires havingString == HavingText(Plan(options, limit).having)
    ensures queryParams' == Params(options, limit)
    ensures queryString' == queryString + Clauses(Plan(options, limit))
  {
    queryString', queryParams' := queryString, queryParams;
    ghost var whereClause := if |conditionString| > 0 then "WHERE " + conditionString + " " else "";
    if |conditionString| > 0 {
      queryString' := queryString' + ("WHERE " + conditionString + " ");
    } else {
      assert queryString + whereClause == queryString;
    }

    queryParams' := queryParams' + [Number(limit)];
    LimitPushedLast(options, limit);
    queryString' := queryString' + GroupBy;
    AppendAssoc(queryString, whereClause, GroupBy);

    ghost var havingClause := if |havingString| > 0 then "HAVING " + havingString + " " else "";
    if |havingString| > 0 {
      queryString' := queryString' + ("HAVING " + havingString + " ");
    } else {
      assert queryString' + havingClause == queryString';
    }
    AppendAssoc(queryString, whereClause + GroupBy, havingClause);

    ghost var ordering := OrderBy + "LIMIT $" + Decimal.Show(|queryParams'|) + Terminator;
    queryString' := queryString' + (OrderBy + "LIMIT $" + Decimal.Show(|queryParams'|) + Terminator);
    AppendAssoc(queryString, whereClause + GroupBy + havingClause, ordering);
    Finish(options, limit, conditionString, havingString, whereClause, havingClause);
  }

  /**
   * getAllProperties(options, limit) up to the call into the driver: the
   * statement text and the parameter list it hands to `pool.query`.
   */
  method GetAllProperties(options: SearchOptions, limitArg: Option<nat>)
    returns (queryString: string, queryParams: seq<Param>)
    ensures queryParams == Params(options, EffectiveLimit(limitArg))
    ensures queryString == Statement(options, EffectiveLimit(limitArg))
  {
    var limit := EffectiveLimit(limitArg);
    queryParams := [];
    queryString := Prefix;
    var conditionString := "";
    var havingString := "";

    // The filters tested so far.
    ghost var tested: seq<Source> := [];
    BuiltEmpty(options, limit);
    queryParams, conditionString := AddCity(options, limit, tested, queryParams, conditionString);
    tested := tested + [City];
    queryParams, conditionString := AddOwner(options, limit, tested, queryParams, conditionString);
    tested := tested + [OwnerId];
    queryParams, conditionString := AddMinimumPrice(options, limit, tested, queryParams, conditionString);
    tested := tested + [MinimumPrice];
    queryParams, conditionString := AddMaximumPrice(options, limit, tested, queryParams, conditionString);
    tested := tested + [MaximumPrice];
    assert tested == WhereSources;
    queryParams, havingString := AddRating(options, limit, queryParams, havingString);

    queryString, queryParams :=
      AppendClauses(options, limit, queryString, queryParams, conditionString, havingString);
  }
}
