/** Tasks.filter_queryset of charities/views.py: two loops that turn the
    request's query parameters into the keyword arguments of `filter` and of
    `exclude`, each driven by its own allow-list. */
module QueryFilter {

  /** One allow-list entry: the ORM lookup to fill in, and the name of the
      query parameter that supplies its value. */
  datatype Rule = Rule(lookup: string, param: string)

  /** `GET.get(param)` is truthy: the parameter is present and not empty.
      The query string is taken as the value each parameter name reads as. */
  predicate Supplied(query: map<string, string>, param: string)
  {
    param in query && query[param] != ""
  }

  /** The lookup dictionary after the loop has visited `rules` in order; a
      later rule for the same lookup overwrites an earlier one. */
  function Lookups(rules: seq<Rule>, query: map<string, string>): map<string, string>
    decreases |rules|
  {
    if rules == [] then map[]
    else
      var m := Lookups(rules[..|rules| - 1], query);
      var r := rules[|rules| - 1];
      if Supplied(query, r.param) then m[r.lookup := query[r.param]] else m
  }

  /** A lookup is in the dictionary exactly when some rule for it has its
      parameter supplied. */
  lemma {:induction false} LookupsKeys(rules: seq<Rule>, query: map<string, string>)
    ensures forall lookup :: lookup in Lookups(rules, query) <==>
              exists j :: 0 <= j < |rules| && rules[j].lookup == lookup && Supplied(query, rules[j].param)
    decreases |rules|
  {
    if rules != [] {
      var front := rules[..|rules| - 1];
      LookupsKeys(front, query);
      assert forall j :: 0 <= j < |front| ==> front[j] == rules[j];
    }
  }

  /** The value of a lookup is the parameter value of the LAST rule for it
      whose parameter is supplied. */
  lemma {:induction false} LookupsValue(rules: seq<Rule>, query: map<string, string>, lookup: string)
    requires lookup in Lookups(rules, query)
    ensures exists j :: 0 <= j < |rules| && rules[j].lookup == lookup && Supplied(query, rules[j].param) &&
              Lookups(rules, query)[lookup] == query[rules[j].param] &&
              forall k :: j < k < |rules| && rules[k].lookup == lookup ==> !Supplied(query, rules[k].param)
    decreases |rules|
  {
    var n := |rules|;
    var front := rules[..n - 1];
    var r := rules[n - 1];
    assert forall j :: 0 <= j < |front| ==> front[j] == rules[j];
    if r.lookup == lookup && Supplied(query, r.param) {
      assert Lookups(rules, query)[lookup] == query[rules[n - 1].param];
    } else {
      LookupsValue(front, query, lookup);
      var j :| 0 <= j < |front| && front[j].lookup == lookup && Supplied(query, front[j].param) &&
               Lookups(front, query)[lookup] == query[front[j].param] &&
               forall k :: j < k < |front| && front[k].lookup == lookup ==> !Supplied(query, front[k].param);
      assert rules[j] == front[j];
    }
  }

  /** Every lookup in the dictionary is one of the allow-listed lookups, and
      every value in it is the value of some query parameter. */
  lemma {:induction false} LookupsAllowListed(rules: seq<Rule>, query: map<string, string>)
    ensures forall lookup :: lookup in Lookups(rules, query) ==>
              exists j :: 0 <= j < |rules| && rules[j].lookup == lookup
    ensures Lookups(rules, query).Values <= query.Values
    decreases |rules|
  {
    if rules != [] {
      var front := rules[..|rules| - 1];
      LookupsAllowListed(front, query);
      assert forall j :: 0 <= j < |front| ==> front[j] == rules[j];
    }
  }

  /** When each lookup appears in at most one rule, rule j contributes its
      lookup exactly when its parameter is supplied, with that parameter's value. */
  lemma LookupsOfDistinctRules(rules: seq<Rule>, query: map<string, string>, j: nat)
    requires forall i, k :: 0 <= i < k < |rules| ==> rules[i].lookup != rules[k].lookup
    requires j < |rules|
    ensures rules[j].lookup in Lookups(rules, query) <==> Supplied(query, rules[j].param)
    ensures Supplied(query, rules[j].param) ==>
              Lookups(rules, query)[rules[j].lookup] == query[rules[j].param]
  {
    LookupsKeys(rules, query);
    if rules[j].lookup in Lookups(rules, query) {
      LookupsValue(rules, query, rules[j].lookup);
    }
  }

  /** One of the two loops of filter_queryset. */
  method CollectLookups(rules: seq<Rule>, query: map<string, string>) returns (lookups: map<string, string>)
    ensures lookups == Lookups(rules, query)
    ensures forall lookup :: lookup in lookups <==>
              exists j :: 0 <= j < |rules| && rules[j].lookup == lookup && Supplied(query, rules[j].param)
  {
    lookups := map[];
    var i := 0;
    while i < |rules|
      invariant 0 <= i <= |rules|
      invariant lookups == Lookups(rules[..i], query)
    {
      var rule := rules[i];
      assert rules[..i + 1][..i] == rules[..i];
      if rule.param in query && query[rule.param] != "" {
        lookups := lookups[rule.lookup := query[rule.param]];
      }
      i := i + 1;
    }
    assert rules[..|rules|] == rules;
    LookupsKeys(rules, query);
  }

  /** The keyword arguments filter_queryset passes to `filter` and `exclude`. */
  datatype QueryArgs = QueryArgs(filterArgs: map<string, string>, excludeArgs: map<string, string>)

  /** Tasks.filter_queryset: both dictionaries are built from the same query
      parameters, each with its own allow-list. */
  method FilterQueryset(filtering: seq<Rule>, excluding: seq<Rule>, query: map<string, string>)
    returns (args: QueryArgs)
    ensures args.filterArgs == Lookups(filtering, query)
    ensures args.excludeArgs == Lookups(excluding, query)
  {
    var filterArgs := CollectLookups(filtering, query);
    var excludeArgs := CollectLookups(excluding, query);
    args := QueryArgs(filterArgs, excludeArgs);
  }
}
