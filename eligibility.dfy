/**
 * When the full-text index can serve a query, and what native sort and hit
 * list it then produces: the specification the transaction's methods are
 * proved against, with the properties of the routing rules.
 */
module Eligibility {
  import opened Wrappers
  import opened Filters
  import opened Annotations
  import opened Sorts
  import opened Paginations
  import opened Lucene

  // ---------------------------------------------------------------- filters

  /**
   * The `@Field` annotations consulted for an attribute: the single `@Field`
   * when there is one, otherwise the members of `@Fields`, otherwise none.
   */
  function CollectedFieldAnnotations(a: AttributeAnnotations): seq<FieldAnnotation>
  {
    if a.field.Some? then [a.field.value]
    else if a.fields.Some? then a.fields.value
    else []
  }

  predicate SomeIndexed(annotations: seq<FieldAnnotation>)
  {
    exists i :: 0 <= i < |annotations| && annotations[i].index == Yes
  }

  /** The attribute `fieldName` of `entityClass` is written to the index. */
  predicate FieldIndexed(dictionary: EntityDictionary, entityClass: EntityClass, fieldName: string)
  {
    SomeIndexed(CollectedFieldAnnotations(Lookup(dictionary, entityClass, fieldName)))
  }

  /** The index can evaluate `p`: it names an indexed attribute of the queried entity directly. */
  predicate PredicateSearchable(dictionary: EntityDictionary, entityClass: EntityClass, p: FilterPredicate)
  {
    |p.path| == 1 && FieldIndexed(dictionary, entityClass, p.Field())
  }

  /** The index can evaluate every predicate of `e`. */
  predicate FilterSearchable(dictionary: EntityDictionary, entityClass: EntityClass, e: FilterExpression)
  {
    forall p :: p in ExtractPredicates(e) ==> PredicateSearchable(dictionary, entityClass, p)
  }

  // ---------------------------------------------------------------- sorting

  /** The index can sort by `rule`: a direct attribute carrying `@SortableField`. */
  predicate RuleSortable(dictionary: EntityDictionary, entityClass: EntityClass, rule: SortRule)
  {
    |rule.path| == 1 && Lookup(dictionary, entityClass, rule.path[0].fieldName).sortable.Some?
  }

  predicate SortingSortable(dictionary: EntityDictionary, entityClass: EntityClass, rules: seq<SortRule>)
  {
    forall i :: 0 <= i < |rules| ==> RuleSortable(dictionary, entityClass, rules[i])
  }

  /** The whole query can be served by the index: the filter, and the sort when one is requested. */
  predicate SearchEligible(dictionary: EntityDictionary, entityClass: EntityClass, e: FilterExpression, sorting: Option<Sorting>)
  {
    FilterSearchable(dictionary, entityClass, e)
    && (sorting.Some? ==> SortingSortable(dictionary, entityClass, sorting.value.rules))
  }

  /** The index field a sortable rule sorts on: the `forField` alias when non-empty, else the attribute. */
  function SortFieldName(dictionary: EntityDictionary, entityClass: EntityClass, rule: SortRule): string
    requires RuleSortable(dictionary, entityClass, rule)
  {
    var fieldName := rule.path[0].fieldName;
    var alias := Lookup(dictionary, entityClass, fieldName).sortable.value.forField;
    if alias == "" then fieldName else alias
  }

  /** The native sort key of one rule: its index field, reversed unless the rule is ascending. */
  function SortFieldFor(dictionary: EntityDictionary, entityClass: EntityClass, rule: SortRule): SortField
    requires RuleSortable(dictionary, entityClass, rule)
  {
    SortField(SortFieldName(dictionary, entityClass, rule), rule.order != Asc)
  }

  /** The native sort keys of a rule list, built rule by rule. */
  function ExpectedSortFields(dictionary: EntityDictionary, entityClass: EntityClass, rules: seq<SortRule>): seq<SortField>
    requires SortingSortable(dictionary, entityClass, rules)
  {
    if |rules| == 0 then []
    else ExpectedSortFields(dictionary, entityClass, rules[..|rules| - 1])
         + [SortFieldFor(dictionary, entityClass, rules[|rules| - 1])]
  }

  // ---------------------------------------------------------------- search

  /** The native sort of an eligible query: none without a sort request. */
  function SearchSort(dictionary: EntityDictionary, entityClass: EntityClass, sorting: Option<Sorting>): Option<Sort>
    requires sorting.Some? ==> SortingSortable(dictionary, entityClass, sorting.value.rules)
  {
    if sorting.Some? then Some(Sort(ExpectedSortFields(dictionary, entityClass, sorting.value.rules))) else None
  }

  /** Every hit of an eligible query, in the order its native sort gives. */
  function SearchHits(dictionary: EntityDictionary, em: FullTextEntityManager, query: Query,
                      entityClass: EntityClass, sorting: Option<Sorting>): seq<Entity>
    requires sorting.Some? ==> SortingSortable(dictionary, entityClass, sorting.value.rules)
  {
    em.matches(query, entityClass, SearchSort(dictionary, entityClass, sorting))
  }

  /** First hit of the page: the offset, or the start without pagination. */
  function FirstResult(pagination: Option<Pagination>): nat
  {
    if pagination.Some? then pagination.value.offset else 0
  }

  /** Page size: the limit, or unbounded without pagination. */
  function MaxResults(pagination: Option<Pagination>): Option<nat>
  {
    if pagination.Some? then Some(pagination.value.limit) else None
  }

  // ---------------------------------------------------------------- lemmas

  /** Filter eligibility is a property of the leaves of the tree alone. */
  lemma FilterSearchableIffLeaves(dictionary: EntityDictionary, entityClass: EntityClass, e: FilterExpression)
    ensures FilterSearchable(dictionary, entityClass, e)
            <==> forall p :: OccursIn(p, e) ==> PredicateSearchable(dictionary, entityClass, p)
  {
  }

  /** Fail-closed: one predicate the index cannot evaluate sends the whole query to the wrapped store. */
  lemma FailClosed(dictionary: EntityDictionary, entityClass: EntityClass, e: FilterExpression,
                   p: FilterPredicate, sorting: Option<Sorting>)
    requires OccursIn(p, e)
    requires !PredicateSearchable(dictionary, entityClass, p)
    ensures !FilterSearchable(dictionary, entityClass, e)
    ensures !SearchEligible(dictionary, entityClass, e, sorting)
  {
  }

  /**
   * The combinators are ignored: a disjunction is no easier to serve than a
   * conjunction, and a negation is as easy as its operand.
   */
  lemma CombinatorsIgnored(dictionary: EntityDictionary, entityClass: EntityClass, a: FilterExpression, b: FilterExpression)
    ensures FilterSearchable(dictionary, entityClass, And(a, b))
            <==> FilterSearchable(dictionary, entityClass, a) && FilterSearchable(dictionary, entityClass, b)
    ensures FilterSearchable(dictionary, entityClass, Or(a, b))
            <==> FilterSearchable(dictionary, entityClass, a) && FilterSearchable(dictionary, entityClass, b)
    ensures FilterSearchable(dictionary, entityClass, Not(a)) <==> FilterSearchable(dictionary, entityClass, a)
  {
  }

  /**
   * An attribute is indexed iff its `@Field` says Index.YES; without `@Field`,
   * iff some member of `@Fields` does; with neither, it is not.
   */
  lemma FieldIndexedCases(dictionary: EntityDictionary, entityClass: EntityClass, fieldName: string)
    ensures var a := Lookup(dictionary, entityClass, fieldName);
            FieldIndexed(dictionary, entityClass, fieldName)
            <==> if a.field.Some? then a.field.value.index == Yes
                 else a.fields.Some? && exists f :: f in a.fields.value && f.index == Yes
  {
    var a := Lookup(dictionary, entityClass, fieldName);
    assert FieldIndexed(dictionary, entityClass, fieldName) == SomeIndexed(CollectedFieldAnnotations(a));
    if a.field.Some? {
      assert CollectedFieldAnnotations(a)[0] == a.field.value;
    } else if a.fields.Some? {
      var fs := a.fields.value;
      assert CollectedFieldAnnotations(a) == fs;
      assert SomeIndexed(fs) <==> exists f :: f in fs && f.index == Yes by {
        if SomeIndexed(fs) {
          var i :| 0 <= i < |fs| && fs[i].index == Yes;
          assert fs[i] in fs;
        }
        if exists f :: f in fs && f.index == Yes {
          var f :| f in fs && f.index == Yes;
          var i :| 0 <= i < |fs| && fs[i] == f;
          assert fs[i].index == Yes;
        }
      }
    }
  }

  /** Without a sort request only the filter decides; with one, an unsortable rule rules the index out. */
  lemma SortGatesSearch(dictionary: EntityDictionary, entityClass: EntityClass, e: FilterExpression, sorting: Option<Sorting>)
    ensures sorting.None? ==> (SearchEligible(dictionary, entityClass, e, sorting) <==> FilterSearchable(dictionary, entityClass, e))
    ensures sorting.Some? && (exists i :: 0 <= i < |sorting.value.rules| && !RuleSortable(dictionary, entityClass, sorting.value.rules[i]))
            ==> !SearchEligible(dictionary, entityClass, e, sorting)
  {
  }

  /** One key per rule, in rule order, on the rule's index field and with the rule's direction. */
  lemma {:induction false} ExpectedSortFieldsAt(dictionary: EntityDictionary, entityClass: EntityClass, rules: seq<SortRule>)
    requires SortingSortable(dictionary, entityClass, rules)
    ensures |ExpectedSortFields(dictionary, entityClass, rules)| == |rules|
    ensures forall k :: 0 <= k < |rules| ==>
              ExpectedSortFields(dictionary, entityClass, rules)[k].field == SortFieldName(dictionary, entityClass, rules[k])
              && (!ExpectedSortFields(dictionary, entityClass, rules)[k].reverse <==> rules[k].order == Asc)
  {
    if |rules| > 0 {
      var init := rules[..|rules| - 1];
      assert SortingSortable(dictionary, entityClass, init) by {
        forall i | 0 <= i < |init| ensures RuleSortable(dictionary, entityClass, init[i]) {
          assert init[i] == rules[i];
        }
      }
      ExpectedSortFieldsAt(dictionary, entityClass, init);
      forall k | 0 <= k < |rules| - 1
        ensures ExpectedSortFields(dictionary, entityClass, rules)[k] == ExpectedSortFields(dictionary, entityClass, init)[k]
        ensures rules[k] == init[k]
      {
      }
    }
  }

  /** Sorting by `a` then `b` yields `a`'s keys followed by `b`'s. */
  lemma {:induction false} ExpectedSortFieldsAppend(dictionary: EntityDictionary, entityClass: EntityClass,
                                                    a: seq<SortRule>, b: seq<SortRule>)
    requires SortingSortable(dictionary, entityClass, a) && SortingSortable(dictionary, entityClass, b)
    ensures SortingSortable(dictionary, entityClass, a + b)
    ensures ExpectedSortFields(dictionary, entityClass, a + b)
            == ExpectedSortFields(dictionary, entityClass, a) + ExpectedSortFields(dictionary, entityClass, b)
  {
    assert SortingSortable(dictionary, entityClass, a + b) by {
      forall i | 0 <= i < |a + b| ensures RuleSortable(dictionary, entityClass, (a + b)[i]) {
        if i < |a| { assert (a + b)[i] == a[i]; } else { assert (a + b)[i] == b[i - |a|]; }
      }
    }
    if |b| == 0 {
      assert a + b == a;
    } else {
      var init := b[..|b| - 1];
      assert SortingSortable(dictionary, entityClass, init) by {
        forall i | 0 <= i < |init| ensures RuleSortable(dictionary, entityClass, init[i]) {
          assert init[i] == b[i];
        }
      }
      ExpectedSortFieldsAppend(dictionary, entityClass, a, init);
      assert (a + b)[..|a + b| - 1] == a + init;
      assert (a + b)[|a + b| - 1] == b[|b| - 1];
    }
  }

  /** With 35 hits, offset 20 and limit 10, the page is hits 21 to 30. */
  lemma WindowExample(hits: seq<Entity>)
    requires |hits| == 35
    ensures Window(hits, 20, Some(10)) == hits[20..30]
  {
  }
}
