/**
 * The nested-field information of the query being visited: which aliases in FROM name
 * nested paths, which WHERE conditions were tagged with which nested path, the parent
 * table's alias and the join type of the subquery.
 */
module NestedFieldScope {
  import opened Wrappers

  /** Druid's `SQLJoinTableSource.JoinType`. */
  datatype JoinType =
    | COMMA | JOIN | INNER_JOIN | CROSS_JOIN | NATURAL_JOIN | NATURAL_INNER_JOIN
    | LEFT_OUTER_JOIN | RIGHT_OUTER_JOIN | FULL_OUTER_JOIN | STRAIGHT_JOIN
    | OUTER_APPLY | CROSS_APPLY

  /** A binary condition of the WHERE clause; tags are keyed by the object itself, not by its contents. */
  class SQLBinaryOpExpr {
    constructor () {}
  }

  /** The key `addAliasFullPath(alias, path)` writes: the path itself when the alias is empty. */
  function KeyOf(entry: (string, string)): (k: string)
    ensures entry.0 == "" ==> k == entry.1
    ensures entry.0 != "" ==> k == entry.0
  {
    if entry.0 == "" then entry.1 else entry.0
  }

  /** The alias map after a sequence of `addAliasFullPath(alias, path)` calls, in order. */
  function PathsOf(added: seq<(string, string)>): map<string, string> {
    if added == [] then map[]
    else
      var last := added[|added| - 1];
      PathsOf(added[..|added| - 1])[KeyOf(last) := last.1]
  }

  /** Some call wrote key `k`. */
  predicate WasAdded(added: seq<(string, string)>, k: string) {
    exists i :: 0 <= i < |added| && KeyOf(added[i]) == k
  }

  /** `added[i]` is the last call that wrote key `k`. */
  predicate LastAddedFor(added: seq<(string, string)>, i: int, k: string) {
    && 0 <= i < |added| && KeyOf(added[i]) == k
    && forall j :: i < j < |added| ==> KeyOf(added[j]) != k
  }

  /** The map holds exactly the keys some call wrote. */
  lemma {:induction false} PathsOfKeys(added: seq<(string, string)>)
    ensures forall k :: k in PathsOf(added) <==> WasAdded(added, k)
  {
    if added != [] {
      var n := |added|;
      var init := added[..n - 1];
      PathsOfKeys(init);
      forall k ensures k in PathsOf(added) <==> WasAdded(added, k) {
        if k in PathsOf(added) && KeyOf(added[n - 1]) != k {
          assert k in PathsOf(init);
          var i :| 0 <= i < n - 1 && KeyOf(init[i]) == k;
          assert added[i] == init[i];
        }
        if WasAdded(added, k) {
          var i :| 0 <= i < n && KeyOf(added[i]) == k;
          if i < n - 1 {
            assert init[i] == added[i];
            assert WasAdded(init, k);
          }
        }
      }
    }
  }

  /** Each key maps to the path of the last call that wrote it. */
  lemma {:induction false} PathsOfLastWins(added: seq<(string, string)>, k: string, i: int)
    requires LastAddedFor(added, i, k)
    ensures k in PathsOf(added) && PathsOf(added)[k] == added[i].1
  {
    var n := |added|;
    if i < n - 1 {
      var init := added[..n - 1];
      assert init[i] == added[i];
      forall j | i < j < n - 1 ensures KeyOf(init[j]) != k {
        assert init[j] == added[j];
      }
      PathsOfLastWins(init, k, i);
    }
  }

  /** The map is empty exactly when nothing was added. */
  lemma PathsOfEmpty(added: seq<(string, string)>)
    ensures PathsOf(added) == map[] <==> added == []
  {
    if added != [] {
      var last := added[|added| - 1];
      assert KeyOf(last) in PathsOf(added);
    }
  }

  class Scope {
    /** The join type of the actual SQL subquery; `None` until set. */
    var actualJoinType: Option<JoinType>
    /** The alias of the parent table, such as "t" in "FROM team t, t.employees e"; `None` until set. */
    var parentAlias: Option<string>
    /** Nested path alias to full path, such as "e" to "employees". */
    var aliasFullPaths: map<string, string>
    /** WHERE condition to its nested tag: the full path for a nested field, empty otherwise. */
    var conditionTags: map<SQLBinaryOpExpr, string>
    /** Every `addAliasFullPath` call so far, in order. */
    ghost var added: seq<(string, string)>

    ghost predicate Valid()
      reads this
    {
      aliasFullPaths == PathsOf(added)
    }

    constructor ()
      ensures Valid()
      ensures actualJoinType == None && parentAlias == None
      ensures aliasFullPaths == map[] && conditionTags == map[] && added == []
    {
      actualJoinType := None;
      parentAlias := None;
      aliasFullPaths := map[];
      conditionTags := map[];
      added := [];
    }

    function GetParentAlias(): Option<string>
      reads this
    {
      parentAlias
    }

    method SetParentAlias(alias: Option<string>)
      modifies this
      ensures GetParentAlias() == alias
      ensures actualJoinType == old(actualJoinType)
      ensures aliasFullPaths == old(aliasFullPaths) && conditionTags == old(conditionTags) && added == old(added)
    {
      parentAlias := alias;
    }

    /** An empty alias maps the path to itself; any earlier entry for the key is overwritten. */
    method AddAliasFullPath(alias: string, path: string)
      requires Valid()
      modifies this
      ensures Valid()
      ensures alias == "" ==> aliasFullPaths == old(aliasFullPaths)[path := path]
      ensures alias != "" ==> aliasFullPaths == old(aliasFullPaths)[alias := path]
      ensures added == old(added) + [(alias, path)]
      ensures actualJoinType == old(actualJoinType) && parentAlias == old(parentAlias)
      ensures conditionTags == old(conditionTags)
    {
      added := added + [(alias, path)];
      assert added[..|added| - 1] == old(added);
      if alias == "" {
        aliasFullPaths := aliasFullPaths[path := path];
      } else {
        aliasFullPaths := aliasFullPaths[alias := path];
      }
    }

    /** `""` for an alias never added; otherwise the path of the last call that wrote it. */
    function GetFullPath(alias: string): (r: string)
      requires Valid()
      reads this
      ensures !WasAdded(added, alias) ==> r == ""
      ensures forall i :: LastAddedFor(added, i, alias) ==> r == added[i].1
    {
      PathsOfKeys(added);
      forall i | LastAddedFor(added, i, alias) ensures PathsOf(added)[alias] == added[i].1 {
        PathsOfLastWins(added, alias, i);
      }
      if alias in aliasFullPaths then aliasFullPaths[alias] else ""
    }

    /** Holds exactly when some alias/path pair was added. */
    function IsAnyNestedField(): (r: bool)
      requires Valid()
      reads this
      ensures r <==> added != []
    {
      PathsOfEmpty(added);
      aliasFullPaths != map[]
    }

    /** The keys of the alias map: one per key some call wrote. */
    function GetAliases(): (r: set<string>)
      requires Valid()
      reads this
      ensures r == aliasFullPaths.Keys
      ensures forall k :: k in r <==> WasAdded(added, k)
    {
      PathsOfKeys(added);
      aliasFullPaths.Keys
    }

    /** `""` for an untagged condition, its tag otherwise. */
    function GetConditionTag(expr: SQLBinaryOpExpr): (r: string)
      reads this
      ensures expr !in conditionTags ==> r == ""
      ensures expr in conditionTags ==> r == conditionTags[expr]
    {
      if expr in conditionTags then conditionTags[expr] else ""
    }

    /** Tag one condition object; every other object keeps its tag, even one with equal contents. */
    method AddConditionTag(expr: SQLBinaryOpExpr, tag: string)
      modifies this
      ensures conditionTags == old(conditionTags)[expr := tag]
      ensures GetConditionTag(expr) == tag
      ensures forall e: SQLBinaryOpExpr :: e != expr && old(allocated(e)) ==> GetConditionTag(e) == old(GetConditionTag(e))
      ensures actualJoinType == old(actualJoinType) && parentAlias == old(parentAlias)
      ensures aliasFullPaths == old(aliasFullPaths) && added == old(added)
    {
      conditionTags := conditionTags[expr := tag];
    }

    function GetActualJoinType(): Option<JoinType>
      reads this
    {
      actualJoinType
    }

    method SetActualJoinType(joinType: Option<JoinType>)
      modifies this
      ensures GetActualJoinType() == joinType
      ensures parentAlias == old(parentAlias)
      ensures aliasFullPaths == old(aliasFullPaths) && conditionTags == old(conditionTags) && added == old(added)
    {
      actualJoinType := joinType;
    }
  }
}
