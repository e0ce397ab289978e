/**
 * The explain half of the legacy `Having` domain object: a tree of HAVING conditions is
 * printed as a Painless boolean script for a bucket-selector aggregation, whose bucket
 * paths come from the method fields (aggregations) of SELECT and HAVING.
 */
module Having {
  import opened Wrappers

  /** How a condition joins the ones before it. */
  datatype Conn = AND | OR

  /** The operators of a legacy condition. */
  datatype Operator =
    | EQ | GT | LT | GTE | LTE | N | LIKE | NLIKE | REGEXP | IS | ISN | IN | NIN
    | BETWEEN | NBETWEEN | GEO_INTERSECTS | GEO_BOUNDING_BOX | GEO_DISTANCE | GEO_POLYGON
    | IN_TERMS | TERM | IDS_QUERY | NESTED_COMPLEX | NOT_EXISTS_NESTED_COMPLEX
    | CHILDREN_COMPLEX | SCRIPT | NIN_TERMS | NTERM | NREGEXP

  /**
   * A condition's value: a single object, or an `Object[]` of several. `text` is the
   * object's `toString()`; `elements` are the array elements' `toString()`s.
   */
  datatype Value =
    | Scalar(text: string)
    | Array(elements: seq<string>, text: string)

  /**
   * A node of the condition tree: a `Condition` (a comparison, with the operator's own
   * symbol as the condition reports it) or a plain `Where` grouping sub-conditions.
   */
  datatype Where =
    | Condition(conn: Conn, name: string, operator: Operator, symbol: string, value: Value)
    | Group(conn: Conn, wheres: seq<Where>)

  /** What explaining can throw: `SqlParseException`, or the runtime exceptions of the array casts. */
  datatype ExplainError =
    | UnsupportedOperation(operator: Operator)
    | ClassCast
    | ArrayIndexOutOfBounds(index: nat)

  const PARAMS: string := "params."
  const AND_SEPARATOR: string := " && "
  const OR_SEPARATOR: string := " || "

  function ConnSeparator(c: Conn): string {
    if c == AND then AND_SEPARATOR else OR_SEPARATOR
  }

  /** `expr(name, operator, value)`: `String.join(" ", PARAMS + name, operator, value)`. */
  function Expr(name: string, operator: string, value: string): string {
    PARAMS + name + " " + operator + " " + value
  }

  /** `Collectors.joining(sep)`. */
  function Join(parts: seq<string>, sep: string): string {
    if |parts| == 0 then ""
    else if |parts| == 1 then parts[0]
    else parts[0] + sep + Join(parts[1..], sep)
  }

  /** One `expr(name, operator, v)` per value, in order. */
  function Clauses(name: string, operator: string, values: seq<string>): (r: seq<string>)
    ensures |r| == |values|
    ensures forall i :: 0 <= i < |values| ==> r[i] == Expr(name, operator, values[i])
  {
    seq(|values|, i requires 0 <= i < |values| => Expr(name, operator, values[i]))
  }

  /** Operators printed with the condition's own symbol. */
  const SymbolOperators: set<Operator> := {EQ, GT, LT, GTE, LTE, IS, ISN}

  /** Operators whose value must be an array. */
  const ArrayOperators: set<Operator> := {BETWEEN, NBETWEEN, IN, NIN}

  const SupportedOperators: set<Operator> := SymbolOperators + ArrayOperators + {N}

  /** `createScript(cond)`: one condition as a Painless expression. */
  function CreateScript(cond: Where): (r: Result<string, ExplainError>)
    requires cond.Condition?
    ensures cond.operator !in SupportedOperators ==> r == Failure(UnsupportedOperation(cond.operator))
    ensures cond.operator in SymbolOperators ==> r == Success(Expr(cond.name, cond.symbol, cond.value.text))
    ensures cond.operator == N ==> r == Success(Expr(cond.name, "!=", cond.value.text))
    ensures cond.operator in ArrayOperators && cond.value.Scalar? ==> r == Failure(ClassCast)
    ensures cond.operator in {BETWEEN, NBETWEEN} && cond.value.Array? && |cond.value.elements| < 2 ==>
              r == Failure(ArrayIndexOutOfBounds(|cond.value.elements|))
    ensures cond.operator == BETWEEN && cond.value.Array? && |cond.value.elements| >= 2 ==>
              r == Success(Expr(cond.name, ">=", cond.value.elements[0]) + AND_SEPARATOR
                           + Expr(cond.name, "<=", cond.value.elements[1]))
    ensures cond.operator == NBETWEEN && cond.value.Array? && |cond.value.elements| >= 2 ==>
              r == Success(Expr(cond.name, "<", cond.value.elements[0]) + OR_SEPARATOR
                           + Expr(cond.name, ">", cond.value.elements[1]))
    ensures cond.operator == IN && cond.value.Array? ==>
              r == Success(Join(Clauses(cond.name, "==", cond.value.elements), OR_SEPARATOR))
    ensures cond.operator == NIN && cond.value.Array? ==>
              r == Success(Join(Clauses(cond.name, "!=", cond.value.elements), AND_SEPARATOR))
  {
    var name := cond.name;
    var value := cond.value;
    match cond.operator
    case EQ | GT | LT | GTE | LTE | IS | ISN => Success(Expr(name, cond.symbol, value.text))
    case N => Success(Expr(name, "!=", value.text))
    case BETWEEN =>
      if value.Scalar? then Failure(ClassCast)
      else if |value.elements| < 2 then Failure(ArrayIndexOutOfBounds(|value.elements|))
      else Success(Expr(name, ">=", value.elements[0]) + AND_SEPARATOR + Expr(name, "<=", value.elements[1]))
    case NBETWEEN =>
      if value.Scalar? then Failure(ClassCast)
      else if |value.elements| < 2 then Failure(ArrayIndexOutOfBounds(|value.elements|))
      else Success(Expr(name, "<", value.elements[0]) + OR_SEPARATOR + Expr(name, ">", value.elements[1]))
    case IN =>
      if value.Scalar? then Failure(ClassCast)
      else Success(Join(Clauses(name, "==", value.elements), OR_SEPARATOR))
    case NIN =>
      if value.Scalar? then Failure(ClassCast)
      else Success(Join(Clauses(name, "!=", value.elements), AND_SEPARATOR))
    case _ => Failure(UnsupportedOperation(cond.operator))
  }

  /** Joining two non-empty runs of parts puts exactly one separator between them. */
  lemma {:induction false} JoinSplit(a: seq<string>, b: seq<string>, sep: string)
    requires a != [] && b != []
    ensures Join(a + b, sep) == Join(a, sep) + sep + Join(b, sep)
  {
    if |a| == 1 {
      assert (a + b)[1..] == b;
    } else {
      assert (a + b)[1..] == a[1..] + b;
      JoinSplit(a[1..], b, sep);
    }
  }

  /** IN / NIN keep the values' order: the clause of the last value comes last, after one separator. */
  lemma ClausesInOrder(name: string, operator: string, values: seq<string>, sep: string)
    requires |values| >= 2
    ensures Join(Clauses(name, operator, values), sep)
         == Join(Clauses(name, operator, values[..|values| - 1]), sep) + sep + Expr(name, operator, values[|values| - 1])
  {
    var n := |values|;
    var all := Clauses(name, operator, values);
    assert all == Clauses(name, operator, values[..n - 1]) + [all[n - 1]];
    JoinSplit(Clauses(name, operator, values[..n - 1]), [all[n - 1]], sep);
  }

  // ---- the recursive printer ----

  /** One node of the tree as `doExplain`'s loop body prints it. */
  function Render(w: Where): Result<string, ExplainError>
    decreases w, 1
  {
    match w
    case Condition(_, _, _, _, _) => CreateScript(w)
    case Group(_, sub) =>
      var s :- ExplainFrom(sub, "");
      Success("(" + s + ")")
  }

  /**
   * `doExplain`'s loop from the current script on: a separator chosen by the node's own
   * connector goes before every node once the script is no longer empty.
   */
  function ExplainFrom(wheres: seq<Where>, script: string): Result<string, ExplainError>
    decreases wheres, 0
  {
    if wheres == [] then Success(script)
    else
      var withSeparator := if |script| > 0 then script + ConnSeparator(wheres[0].conn) else script;
      var item :- Render(wheres[0]);
      ExplainFrom(wheres[1..], withSeparator + item)
  }

  /** One turn of the loop: the separator (if any), then the node. */
  lemma ExplainStep(wheres: seq<Where>, script: string)
    requires wheres != [] && Render(wheres[0]).Success?
    ensures ExplainFrom(wheres, script)
         == ExplainFrom(wheres[1..], (if |script| > 0 then script + ConnSeparator(wheres[0].conn) else script)
                                     + Render(wheres[0]).value)
  {
  }

  lemma ExplainStepAfterScript(wheres: seq<Where>, script: string)
    requires wheres != [] && Render(wheres[0]).Success? && script != []
    ensures ExplainFrom(wheres, script)
         == ExplainFrom(wheres[1..], script + ConnSeparator(wheres[0].conn) + Render(wheres[0]).value)
  {
    ExplainStep(wheres, script);
  }

  /** The first turn of the loop: no separator. */
  lemma ExplainFirstStep(wheres: seq<Where>)
    requires wheres != [] && Render(wheres[0]).Success?
    ensures ExplainAll(wheres) == ExplainFrom(wheres[1..], Render(wheres[0]).value)
  {
    ExplainStep(wheres, "");
    assert "" + Render(wheres[0]).value == Render(wheres[0]).value;
  }

  /** `doExplain(wheres)`. */
  function ExplainAll(wheres: seq<Where>): Result<string, ExplainError> {
    ExplainFrom(wheres, "")
  }

  /** `doExplain`, with its `StringBuilder` loop and its recursion into sub-trees. */
  method DoExplain(wheres: seq<Where>) returns (r: Result<string, ExplainError>)
    ensures r == ExplainAll(wheres)
    decreases wheres
  {
    var script := "";
    var i := 0;
    while i < |wheres|
      invariant 0 <= i <= |wheres|
      invariant ExplainFrom(wheres[i..], script) == ExplainAll(wheres)
    {
      var cond := wheres[i];
      assert wheres[i..][0] == cond && wheres[i..][1..] == wheres[i + 1..];
      var withSeparator := script;
      if |script| > 0 {
        withSeparator := script + ConnSeparator(cond.conn);
      }
      if cond.Condition? {
        var item := CreateScript(cond);
        assert Render(cond) == item;
        if item.Failure? {
          return Failure(item.error);
        }
        ExplainStep(wheres[i..], script);
        script := withSeparator + item.value;
      } else {
        var inner := DoExplain(cond.wheres);
        if inner.Failure? {
          return Failure(inner.error);
        }
        assert Render(cond) == Success("(" + inner.value + ")");
        ExplainStep(wheres[i..], script);
        script := withSeparator + ("(" + inner.value + ")");
      }
      i := i + 1;
    }
    return Success(script);
  }

  /** The items of a list in order, or the first error. */
  function RenderAll(wheres: seq<Where>): Result<seq<string>, ExplainError> {
    if wheres == [] then Success([])
    else
      var item :- Render(wheres[0]);
      var rest :- RenderAll(wheres[1..]);
      Success([item] + rest)
  }

  /** Every item prefixed by the separator of its own connector. */
  function Separated(wheres: seq<Where>, items: seq<string>): string
    requires |wheres| == |items|
  {
    if wheres == [] then "" else ConnSeparator(wheres[0].conn) + items[0] + Separated(wheres[1..], items[1..])
  }

  lemma RenderAllStep(wheres: seq<Where>)
    requires wheres != [] && RenderAll(wheres).Success?
    ensures Render(wheres[0]).Success? && RenderAll(wheres[1..]).Success?
    ensures RenderAll(wheres).value == [Render(wheres[0]).value] + RenderAll(wheres[1..]).value
  {
  }

  lemma Associative(a: string, b: string, c: string)
    ensures a + b + c == a + (b + c)
  {
  }

  lemma {:induction false} RenderAllLength(wheres: seq<Where>)
    requires RenderAll(wheres).Success?
    ensures |RenderAll(wheres).value| == |wheres|
  {
    if wheres != [] {
      RenderAllStep(wheres);
      RenderAllLength(wheres[1..]);
    }
  }

  lemma {:induction false} ExplainFromNonEmpty(wheres: seq<Where>, script: string, items: seq<string>)
    requires script != [] && RenderAll(wheres) == Success(items)
    ensures |items| == |wheres|
    ensures ExplainFrom(wheres, script) == Success(script + Separated(wheres, items))
  {
    RenderAllLength(wheres);
    if wheres != [] {
      RenderAllStep(wheres);
      var item := items[0];
      var rest := items[1..];
      assert item == Render(wheres[0]).value;
      assert rest == RenderAll(wheres[1..]).value;
      var sep := ConnSeparator(wheres[0].conn);
      var tail := Separated(wheres[1..], rest);
      assert Separated(wheres, items) == sep + item + tail;
      ExplainStepAfterScript(wheres, script);
      assert ExplainFrom(wheres, script) == ExplainFrom(wheres[1..], script + sep + item);
      ExplainFromNonEmpty(wheres[1..], script + sep + item, rest);
      assert ExplainFrom(wheres[1..], script + sep + item) == Success(script + sep + item + tail);
      Associative(script, sep, item);
      Associative(script, sep + item, tail);
    } else {
      assert script + "" == script;
    }
  }

  /**
   * The layout of the script: the first item's connector is never printed, and every later
   * item follows the separator of its own connector (`" && "` for AND, `" || "` for OR).
   */
  lemma ExplainLayout(wheres: seq<Where>, items: seq<string>)
    requires RenderAll(wheres) == Success(items) && items != [] && items[0] != ""
    ensures |items| == |wheres|
    ensures ExplainAll(wheres) == Success(items[0] + Separated(wheres[1..], items[1..]))
  {
    RenderAllLength(wheres);
    RenderAllStep(wheres);
    var item := items[0];
    var rest := items[1..];
    assert RenderAll(wheres[1..]) == Success(rest);
    ExplainFirstStep(wheres);
    if wheres[1..] == [] {
      assert item + Separated(wheres[1..], rest) == item;
    } else {
      ExplainFromNonEmpty(wheres[1..], item, rest);
    }
  }

  /** As written, an item that prints as nothing (IN over no values) also swallows the next item's separator. */
  lemma EmptyFirstItemVanishes(wheres: seq<Where>)
    requires wheres != [] && Render(wheres[0]) == Success("")
    ensures ExplainAll(wheres) == ExplainAll(wheres[1..])
  {
    assert "" + "" == "";
  }

  /** Connectors do not affect how a node prints. */
  lemma RenderIgnoresConn(w: Where, c: Conn)
    ensures Render(w.(conn := c)) == Render(w)
  {
    match w
    case Condition(_, _, _, _, _) =>
    case Group(_, sub) =>
  }

  /** The first node's connector never matters. */
  lemma FirstConnIgnored(w: Where, c: Conn, rest: seq<Where>)
    ensures ExplainAll([w.(conn := c)] + rest) == ExplainAll([w] + rest)
  {
    RenderIgnoresConn(w, c);
    assert ([w.(conn := c)] + rest)[1..] == rest;
    assert ([w] + rest)[1..] == rest;
  }

  /** Explaining fails exactly when some node fails, with the first node's error. */
  lemma {:induction false} ExplainFromFailure(wheres: seq<Where>, script: string)
    ensures ExplainFrom(wheres, script).Failure? <==> RenderAll(wheres).Failure?
    ensures RenderAll(wheres).Failure? ==> ExplainFrom(wheres, script).error == RenderAll(wheres).error
  {
    if wheres != [] && Render(wheres[0]).Success? {
      var withSeparator := if |script| > 0 then script + ConnSeparator(wheres[0].conn) else script;
      ExplainFromFailure(wheres[1..], withSeparator + Render(wheres[0]).value);
    }
  }

  // ---- balanced parentheses ----

  predicate ParenFree(s: string) {
    forall i :: 0 <= i < |s| ==> s[i] != '(' && s[i] != ')'
  }

  /** Opened minus closed parentheses. */
  function Depth(s: string): int {
    if s == [] then 0
    else Depth(s[..|s| - 1]) + (if s[|s| - 1] == '(' then 1 else if s[|s| - 1] == ')' then -1 else 0)
  }

  /** Every parenthesis is closed, and none is closed before it is opened. */
  ghost predicate Balanced(s: string) {
    Depth(s) == 0 && forall k :: 0 <= k <= |s| ==> Depth(s[..k]) >= 0
  }

  lemma {:induction false} DepthConcat(a: string, b: string)
    ensures Depth(a + b) == Depth(a) + Depth(b)
  {
    if b != [] {
      assert (a + b)[..|a + b| - 1] == a + b[..|b| - 1];
      DepthConcat(a, b[..|b| - 1]);
    } else {
      assert a + b == a;
    }
  }

  lemma {:induction false} ParenFreeDepth(s: string)
    requires ParenFree(s)
    ensures Depth(s) == 0
  {
    if s != [] {
      ParenFreeDepth(s[..|s| - 1]);
    }
  }

  lemma ParenFreeBalanced(s: string)
    requires ParenFree(s)
    ensures Balanced(s)
  {
    forall k | 0 <= k <= |s| ensures Depth(s[..k]) == 0 {
      ParenFreeDepth(s[..k]);
    }
    ParenFreeDepth(s);
  }

  lemma BalancedConcat(a: string, b: string)
    requires Balanced(a) && Balanced(b)
    ensures Balanced(a + b)
  {
    DepthConcat(a, b);
    forall k | 0 <= k <= |a + b| ensures Depth((a + b)[..k]) >= 0 {
      if k <= |a| {
        assert (a + b)[..k] == a[..k];
      } else {
        assert (a + b)[..k] == a + b[..k - |a|];
        DepthConcat(a, b[..k - |a|]);
      }
    }
  }

  lemma BalancedWrap(s: string)
    requires Balanced(s)
    ensures Balanced("(" + s + ")")
  {
    var w := "(" + s + ")";
    DepthConcat("(" + s, ")");
    DepthConcat("(", s);
    forall k | 0 <= k <= |w| ensures Depth(w[..k]) >= 0 {
      if k == |w| {
        assert w[..k] == w;
      } else if k > 0 {
        assert w[..k] == "(" + s[..k - 1];
        DepthConcat("(", s[..k - 1]);
      }
    }
  }

  /** No name, symbol or value anywhere in the tree contains a parenthesis. */
  predicate AtomsParenFree(w: Where) {
    match w
    case Condition(_, name, _, symbol, value) =>
      ParenFree(name) && ParenFree(symbol) && ParenFree(value.text)
      && (value.Array? ==> forall i :: 0 <= i < |value.elements| ==> ParenFree(value.elements[i]))
    case Group(_, sub) => forall i :: 0 <= i < |sub| ==> AtomsParenFree(sub[i])
  }

  lemma ParenFreeConcat(a: string, b: string)
    requires ParenFree(a) && ParenFree(b)
    ensures ParenFree(a + b)
  {
    assert forall i :: 0 <= i < |a + b| ==> (a + b)[i] == if i < |a| then a[i] else b[i - |a|];
  }

  lemma ExprParenFree(name: string, operator: string, value: string)
    requires ParenFree(name) && ParenFree(operator) && ParenFree(value)
    ensures ParenFree(Expr(name, operator, value))
  {
    ParenFreeConcat(PARAMS, name);
    ParenFreeConcat(PARAMS + name, " ");
    ParenFreeConcat(PARAMS + name + " ", operator);
    ParenFreeConcat(PARAMS + name + " " + operator, " ");
    ParenFreeConcat(PARAMS + name + " " + operator + " ", value);
  }

  lemma {:induction false} JoinParenFree(parts: seq<string>, sep: string)
    requires ParenFree(sep) && forall i :: 0 <= i < |parts| ==> ParenFree(parts[i])
    ensures ParenFree(Join(parts, sep))
  {
    if |parts| >= 2 {
      JoinParenFree(parts[1..], sep);
      ParenFreeConcat(parts[0], sep);
      ParenFreeConcat(parts[0] + sep, Join(parts[1..], sep));
    }
  }

  lemma CreateScriptParenFree(cond: Where)
    requires cond.Condition? && AtomsParenFree(cond) && CreateScript(cond).Success?
    ensures ParenFree(CreateScript(cond).value)
  {
    var name := cond.name;
    var value := cond.value;
    match cond.operator
    case BETWEEN =>
      ExprParenFree(name, ">=", value.elements[0]);
      ExprParenFree(name, "<=", value.elements[1]);
      ParenFreeConcat(Expr(name, ">=", value.elements[0]), AND_SEPARATOR);
      ParenFreeConcat(Expr(name, ">=", value.elements[0]) + AND_SEPARATOR, Expr(name, "<=", value.elements[1]));
    case NBETWEEN =>
      ExprParenFree(name, "<", value.elements[0]);
      ExprParenFree(name, ">", value.elements[1]);
      ParenFreeConcat(Expr(name, "<", value.elements[0]), OR_SEPARATOR);
      ParenFreeConcat(Expr(name, "<", value.elements[0]) + OR_SEPARATOR, Expr(name, ">", value.elements[1]));
    case IN =>
      forall i | 0 <= i < |value.elements| ensures ParenFree(Clauses(name, "==", value.elements)[i]) {
        ExprParenFree(name, "==", value.elements[i]);
      }
      JoinParenFree(Clauses(name, "==", value.elements), OR_SEPARATOR);
    case NIN =>
      forall i | 0 <= i < |value.elements| ensures ParenFree(Clauses(name, "!=", value.elements)[i]) {
        ExprParenFree(name, "!=", value.elements[i]);
      }
      JoinParenFree(Clauses(name, "!=", value.elements), AND_SEPARATOR);
    case N =>
      ExprParenFree(name, "!=", value.text);
    case _ =>
      ExprParenFree(name, cond.symbol, value.text);
  }

  lemma RenderBalanced(w: Where)
    requires AtomsParenFree(w) && Render(w).Success?
    ensures Balanced(Render(w).value)
    decreases w, 1
  {
    match w
    case Condition(_, _, _, _, _) =>
      CreateScriptParenFree(w);
      ParenFreeBalanced(Render(w).value);
    case Group(_, sub) =>
      ParenFreeBalanced("");
      ExplainFromBalanced(sub, "");
      BalancedWrap(ExplainFrom(sub, "").value);
  }

  lemma ExplainFromBalanced(wheres: seq<Where>, script: string)
    requires Balanced(script) && ExplainFrom(wheres, script).Success?
    requires forall i :: 0 <= i < |wheres| ==> AtomsParenFree(wheres[i])
    ensures Balanced(ExplainFrom(wheres, script).value)
    decreases wheres, 0
  {
    if wheres != [] {
      var withSeparator := if |script| > 0 then script + ConnSeparator(wheres[0].conn) else script;
      if |script| > 0 {
        ParenFreeBalanced(ConnSeparator(wheres[0].conn));
        BalancedConcat(script, ConnSeparator(wheres[0].conn));
      }
      RenderBalanced(wheres[0]);
      BalancedConcat(withSeparator, Render(wheres[0]).value);
      ExplainFromBalanced(wheres[1..], withSeparator + Render(wheres[0]).value);
    }
  }

  /** When no name, symbol or value contains a parenthesis, the script's parentheses are balanced. */
  lemma ExplainBalanced(wheres: seq<Where>)
    requires forall i :: 0 <= i < |wheres| ==> AtomsParenFree(wheres[i])
    requires ExplainAll(wheres).Success?
    ensures Balanced(ExplainAll(wheres).value)
  {
    ParenFreeBalanced("");
    ExplainFromBalanced(wheres, "");
  }

  // ---- bucket paths ----

  /** A parameter value of a method field: a nested-field type with its bucket path, or anything else. */
  datatype ParamValue = NestedType(bucketPath: string) | OtherValue(text: string)

  datatype KVValue = KVValue(key: string, value: ParamValue)

  /** A field of SELECT or HAVING; a `MethodField` is an aggregation call with its parameters. */
  datatype Field =
    | PlainField(name: string, alias: string)
    | MethodField(name: string, alias: string, params: seq<KVValue>)

  /** `bucketsPath(alias, kvValueList)`: the nested bucket path for a single "nested" parameter, the alias otherwise. */
  function BucketsPath(alias: string, params: seq<KVValue>): (r: string)
    ensures |params| == 1 && params[0].key == "nested" && params[0].value.NestedType? ==>
              r == params[0].value.bucketPath
    ensures !(|params| == 1 && params[0].key == "nested" && params[0].value.NestedType?) ==> r == alias
  {
    if |params| == 1 && params[0].key == "nested" && params[0].value.NestedType? then params[0].value.bucketPath
    else alias
  }

  /** The map `contextForFieldsInSelect` builds, one `put` per method field, in order. */
  function Context(fields: seq<Field>): map<string, string> {
    if fields == [] then map[]
    else
      var f := fields[|fields| - 1];
      var m := Context(fields[..|fields| - 1]);
      if f.MethodField? then m[f.alias := BucketsPath(f.alias, f.params)] else m
  }

  /** `contextForFieldsInSelect(fields)`. */
  method ContextForFieldsInSelect(fields: seq<Field>) returns (context: map<string, string>)
    ensures context == Context(fields)
  {
    context := map[];
    var i := 0;
    while i < |fields|
      invariant 0 <= i <= |fields|
      invariant context == Context(fields[..i])
    {
      var field := fields[i];
      assert fields[..i + 1][..i] == fields[..i];
      if field.MethodField? {
        context := context[field.alias := BucketsPath(field.alias, field.params)];
      }
      i := i + 1;
    }
    assert fields[..i] == fields;
  }

  /** Some method field of `fields` has alias `k`. */
  predicate HasMethodAlias(fields: seq<Field>, k: string) {
    exists i :: 0 <= i < |fields| && fields[i].MethodField? && fields[i].alias == k
  }

  /** `fields[i]` is the last method field with its alias. */
  predicate LastWithAlias(fields: seq<Field>, i: int) {
    && 0 <= i < |fields| && fields[i].MethodField?
    && forall j :: i < j < |fields| && fields[j].MethodField? ==> fields[j].alias != fields[i].alias
  }

  /** The context holds exactly the aliases of the method fields. */
  lemma {:induction false} ContextKeys(fields: seq<Field>)
    ensures forall k :: k in Context(fields) <==> HasMethodAlias(fields, k)
  {
    if fields != [] {
      var n := |fields|;
      var init := fields[..n - 1];
      ContextKeys(init);
      forall k ensures k in Context(fields) <==> HasMethodAlias(fields, k) {
        if k in Context(fields) && !(fields[n - 1].MethodField? && fields[n - 1].alias == k) {
          assert k in Context(init);
          var i :| 0 <= i < n - 1 && init[i].MethodField? && init[i].alias == k;
          assert fields[i] == init[i];
        }
        if HasMethodAlias(fields, k) {
          var i :| 0 <= i < n && fields[i].MethodField? && fields[i].alias == k;
          if i < n - 1 {
            assert init[i] == fields[i];
            assert HasMethodAlias(init, k);
          }
        }
      }
    }
  }

  /** Each alias is bound to the bucket path of the last method field that has it: later fields win. */
  lemma {:induction false} ContextValues(fields: seq<Field>)
    ensures forall i :: LastWithAlias(fields, i) ==>
              && fields[i].alias in Context(fields)
              && Context(fields)[fields[i].alias] == BucketsPath(fields[i].alias, fields[i].params)
  {
    if fields != [] {
      var n := |fields|;
      var init := fields[..n - 1];
      ContextValues(init);
      forall i | LastWithAlias(fields, i)
        ensures fields[i].alias in Context(fields)
        ensures Context(fields)[fields[i].alias] == BucketsPath(fields[i].alias, fields[i].params)
      {
        if i < n - 1 {
          assert init[i] == fields[i];
          forall j | i < j < n - 1 && init[j].MethodField? ensures init[j].alias != init[i].alias {
            assert init[j] == fields[j];
          }
          assert LastWithAlias(init, i);
        }
      }
    }
  }

  // ---- the Having object and explain ----

  /** An already-parsed HAVING expression (parsing is not part of this model). */
  datatype SqlExpr = SqlExpr(id: nat)

  /** What the HAVING parser yields for an expression: its conditions and the fields it mentions. */
  datatype HavingParser = HavingParser(parseWhere: SqlExpr -> (seq<Where>, seq<Field>))

  datatype Having = Having(conditions: seq<Where>, havingFields: seq<Field>)

  /** `parseHavingExprToConditions`: no HAVING expression, no conditions. */
  function ParseHavingExprToConditions(havingExpr: Option<SqlExpr>, parser: HavingParser): (r: seq<Where>)
    ensures havingExpr.None? ==> r == []
    ensures havingExpr.Some? ==> r == parser.parseWhere(havingExpr.value).0
  {
    match havingExpr
    case None => []
    case Some(e) => parser.parseWhere(e).0
  }

  /** `new Having(havingExpr, parser)`; the fields are those the parser collected, none if it never ran. */
  function NewHaving(havingExpr: Option<SqlExpr>, parser: HavingParser): (h: Having)
    ensures havingExpr.None? ==> h == Having([], [])
    ensures h.conditions == ParseHavingExprToConditions(havingExpr, parser)
    ensures havingExpr.Some? ==> h.havingFields == parser.parseWhere(havingExpr.value).1
  {
    Having(ParseHavingExprToConditions(havingExpr, parser),
           if havingExpr.None? then [] else parser.parseWhere(havingExpr.value).1)
  }

  /** A GROUP BY clause, possibly with a HAVING expression. */
  datatype GroupByClause = GroupByClause(having: Option<SqlExpr>)

  /** `new Having(groupByExpr, parser)`: a missing GROUP BY means no HAVING expression. */
  function NewHavingFromGroupBy(groupBy: Option<GroupByClause>, parser: HavingParser): (h: Having)
    ensures groupBy.None? ==> h == Having([], [])
    ensures groupBy.Some? ==> h == NewHaving(groupBy.value.having, parser)
  {
    NewHaving(if groupBy.None? then None else groupBy.value.having, parser)
  }

  const BUCKET_SELECTOR_NAME: string := "bucket_filter"

  /** A pipeline aggregation: a bucket selector with its buckets-path map and its script. */
  datatype PipelineAggregation = BucketSelector(name: string, bucketsPathsMap: map<string, string>, script: string)

  /** The GROUP BY aggregation that `explain` attaches the selector to. */
  class AggregationBuilder {
    var subAggregations: seq<PipelineAggregation>

    constructor ()
      ensures subAggregations == []
    {
      subAggregations := [];
    }

    method SubAggregation(agg: PipelineAggregation)
      modifies this
      ensures subAggregations == old(subAggregations) + [agg]
    {
      subAggregations := subAggregations + [agg];
    }
  }

  /**
   * `explain(groupByAgg, fields)`: with conditions and a GROUP BY aggregation, attach one
   * bucket selector whose paths come from the SELECT fields followed by the HAVING fields;
   * otherwise, or when the script cannot be built, leave the aggregation as it was.
   */
  method Explain(having: Having, groupByAgg: AggregationBuilder?, fields: seq<Field>)
      returns (r: Result<(), ExplainError>)
    modifies groupByAgg
    ensures groupByAgg == null || having.conditions == [] ==> r == Success(())
    ensures groupByAgg != null && (having.conditions == [] || r.Failure?) ==>
              groupByAgg.subAggregations == old(groupByAgg.subAggregations)
    ensures groupByAgg != null && having.conditions != [] ==>
              match ExplainAll(having.conditions)
              case Failure(e) => r == Failure(e)
              case Success(script) =>
                && r == Success(())
                && groupByAgg.subAggregations == old(groupByAgg.subAggregations) +
                     [BucketSelector(BUCKET_SELECTOR_NAME, Context(fields + having.havingFields), script)]
  {
    if groupByAgg == null || having.conditions == [] {
      return Success(());
    }
    var context := ContextForFieldsInSelect(fields + having.havingFields);
    var script := DoExplain(having.conditions);
    if script.Failure? {
      return Failure(script.error);
    }
    groupByAgg.SubAggregation(BucketSelector(BUCKET_SELECTOR_NAME, context, script.value));
    return Success(());
  }
}
