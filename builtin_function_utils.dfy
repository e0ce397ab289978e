/**
 * `BuiltinFunctionUtils`: the table from PPL function and operator names to Calcite
 * operators, and the rewriting of argument lists into the order and arity Calcite expects.
 * Operators and user-defined functions are tags; their semantics are not modelled.
 */
module BuiltinFunctionUtils {
  import opened Wrappers
  import opened Text
  import TF = OpenSearchTypeFactory

  /** The user-defined function classes the table refers to. */
  datatype UdfClass =
    | ReplaceFunction | LocateFunction | ConvFunction | CRC32Function | EulerFunction
    | ModFunction | SqrtFunction | SpanFunction | IfFunction | IfNullFunction | NullIfFunction
    | TypeOfFunction

  /** A Calcite operator: a standard or library operator, or a user-defined function with its name. */
  datatype SqlOperator =
    | AND | OR | NOT | NOT_EQUALS | EQUALS | GREATER_THAN | GREATER_THAN_OR_EQUAL | LESS_THAN
    | LESS_THAN_OR_EQUAL | REGEXP | PLUS | MINUS | MULTIPLY | DIVIDE
    | ASCII | CONCAT_FUNCTION | CONCAT_WS | ILIKE | TRIM | CHAR_LENGTH | LOWER | POSITION
    | REVERSE | RIGHT | LEFT | SUBSTRING | STRCMP | UPPER
    | ABS | ACOS | ASIN | ATAN2 | CEIL | COS | COT | DEGREES | EXP | FLOOR | LN | LOG | LOG2
    | LOG10 | PI | POWER | RADIANS | RAND | ROUND | SIGN | SIN | CBRT
    | CURRENT_TIMESTAMP | CURRENT_DATE | DATE | DATE_ADD_SPARK | DATEADD
    | IS_NOT_NULL | IS_NULL
    | UserDefined(impl: UdfClass, name: string)

  datatype FunctionError =
    | UnsupportedOperator(op: string)      // "Unsupported operator: " + op
    | LogArity(args: seq<RexNode>)         // "Log cannot accept argument list: " + args
    | IndexOutOfBounds(index: nat)         // List.get past the end
    | NoSuchElement                        // List.getFirst on an empty list

  /** The upper-cased names `translate` accepts. */
  const OperatorNames: set<string> := {
    "AND", "OR", "NOT", "XOR", "!=", "=", "<>", ">", ">=", "<", "<=", "REGEXP",
    "+", "-", "*", "/", "ASCII", "CONCAT", "CONCAT_WS", "LIKE", "LTRIM", "RTRIM", "TRIM",
    "LENGTH", "LOWER", "POSITION", "REVERSE", "RIGHT", "LEFT", "SUBSTRING", "SUBSTR",
    "STRCMP", "REPLACE", "LOCATE", "UPPER", "ABS", "ACOS", "ASIN", "ATAN", "ATAN2",
    "CEILING", "CONV", "COS", "COT", "CRC32", "DEGREES", "E", "EXP", "FLOOR", "LN", "LOG",
    "LOG2", "LOG10", "MOD", "%", "PI", "POW", "POWER", "RADIANS", "RAND", "ROUND", "SIGN",
    "SIN", "SQRT", "CBRT", "CURRENT_TIMESTAMP", "CURRENT_DATE", "DATE", "ADDDATE",
    "DATE_ADD", "SPAN", "IF", "IFNULL", "NULLIF", "IS NOT NULL", "IS NULL", "TYPEOF"
  }

  /** The `switch` of `translate`, on an already upper-cased name. */
  function LookupOperator(name: string): Option<SqlOperator> {
    match name
    case "AND" => Some(AND)
    case "OR" => Some(OR)
    case "NOT" => Some(NOT)
    case "XOR" => Some(NOT_EQUALS)
    case "!=" => Some(NOT_EQUALS)
    case "=" => Some(EQUALS)
    case "<>" => Some(GREATER_THAN)
    case ">" => Some(GREATER_THAN)
    case ">=" => Some(GREATER_THAN_OR_EQUAL)
    case "<" => Some(LESS_THAN)
    case "<=" => Some(LESS_THAN_OR_EQUAL)
    case "REGEXP" => Some(REGEXP)
    case "+" => Some(PLUS)
    case "-" => Some(MINUS)
    case "*" => Some(MULTIPLY)
    case "/" => Some(DIVIDE)
    case "ASCII" => Some(ASCII)
    case "CONCAT" => Some(CONCAT_FUNCTION)
    case "CONCAT_WS" => Some(CONCAT_WS)
    case "LIKE" => Some(ILIKE)
    case "LTRIM" => Some(TRIM)
    case "RTRIM" => Some(TRIM)
    case "TRIM" => Some(TRIM)
    case "LENGTH" => Some(CHAR_LENGTH)
    case "LOWER" => Some(LOWER)
    case "POSITION" => Some(POSITION)
    case "REVERSE" => Some(REVERSE)
    case "RIGHT" => Some(RIGHT)
    case "LEFT" => Some(LEFT)
    case "SUBSTRING" => Some(SUBSTRING)
    case "SUBSTR" => Some(SUBSTRING)
    case "STRCMP" => Some(STRCMP)
    case "REPLACE" => Some(UserDefined(ReplaceFunction, "REPLACE"))
    case "LOCATE" => Some(UserDefined(LocateFunction, "LOCATE"))
    case "UPPER" => Some(UPPER)
    case "ABS" => Some(ABS)
    case "ACOS" => Some(ACOS)
    case "ASIN" => Some(ASIN)
    case "ATAN" => Some(ATAN2)
    case "ATAN2" => Some(ATAN2)
    case "CEILING" => Some(CEIL)
    case "CONV" => Some(UserDefined(ConvFunction, "CONVERT"))
    case "COS" => Some(COS)
    case "COT" => Some(COT)
    case "CRC32" => Some(UserDefined(CRC32Function, "CRC32"))
    case "DEGREES" => Some(DEGREES)
    case "E" => Some(UserDefined(EulerFunction, "E"))
    case "EXP" => Some(EXP)
    case "FLOOR" => Some(FLOOR)
    case "LN" => Some(LN)
    case "LOG" => Some(LOG)
    case "LOG2" => Some(LOG2)
    case "LOG10" => Some(LOG10)
    case "MOD" => Some(UserDefined(ModFunction, "MOD"))
    case "%" => Some(UserDefined(ModFunction, "MOD"))
    case "PI" => Some(PI)
    case "POW" => Some(POWER)
    case "POWER" => Some(POWER)
    case "RADIANS" => Some(RADIANS)
    case "RAND" => Some(RAND)
    case "ROUND" => Some(ROUND)
    case "SIGN" => Some(SIGN)
    case "SIN" => Some(SIN)
    case "SQRT" => Some(UserDefined(SqrtFunction, "SQRT"))
    case "CBRT" => Some(CBRT)
    case "CURRENT_TIMESTAMP" => Some(CURRENT_TIMESTAMP)
    case "CURRENT_DATE" => Some(CURRENT_DATE)
    case "DATE" => Some(DATE)
    case "ADDDATE" => Some(DATE_ADD_SPARK)
    case "DATE_ADD" => Some(DATEADD)
    case "SPAN" => Some(UserDefined(SpanFunction, "SPAN"))
    case "IF" => Some(UserDefined(IfFunction, "if"))
    case "IFNULL" => Some(UserDefined(IfNullFunction, "ifnull"))
    case "NULLIF" => Some(UserDefined(NullIfFunction, "ifnull"))
    case "IS NOT NULL" => Some(IS_NOT_NULL)
    case "IS NULL" => Some(IS_NULL)
    case "TYPEOF" => Some(UserDefined(TypeOfFunction, "typeof"))
    case _ => None
  }

  /** `translate(op)`: look the upper-cased name up, or throw for an unknown name. */
  function Translate(op: string): (r: Result<SqlOperator, FunctionError>)
    ensures r.Failure? ==> r.error == UnsupportedOperator(op)
  {
    match LookupOperator(Upper(op))
    case Some(o) => Success(o)
    case None => Failure(UnsupportedOperator(op))
  }

  /** Every name outside the table, in any case, is rejected with the caller's spelling. */
  lemma TranslateRejectsUnlisted(op: string)
    requires Upper(op) !in OperatorNames
    ensures Translate(op) == Failure(UnsupportedOperator(op))
  {
    if LookupOperator(Upper(op)).Some? {
      LookupWithinNames(Upper(op));
    }
  }

  /** The lookup table only answers for names of `OperatorNames`. */
  lemma LookupWithinNames(name: string)
    requires LookupOperator(name).Some?
    ensures name in OperatorNames
  {
  }

  /** `translate` is case-insensitive: only the error message keeps the caller's spelling. */
  lemma TranslateIgnoresCase(op: string)
    ensures Translate(Upper(op)).Success? == Translate(op).Success?
    ensures Translate(op).Success? ==> Translate(Upper(op)) == Translate(op)
  {
    UpperIdempotent(op);
  }

  /** LTRIM, RTRIM and TRIM, in any case, share Calcite's TRIM. */
  lemma TrimAliases(op: string)
    ensures Upper(op) in {"LTRIM", "RTRIM", "TRIM"} ==> Translate(op) == Success(TRIM)
  {
  }

  /** SUBSTRING and SUBSTR, in any case, share SUBSTRING. */
  lemma SubstringAliases(op: string)
    ensures Upper(op) in {"SUBSTRING", "SUBSTR"} ==> Translate(op) == Success(SUBSTRING)
  {
  }

  /** ATAN and ATAN2, in any case, share ATAN2. */
  lemma AtanAliases(op: string)
    ensures Upper(op) in {"ATAN", "ATAN2"} ==> Translate(op) == Success(ATAN2)
  {
  }

  /** POW and POWER, in any case, share POWER. */
  lemma PowerAliases(op: string)
    ensures Upper(op) in {"POW", "POWER"} ==> Translate(op) == Success(POWER)
  {
  }

  /** MOD and %, in any case, share the MOD user-defined function. */
  lemma ModAliases(op: string)
    ensures Upper(op) in {"MOD", "%"} ==> Translate(op) == Success(UserDefined(ModFunction, "MOD"))
  {
  }

  /** As written: XOR is NOT_EQUALS, like `!=`, and `<>` is GREATER_THAN, like `>`. */
  lemma TranslateComparisonQuirks(op: string)
    ensures Upper(op) in {"XOR", "!="} ==> Translate(op) == Success(NOT_EQUALS)
    ensures Upper(op) in {"<>", ">"} ==> Translate(op) == Success(GREATER_THAN)
  {
  }

  // ---- argument rewriting ----

  /** The flag of `SqlTrimFunction`. */
  datatype TrimFlag = BOTH | LEADING | TRAILING

  /**
   * A row expression: an argument built by the caller (opaque, identified by `id`) or one of
   * the literals `translateArgument` creates.
   */
  datatype RexNode =
    | Operand(id: nat)
    | FlagLiteral(flag: TrimFlag)   // rexBuilder.makeFlag
    | CharLiteral(text: string)     // rexBuilder.makeLiteral(String)
    | BigintLiteral(value: int)     // rexBuilder.makeBigintLiteral
    | EulerLiteral                  // rexBuilder.makeExactLiteral(E, DOUBLE)

  /** What `translateArgument` reads from the planning context. */
  datatype PlanContext = PlanContext(queryType: TF.QueryType, typeOf: RexNode -> TF.RelType, naming: TF.TypeNaming)

  /** The trim flag for each of the three trim names. */
  function TrimFlagFor(name: string): TrimFlag
    requires name in {"TRIM", "LTRIM", "RTRIM"}
  {
    if name == "TRIM" then BOTH else if name == "LTRIM" then LEADING else TRAILING
  }

  /** The upper-cased names whose argument lists `translateArgument` rewrites. */
  const RewrittenNames: set<string> := {"TRIM", "LTRIM", "RTRIM", "STRCMP", "ATAN", "LOG", "TYPEOF"}

  /** `translateArgument(op, argList, context)`. */
  function TranslateArgument(op: string, args: seq<RexNode>, context: PlanContext): (r: Result<seq<RexNode>, FunctionError>)
    ensures Upper(op) in {"TRIM", "LTRIM", "RTRIM"} ==>
              && r.Success? && |r.value| == |args| + 2 && r.value[2..] == args
              && r.value[..2] == [FlagLiteral(TrimFlagFor(Upper(op))), CharLiteral(" ")]
    ensures Upper(op) == "STRCMP" ==>
              r == if |args| < 2 then Failure(IndexOutOfBounds(1)) else Success([args[1], args[0]])
    ensures Upper(op) == "ATAN" ==> r == Success(if |args| == 1 then args + [BigintLiteral(1)] else args)
    ensures Upper(op) == "LOG" ==>
              r == if |args| == 1 then Success([args[0], EulerLiteral])
                   else if |args| == 2 then Success([args[1], args[0]])
                   else Failure(LogArity(args))
    ensures Upper(op) == "TYPEOF" ==>
              r == if args == [] then Failure(NoSuchElement)
                   else Success([CharLiteral(TF.GetLegacyTypeName(context.typeOf(args[0]), context.queryType, context.naming))])
    ensures Upper(op) !in RewrittenNames ==> r == Success(args)
  {
    match Upper(op)
    case "TRIM" => Success([FlagLiteral(BOTH), CharLiteral(" ")] + args)
    case "LTRIM" => Success([FlagLiteral(LEADING), CharLiteral(" ")] + args)
    case "RTRIM" => Success([FlagLiteral(TRAILING), CharLiteral(" ")] + args)
    case "STRCMP" =>
      if |args| < 2 then Failure(IndexOutOfBounds(1)) else Success([args[1], args[0]])
    case "ATAN" =>
      if |args| == 1 then Success(args + [BigintLiteral(1)]) else Success(args)
    case "LOG" =>
      if |args| == 1 then Success([args[0], EulerLiteral])
      else if |args| == 2 then Success([args[1], args[0]])
      else Failure(LogArity(args))
    case "TYPEOF" =>
      if args == [] then Failure(NoSuchElement)
      else Success([CharLiteral(TF.GetLegacyTypeName(context.typeOf(args[0]), context.queryType, context.naming))])
    case _ => Success(args)
  }

  /** `translateArgument` is case-insensitive in the function name. */
  lemma TranslateArgumentIgnoresCase(op: string, args: seq<RexNode>, context: PlanContext)
    ensures TranslateArgument(Upper(op), args, context) == TranslateArgument(op, args, context)
  {
    UpperIdempotent(op);
  }

  /** Every name whose arguments get rewritten is one `translate` accepts, as the same operator kind. */
  lemma RewrittenNamesTranslate(op: string)
    ensures Upper(op) in RewrittenNames ==> Translate(op).Success?
    ensures Upper(op) in {"TRIM", "LTRIM", "RTRIM"} ==> Translate(op) == Success(TRIM)
    ensures Upper(op) == "LOG" ==> Translate(op) == Success(LOG)
    ensures Upper(op) == "ATAN" ==> Translate(op) == Success(ATAN2)
  {
  }

  /** A LOG call that is accepted always reaches Calcite with (value, base) and keeps every input. */
  lemma LogIsBinary(op: string, args: seq<RexNode>, context: PlanContext)
    requires Upper(op) == "LOG"
    ensures TranslateArgument(op, args, context).Success? <==> 1 <= |args| <= 2
    ensures TranslateArgument(op, args, context).Success? ==>
              var r := TranslateArgument(op, args, context).value;
              |r| == 2 && multiset(args) <= multiset(r)
  {
    if |args| == 2 {
      assert args == [args[0], args[1]];
    } else if |args| == 1 {
      assert args == [args[0]];
    }
  }
}
