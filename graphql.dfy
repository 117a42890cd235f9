/**
 * Values shared by the three cost scorers: the parsed query (an executable
 * document), the literal argument values inside it, the response value tree
 * that actual cost is computed from, and the errors an estimate can fail with.
 */
module GraphQL {

  datatype Option<+T> = None | Some(value: T) {
    /** `map_or`-style default: the wrapped value, or `default` when absent. */
    function GetOr(default: T): T {
      if Some? then value else default
    }
  }

  /** The kind of operation, which selects the schema's root type. */
  datatype OperationType = Query | Mutation | Subscription

  /** The reason carried by a `QueryParseFailure`. */
  datatype ParseFailure =
    | ArgumentTypeNotInSchema(argument: string)
    | IllegalArgumentType(argument: string)
    | InputFieldNotInSchema(argument: string)
    | FieldNotInSchema(parentType: string, field: string)
    | FieldTypeNotInSchema(field: string)
    | ArgumentNotDefined(argument: string, field: string)
    | FragmentNotDefined(fragment: string)
    | RootTypeUnsupported(operationType: OperationType)
    | NoSubgraphSchema(service: string)

  /**
   * Why a static or plan-based estimate failed. `DepthExhausted` belongs to
   * the model only: it is what the scorers return when the `fuel` bound on
   * fragment and `@requires` indirections runs out.
   */
  datatype Error =
    | QueryParseFailure(failure: ParseFailure)
    | SubgraphOperationNotInitialized
    | DepthExhausted

  datatype Result<+T> = Ok(value: T) | Err(error: Error) {
    predicate IsFailure() {
      Err?
    }

    function PropagateFailure<U>(): Result<U>
      requires Err?
    {
      Err(error)
    }

    function Extract(): T
      requires Ok?
    {
      value
    }
  }

  /** A literal argument value as written in the query. */
  datatype ArgValue =
    | NullValue
    | EnumValue(name: string)
    | VariableValue(name: string)
    | StringValue(text: string)
    | FloatValue(number: real)
    | IntValue(integer: int)
    | BooleanValue(truth: bool)
    | ListValue(elements: seq<ArgValue>)
    | ObjectValue(fields: seq<ObjectField>)

  /** One `name: value` entry of an input-object literal, in query order. */
  datatype ObjectField = ObjectField(name: string, value: ArgValue)

  /** A field argument present in the query. */
  datatype Argument = Argument(name: string, value: ArgValue)

  /**
   * A field's declared type as seen by the query: the innermost named type and
   * whether the outermost wrapper (ignoring non-null) is a list.
   */
  datatype TypeRef = TypeRef(namedType: string, isList: bool)

  /**
   * The literal `if:` argument of an `@include` or `@skip` directive on a field:
   * absent, a literal boolean, or anything else (a variable, a malformed value),
   * which never excludes the field.
   */
  datatype ConditionArg = Absent | Literal(value: bool) | NotLiteral

  datatype Field = Field(
    alias: Option<string>,
    name: string,
    ty: TypeRef,
    arguments: seq<Argument>,
    includeIf: ConditionArg,
    skipIf: ConditionArg,
    selectionSet: SelectionSet)
  {
    /** The key under which the field's value appears in a response. */
    function ResponseKey(): string {
      alias.GetOr(name)
    }
  }

  datatype FragmentSpread = FragmentSpread(fragmentName: string)

  datatype InlineFragment = InlineFragment(typeCondition: Option<string>, selectionSet: SelectionSet)

  datatype Selection =
    | FieldSelection(field: Field)
    | SpreadSelection(spread: FragmentSpread)
    | InlineSelection(inline: InlineFragment)

  /**
   * An ordered selection set; `ty` is the type the parser attached to it (the
   * field's named type, the fragment's type condition, or the root type).
   */
  datatype SelectionSet = SelectionSet(ty: string, selections: seq<Selection>)

  datatype Fragment = Fragment(selectionSet: SelectionSet)

  datatype Operation = Operation(operationType: OperationType, selectionSet: SelectionSet)

  /** A parsed query: an optional anonymous operation, the named ones, and the fragment table. */
  datatype ExecutableDocument = ExecutableDocument(
    anonymous: Option<Operation>,
    named: seq<Operation>,
    fragments: map<string, Fragment>)

  /** A response value tree; object members keep their response order. */
  datatype Json =
    | Null
    | Bool(b: bool)
    | Number(n: real)
    | Str(s: string)
    | Array(items: seq<Json>)
    | Object(members: seq<Member>)

  datatype Member = Member(key: string, value: Json)

  /** Index of the first member named `key`, or -1 when there is none. */
  function Find(members: seq<Member>, key: string): (i: int)
    ensures -1 <= i < |members|
    ensures i >= 0 ==> members[i].key == key
    ensures forall j :: 0 <= j < |members| && (i < 0 || j < i) ==> members[j].key != key
  {
    if members == [] then -1
    else if members[0].key == key then 0
    else
      var j := Find(members[1..], key);
      if j < 0 then -1 else j + 1
  }
}
