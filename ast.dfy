/**
 * The parsed query's building blocks: property references (with their
 * aggregate classification and the interning table), the select list, and
 * the where, having, group-by, unwind and with clauses with the text each
 * contributes to the aggregation pipeline.
 */
module Ast {
  import opened Wrappers
  import opened Text

  /**
   * The aggregate a reference's path selects. NotAggregate stands for the value a
   * reference holds when its constructor assigns none; it is assumed to differ from the three
   * named kinds.
   */
  datatype AggregateKind = NotAggregate | Count | Sum | Average

  datatype Comparison = Equals | NotEquals | LessThan | LessThanEquals | GreaterThan | GreaterThanEquals

  datatype BooleanOperand = And | Or

  /**
   * The value an unset BooleanOperand field holds. The enum's declaration is not part of this
   * model: it is assumed to list `And` first, so that `And` is its default.
   */
  const DefaultBooleanOperand := And

  // ---------------------------------------------------------------------
  // Property references
  // ---------------------------------------------------------------------

  /** The aggregate a path asks for, by its (ordinal, case-sensitive) suffix, tried COUNT, SUM, AVG. */
  function Classify(path: string): (k: AggregateKind)
    ensures k == Count <==> EndsWith(path, "COUNT")
    ensures k == Sum <==> EndsWith(path, "SUM")
    ensures k == Average <==> EndsWith(path, "AVG")
  {
    if EndsWith(path, "COUNT") then
      assert path[|path| - 1] == 'T';
      Count
    else if EndsWith(path, "SUM") then
      assert path[|path| - 1] == 'M';
      Sum
    else if EndsWith(path, "AVG") then Average
    else NotAggregate
  }

  /** The alias the constructor gives an aggregate reference of collection `col`; none otherwise. */
  function AggregateAlias(col: string, k: AggregateKind): Option<string>
  {
    match k
    case NotAggregate => None
    case Count => Some(col + "_count")
    case Sum => Some(col + "_sum")
    case Average => Some(col + "_avg")
  }

  /** The interning key of a reference, which is also what its ToString prints. */
  function ReferenceKey(col: string, path: string): string
  {
    col + "." + path
  }

  class PropertyReference {
    const collection: string
    const path: string
    const aggregate: AggregateKind
    const line: int
    const character: int

    var alias: Option<string>
    var analyzedName: Option<string>

    constructor(col: string, path: string, line: int, charPositionInLine: int)
      ensures collection == col && this.path == path
      ensures this.line == line && character == charPositionInLine
      ensures aggregate == Classify(path)
      ensures alias == AggregateAlias(col, aggregate)
      ensures analyzedName == None
    {
      this.line := line;
      character := charPositionInLine;
      collection := col;
      this.path := path;
      var kind := NotAggregate;
      var a: Option<string> := None;
      if EndsWith(path, "COUNT") {
        kind := Count;
        a := Some(col + "_count");
      } else if EndsWith(path, "SUM") {
        kind := Sum;
        a := Some(col + "_sum");
      } else if EndsWith(path, "AVG") {
        kind := Average;
        a := Some(col + "_avg");
      }
      aggregate := kind;
      alias := a;
      analyzedName := None;
    }

    predicate IsAggregate()
    {
      aggregate != NotAggregate
    }

    function ToString(): (r: string)
      ensures r == ReferenceKey(collection, path)
    {
      collection + "." + path
    }
  }

  /** The process-wide table of known references, passed here as an explicit object. */
  class ReferenceTable {
    var known: map<string, PropertyReference>

    /** Every entry is filed under its own reference's key. */
    ghost predicate Valid()
      reads this
    {
      forall k :: k in known ==> ReferenceKey(known[k].collection, known[k].path) == k
    }

    constructor()
      ensures known == map[] && Valid()
    {
      known := map[];
    }

    /** The reference already filed under col + "." + path, or a new one, filed there. */
    method GetReference(col: string, path: string, line: int, charPositionInLine: int) returns (r: PropertyReference)
      requires Valid()
      modifies this
      ensures Valid()
      ensures ReferenceKey(col, path) in old(known) ==> r == old(known)[ReferenceKey(col, path)] && known == old(known)
      ensures ReferenceKey(col, path) !in old(known) ==>
        && fresh(r)
        && known == old(known)[ReferenceKey(col, path) := r]
        && r.collection == col && r.path == path
        && r.line == line && r.character == charPositionInLine
        && r.aggregate == Classify(path) && r.alias == AggregateAlias(col, r.aggregate) && r.analyzedName == None
      ensures '.' !in col && '.' !in r.collection ==> r.collection == col && r.path == path
    {
      var agg := col + "." + path;
      if agg in known {
        r := known[agg];
        if '.' !in col && '.' !in r.collection {
          KeyDeterminesReference(col, path, r.collection, r.path);
        }
        return;
      }
      r := new PropertyReference(col, path, line, charPositionInLine);
      known := known[agg := r];
    }
  }

  /** The first dot of a key whose collection part has none is the one after the collection. */
  lemma KeyDeterminesReference(c1: string, p1: string, c2: string, p2: string)
    requires '.' !in c1 && '.' !in c2
    ensures ReferenceKey(c1, p1) == ReferenceKey(c2, p2) <==> c1 == c2 && p1 == p2
  {
    var k1 := ReferenceKey(c1, p1);
    var k2 := ReferenceKey(c2, p2);
    if k1 == k2 {
      assert k1[|c1|] == '.' && k2[|c2|] == '.';
      assert |c1| == |c2|;
      assert c1 == k1[..|c1|] && c2 == k2[..|c2|];
      assert p1 == k1[|c1| + 1..] && p2 == k2[|c2| + 1..];
    }
  }

  /** Aggregates of different kinds from one collection get different aliases, and each alias keeps its suffix. */
  lemma AggregateAliasesDistinct(col: string, k1: AggregateKind, k2: AggregateKind)
    requires k1 != NotAggregate && k2 != NotAggregate && k1 != k2
    ensures AggregateAlias(col, k1).Some? && AggregateAlias(col, k2).Some?
    ensures AggregateAlias(col, k1).value != AggregateAlias(col, k2).value
  {
    if (k1 == Sum && k2 == Average) || (k1 == Average && k2 == Sum) {
      var a1 := AggregateAlias(col, k1).value;
      var a2 := AggregateAlias(col, k2).value;
      assert a1[|a1| - 1] != a2[|a2| - 1];
    }
  }

  /** Appending ".COUNT", ".SUM" or ".AVG" to any path selects that aggregate. */
  lemma AggregateSuffixes(path: string)
    ensures Classify(path + ".COUNT") == Count
    ensures Classify(path + ".SUM") == Sum
    ensures Classify(path + ".AVG") == Average
  {
    var c := path + ".COUNT";
    var s := path + ".SUM";
    var a := path + ".AVG";
    assert c[|c| - 5..] == "COUNT";
    assert s[|s| - 3..] == "SUM";
    assert a[|a| - 3..] == "AVG";
  }

  class PropertyList {
    var properties: seq<PropertyReference>

    constructor()
      ensures properties == []
    {
      properties := [];
    }

    /** Appends at the end, without any membership test. */
    method Add(reference: PropertyReference)
      modifies this
      ensures properties == old(properties) + [reference]
    {
      properties := properties + [reference];
    }
  }

  // ---------------------------------------------------------------------
  // Comparator clauses (where and having)
  // ---------------------------------------------------------------------

  function Operator(comparison: Comparison): string
  {
    match comparison
    case Equals => ""
    case NotEquals => "$ne"
    case LessThan => "$lt"
    case LessThanEquals => "$lte"
    case GreaterThan => "$gt"
    case GreaterThanEquals => "$gte"
  }

  /** The comparison's right-hand side: the value itself for Equals, else an operator document. */
  function ComparatorBody(comparison: Comparison, value: string): string
  {
    if comparison == Equals then value else "{" + Operator(comparison) + ":" + value + "}"
  }

  /** A comparator clause's text; a null key or value is appended as nothing. */
  function ComparatorText(key: Option<string>, comparison: Comparison, value: Option<string>): string
  {
    "{'" + key.GetOr("") + "':" + ComparatorBody(comparison, value.GetOr("")) + "}"
  }

  /** StringBuilder appends of ComparatorClause.ToString. */
  method ComparatorToString(key: Option<string>, comparison: Comparison, analyzedValue: Option<string>)
    returns (r: string)
    ensures r == ComparatorText(key, comparison, analyzedValue)
  {
    var sb := "{'";
    sb := sb + key.GetOr("");
    sb := sb + "':";
    ghost var prefix := sb;
    match comparison {
      case Equals => sb := sb + analyzedValue.GetOr("");
      case NotEquals => sb := AppendOperator(sb, "$ne", analyzedValue);
      case LessThan => sb := AppendOperator(sb, "$lt", analyzedValue);
      case LessThanEquals => sb := AppendOperator(sb, "$lte", analyzedValue);
      case GreaterThan => sb := AppendOperator(sb, "$gt", analyzedValue);
      case GreaterThanEquals => sb := AppendOperator(sb, "$gte", analyzedValue);
    }
    assert sb == prefix + ComparatorBody(comparison, analyzedValue.GetOr(""));
    sb := sb + "}";
    r := sb;
  }

  method AppendOperator(sb: string, op: string, analyzedValue: Option<string>) returns (r: string)
    ensures r == sb + ("{" + op + ":" + analyzedValue.GetOr("") + "}")
  {
    r := sb + "{";
    r := r + op;
    r := r + ":";
    r := r + analyzedValue.GetOr("");
    r := r + "}";
  }

  /** An operator document is one character, the operator, a colon, the value and one more character. */
  lemma OperatorInside(c: Comparison, v: string)
    requires c != Equals
    ensures |ComparatorBody(c, v)| == |Operator(c)| + |v| + 3
    ensures ComparatorBody(c, v)[1..|Operator(c)| + 1] == Operator(c)
  {
    var op := Operator(c);
    assert ComparatorBody(c, v) == "{" + op + (":" + v + "}");
  }

  /** The five operators are different strings. */
  lemma OperatorInjective(c1: Comparison, c2: Comparison)
    requires c1 != Equals && c2 != Equals && c1 != c2
    ensures Operator(c1) != Operator(c2)
  {
    if |Operator(c1)| == |Operator(c2)| {
      assert Operator(c1)[1] != Operator(c2)[1];
    }
  }

  /** The operator documents of the five non-equality comparisons differ pairwise. */
  lemma OperatorBodiesDistinct(c1: Comparison, c2: Comparison, v: string)
    requires c1 != c2
    ensures ComparatorBody(c1, v) != ComparatorBody(c2, v)
  {
    if c1 != Equals {
      OperatorInside(c1, v);
    }
    if c2 != Equals {
      OperatorInside(c2, v);
    }
    if c1 != Equals && c2 != Equals {
      OperatorInjective(c1, c2);
    }
  }

  /** For the same key and value the six comparisons render to six different texts. */
  lemma ComparisonsRenderDistinct(key: Option<string>, c1: Comparison, c2: Comparison, value: Option<string>)
    requires c1 != c2
    ensures ComparatorText(key, c1, value) != ComparatorText(key, c2, value)
  {
    var prefix := "{'" + key.GetOr("") + "':";
    var b1 := ComparatorBody(c1, value.GetOr(""));
    var b2 := ComparatorBody(c2, value.GetOr(""));
    OperatorBodiesDistinct(c1, c2, value.GetOr(""));
    if ComparatorText(key, c1, value) == ComparatorText(key, c2, value) {
      InfixDetermined(prefix, b1, b2, "}");
    }
  }

  /** ComparatorText is a fixed prefix, the value, and a fixed suffix. */
  lemma ComparatorTextFrame(key: Option<string>, comparison: Comparison, v: string)
    ensures ComparatorText(key, comparison, Some(v))
         == "{'" + key.GetOr("") + "':" + (if comparison == Equals then "" else "{" + Operator(comparison) + ":")
            + v + ((if comparison == Equals then "" else "}") + "}")
  {
    var k := "{'" + key.GetOr("") + "':";
    if comparison == Equals {
      assert k + v + "}" == k + "" + v + ("" + "}");
    } else {
      var o := "{" + Operator(comparison) + ":";
      assert k + (o + v + "}") + "}" == k + o + v + ("}" + "}");
    }
  }

  /** With key and comparison fixed, the text determines the value: no two values render alike. */
  lemma ComparatorValueRecoverable(key: Option<string>, comparison: Comparison, v1: Option<string>, v2: Option<string>)
    ensures ComparatorText(key, comparison, v1) == ComparatorText(key, comparison, v2) <==> v1.GetOr("") == v2.GetOr("")
  {
    var p := "{'" + key.GetOr("") + "':" + (if comparison == Equals then "" else "{" + Operator(comparison) + ":");
    var s := (if comparison == Equals then "" else "}") + "}";
    assert ComparatorText(key, comparison, v1) == ComparatorText(key, comparison, Some(v1.GetOr("")));
    assert ComparatorText(key, comparison, v2) == ComparatorText(key, comparison, Some(v2.GetOr("")));
    ComparatorTextFrame(key, comparison, v1.GetOr(""));
    ComparatorTextFrame(key, comparison, v2.GetOr(""));
    if ComparatorText(key, comparison, v1) == ComparatorText(key, comparison, v2) {
      InfixDetermined(p, v1.GetOr(""), v2.GetOr(""), s);
    }
  }

  class WhereClause {
    const booleanOperand: BooleanOperand
    const property: PropertyReference
    const comparison: Comparison
    /** LiteralValue, as the text its ToString gives. */
    const literal: string

    var analyzedValue: Option<string>

    constructor(boolOp: BooleanOperand, prop: PropertyReference, comp: Comparison, literal: string)
      ensures booleanOperand == boolOp && property == prop && comparison == comp && this.literal == literal
      ensures analyzedValue == None
    {
      booleanOperand := boolOp;
      property := prop;
      comparison := comp;
      this.literal := literal;
      analyzedValue := None;
    }

    /** The three-argument constructor: the connector keeps its default value. */
    constructor WithoutOperand(prop: PropertyReference, comp: Comparison, literal: string)
      ensures booleanOperand == DefaultBooleanOperand
      ensures property == prop && comparison == comp && this.literal == literal
      ensures analyzedValue == None
    {
      booleanOperand := DefaultBooleanOperand;
      property := prop;
      comparison := comp;
      this.literal := literal;
      analyzedValue := None;
    }

    /** The clause's text: keyed by the property's analyzed short name. */
    function Text(): string
      reads this, property
    {
      ComparatorText(property.analyzedName, comparison, analyzedValue)
    }

    method ToString() returns (r: string)
      ensures r == ComparatorText(property.analyzedName, comparison, analyzedValue)
    {
      r := ComparatorToString(property.analyzedName, comparison, analyzedValue);
    }
  }

  class HavingClause {
    const property: PropertyReference
    const comparison: Comparison
    const literal: string

    var analyzedValue: Option<string>

    constructor(prop: PropertyReference, comp: Comparison, literal: string)
      ensures property == prop && comparison == comp && this.literal == literal
      ensures analyzedValue == None
    {
      property := prop;
      comparison := comp;
      this.literal := literal;
      analyzedValue := None;
    }

    /** The clause's text: keyed by the property's alias, not its analyzed name. */
    function Text(): string
      reads this, property
    {
      ComparatorText(property.alias, comparison, analyzedValue)
    }

    method ToString() returns (r: string)
      ensures r == ComparatorText(property.alias, comparison, analyzedValue)
    {
      r := ComparatorToString(property.alias, comparison, analyzedValue);
    }
  }

  // ---------------------------------------------------------------------
  // Group by and unwind
  // ---------------------------------------------------------------------

  /** The accumulator of the $group stage; only the three aggregate kinds have one. */
  function Accumulator(kind: AggregateKind, name: Option<string>): Result<string, Fault>
  {
    match kind
    case Count => Success("{$sum:1}")
    case Sum => Success("{$sum:'$" + name.GetOr("") + "'}")
    case Average => Success("{$avg:'$" + name.GetOr("") + "'}")
    case NotAggregate => Failure(UnsupportedAggregation)
  }

  /** The $group stage, grouping on `key` and accumulating under `alias`. */
  function GroupText(key: Option<string>, alias: Option<string>, kind: AggregateKind, name: Option<string>): Result<string, Fault>
  {
    match Accumulator(kind, name)
    case Failure(f) => Failure(f)
    case Success(acc) => Success("{ $group: { _id:'$" + key.GetOr("") + "', " + alias.GetOr("") + ": " + acc + "} }")
  }

  class GroupByClause {
    const property: PropertyReference

    var aggregateByProperty: PropertyReference?
    var aggregationProperty: PropertyReference?

    constructor(prop: PropertyReference)
      ensures property == prop
      ensures aggregateByProperty == null && aggregationProperty == null
    {
      property := prop;
      aggregateByProperty := null;
      aggregationProperty := null;
    }

    /** The $group text, or the exception ToString raises. */
    function Text(): Result<string, Fault>
      reads this, aggregateByProperty, aggregationProperty
    {
      if aggregateByProperty == null || aggregationProperty == null then Failure(NullReference)
      else GroupText(aggregateByProperty.analyzedName, aggregationProperty.alias,
                     aggregationProperty.aggregate, aggregationProperty.analyzedName)
    }

    method ToString() returns (r: Result<string, Fault>)
      ensures r == Text()
    {
      if aggregateByProperty == null {
        return Failure(NullReference);
      }
      var sb := "{ $group: { _id:'$";
      sb := sb + aggregateByProperty.analyzedName.GetOr("");
      sb := sb + "', ";
      if aggregationProperty == null {
        return Failure(NullReference);
      }
      sb := sb + aggregationProperty.alias.GetOr("");
      sb := sb + ": ";
      match aggregationProperty.aggregate {
        case Count =>
          sb := sb + "{$sum:1}";
        case Sum =>
          ghost var before := sb;
          sb := sb + "{$sum:'$";
          sb := sb + aggregationProperty.analyzedName.GetOr("");
          sb := sb + "'}";
          assert sb == before + Accumulator(Sum, aggregationProperty.analyzedName).value;
        case Average =>
          ghost var before := sb;
          sb := sb + "{$avg:'$";
          sb := sb + aggregationProperty.analyzedName.GetOr("");
          sb := sb + "'}";
          assert sb == before + Accumulator(Average, aggregationProperty.analyzedName).value;
        case NotAggregate =>
          return Failure(UnsupportedAggregation);
      }
      sb := sb + "} }";
      r := Success(sb);
    }
  }

  /** A count ignores the aggregation property's analyzed name; sum and average differ from each other and from a count. */
  lemma AccumulatorsDistinct(name: Option<string>, other: Option<string>)
    ensures Accumulator(Count, name) == Accumulator(Count, other)
    ensures Accumulator(Sum, name) != Accumulator(Average, name)
    ensures Accumulator(Sum, name) != Accumulator(Count, name)
    ensures Accumulator(Average, name) != Accumulator(Count, name)
  {
    var s := Accumulator(Sum, name).value;
    var a := Accumulator(Average, name).value;
    assert s[2] == 's' && a[2] == 'a';
  }

  /** The $group text opens with the grouping key and is rendered exactly for the three aggregate kinds. */
  lemma GroupTextShape(key: Option<string>, alias: Option<string>, kind: AggregateKind, name: Option<string>)
    ensures GroupText(key, alias, kind, name).Success? <==> kind != NotAggregate
    ensures GroupText(key, alias, kind, name).Success? ==>
      "{ $group: { _id:'$" + key.GetOr("") + "', " <= GroupText(key, alias, kind, name).value
  {
    if kind != NotAggregate {
      var prefix := "{ $group: { _id:'$" + key.GetOr("") + "', ";
      var rest := alias.GetOr("") + ": " + Accumulator(kind, name).value + "} }";
      calc {
        GroupText(key, alias, kind, name).value;
        prefix + alias.GetOr("") + ": " + Accumulator(kind, name).value + "} }";
        { assert prefix + alias.GetOr("") + ": " + Accumulator(kind, name).value + "} }" == prefix + rest; }
        prefix + rest;
      }
      assert (prefix + rest)[..|prefix|] == prefix;
    }
  }

  function UnwindText(name: Option<string>): string
  {
    "{$unwind : '$" + name.GetOr("") + "'}"
  }

  class UnwindClause {
    const property: PropertyReference

    constructor(prop: PropertyReference)
      ensures property == prop
    {
      property := prop;
    }

    method ToString() returns (r: string)
      ensures r == UnwindText(property.analyzedName)
    {
      var sb := "{$unwind : '$";
      sb := sb + property.analyzedName.GetOr("");
      sb := sb + "'}";
      r := sb;
    }
  }

  /** The unwind text determines the analyzed name, and an unresolved one renders with an empty name. */
  lemma UnwindTextInjective(a: Option<string>, b: Option<string>)
    ensures UnwindText(a) == UnwindText(b) <==> a.GetOr("") == b.GetOr("")
    ensures UnwindText(None) == "{$unwind : '$'}"
  {
    if UnwindText(a) == UnwindText(b) {
      var n := |"{$unwind : '$"|;
      assert UnwindText(a)[n..|UnwindText(a)| - 2] == a.GetOr("");
      assert UnwindText(b)[n..|UnwindText(b)| - 2] == b.GetOr("");
    }
  }

  // ---------------------------------------------------------------------
  // With (join)
  // ---------------------------------------------------------------------

  class WithClause {
    const joinOnTable: string
    const joinProperty: PropertyReference

    var selectedColumns: Option<seq<PropertyReference>>

    constructor(joinTable: string, joinProperty: PropertyReference)
      ensures joinOnTable == joinTable && this.joinProperty == joinProperty && selectedColumns == None
    {
      joinOnTable := joinTable;
      this.joinProperty := joinProperty;
      selectedColumns := None;
    }
  }
}
