/** Static disclosure schemas: which tool results may be shown to a model, and how sensitive they are. */
module Disclosure {
  import opened Arithmetic
  import opened References
  import opened Wrappers

  const MAXIMUM_SCHEMA_DEPTH: nat := 64
  const U32_MAX: nat := 0xFFFF_FFFF

  datatype Classification = Public | Internal | Confidential | Restricted | Secret {
    function Rank(): nat {
      match this
      case Public => 0
      case Internal => 1
      case Confidential => 2
      case Restricted => 3
      case Secret => 4
    }
  }

  function Highest(a: Classification, b: Classification): Classification {
    if a.Rank() < b.Rank() then b else a
  }

  datatype Rule = Rule(classification: Classification, exportable: bool)

  /** Field names of an object are distinct. */
  datatype Shape =
    | ScalarShape(rule: Rule)
    | ObjectShape(rule: Rule, fields: seq<(string, Shape)>)
    | ListShape(rule: Rule, maximumItems: nat, item: Shape)

  datatype Value = Null | Scalar | Array(items: seq<Value>) | Object(members: seq<(string, Value)>)

  datatype Evaluation = Evaluation(maximumClassification: Classification, selectedNodeCount: nat)

  datatype Error = NeverExport | UnknownField | ShapeMismatch | ListLimitExceeded

  function Max(a: nat, b: nat): nat { if a < b then b else a }

  function Lookup(fields: seq<(string, Shape)>, name: string): (shape: Option<Shape>)
    ensures shape.Some? ==> exists i :: 0 <= i < |fields| && fields[i] == (name, shape.value)
    decreases |fields|
  {
    if fields == [] then None else if fields[0].0 == name then Some(fields[0].1) else Lookup(fields[1..], name)
  }

  // ---------------------------------------------------------------------------------------------
  // Schemas
  // ---------------------------------------------------------------------------------------------

  predicate ValidName(name: string) { name != "" && !("__" <= name) }

  /** `validate`: shallow enough, no reserved field names, no list without items. */
  predicate ValidShape(shape: Shape, depth: nat)
    decreases shape
  {
    && depth <= MAXIMUM_SCHEMA_DEPTH
    && match shape
       case ScalarShape(_) => true
       case ObjectShape(_, fields) =>
         && (forall i :: 0 <= i < |fields| ==> ValidName(fields[i].0))
         && (forall i :: 0 <= i < |fields| ==> ValidShape(fields[i].1, depth + 1))
       case ListShape(_, maximumItems, item) => 0 < maximumItems <= U32_MAX && ValidShape(item, depth + 1)
  }

  datatype Schema = Schema(version: string, root: Shape)

  /** `AiDisclosureSchema::new`; the fingerprint is not part of the model. */
  function NewSchema(version: string, root: Shape): Option<Schema> {
    if Blank(version) || !ValidShape(root, 0) then None else Some(Schema(version, root))
  }

  function MaximumListBound(shape: Shape): nat
    decreases shape, 0
  {
    match shape
    case ScalarShape(_) => 0
    case ObjectShape(_, fields) => MaximumOfFields(shape, |fields|)
    case ListShape(_, maximumItems, item) => Max(maximumItems, MaximumListBound(item))
  }

  function MaximumOfFields(shape: Shape, n: nat): nat
    requires shape.ObjectShape? && n <= |shape.fields|
    decreases shape, 0, n
  {
    if n == 0 then 0 else Max(MaximumOfFields(shape, n - 1), MaximumListBound(shape.fields[n - 1].1))
  }

  // ---------------------------------------------------------------------------------------------
  // Evaluation
  // ---------------------------------------------------------------------------------------------

  function ChildCount(v: Value): nat {
    match v
    case Array(items) => |items|
    case Object(members) => |members|
    case _ => 0
  }

  function Child(v: Value, i: nat): (child: Value)
    requires i < ChildCount(v)
    ensures child < v
  {
    match v
    case Array(items) => items[i]
    case Object(members) => members[i].1
  }

  /** The shape a child has to take; none for an unknown field. */
  function ChildShape(v: Value, shape: Shape, i: nat): Option<Shape>
    requires i < ChildCount(v)
  {
    match v
    case Array(_) => if shape.ListShape? then Some(shape.item) else None
    case Object(members) => if shape.ObjectShape? then Lookup(shape.fields, members[i].0) else None
  }

  function Merge(target: Evaluation, source: Evaluation): Evaluation {
    Evaluation(Highest(target.maximumClassification, source.maximumClassification),
               SaturatingAdd(target.selectedNodeCount, source.selectedNodeCount))
  }

  /** `evaluate_node`. */
  function Evaluate(v: Value, shape: Shape, depth: nat): Result<Evaluation, Error>
    decreases v, ChildCount(v) + 1
  {
    if MAXIMUM_SCHEMA_DEPTH < depth then Err(ShapeMismatch)
    else if !shape.rule.exportable then Err(NeverExport)
    else if v.Null? then Ok(Evaluation(shape.rule.classification, 1))
    else
      match shape
      case ScalarShape(rule) => if v.Scalar? then Ok(Evaluation(rule.classification, 1)) else Err(ShapeMismatch)
      case ObjectShape(_, _) => if v.Object? then EvaluateChildren(v, shape, depth, ChildCount(v)) else Err(ShapeMismatch)
      case ListShape(_, maximumItems, _) =>
        if !v.Array? then Err(ShapeMismatch)
        else if maximumItems < |v.items| then Err(ListLimitExceeded)
        else EvaluateChildren(v, shape, depth, ChildCount(v))
  }

  /** The container and its first `n` children, merged in order. */
  function EvaluateChildren(v: Value, shape: Shape, depth: nat, n: nat): Result<Evaluation, Error>
    requires n <= ChildCount(v)
    decreases v, n
  {
    if n == 0 then Ok(Evaluation(shape.rule.classification, 1))
    else
      var before := EvaluateChildren(v, shape, depth, n - 1);
      if before.Err? then before
      else if ChildShape(v, shape, n - 1).None? then Err(UnknownField)
      else
        var child := Evaluate(Child(v, n - 1), ChildShape(v, shape, n - 1).value, depth + 1);
        if child.Err? then child else Ok(Merge(before.value, child.value))
  }

  // ---------------------------------------------------------------------------------------------
  // What an accepted value is
  // ---------------------------------------------------------------------------------------------

  /** The value has the shape; null is accepted everywhere. */
  predicate Conforms(v: Value, shape: Shape)
    decreases v
  {
    match v
    case Null => true
    case Scalar => shape.ScalarShape?
    case Array(items) =>
      && shape.ListShape? && |items| <= shape.maximumItems
      && forall i :: 0 <= i < |items| ==> Conforms(items[i], shape.item)
    case Object(members) =>
      && shape.ObjectShape?
      && forall i :: 0 <= i < |members| ==>
           Lookup(shape.fields, members[i].0).Some? && Conforms(members[i].1, Lookup(shape.fields, members[i].0).value)
  }

  /** The rules of the nodes of the value, in document order. */
  function Visited(v: Value, shape: Shape): (rules: seq<Rule>)
    decreases v, ChildCount(v) + 1
  {
    VisitedUpTo(v, shape, ChildCount(v))
  }

  function VisitedUpTo(v: Value, shape: Shape, n: nat): (rules: seq<Rule>)
    requires n <= ChildCount(v)
    decreases v, n
  {
    if n == 0 then [shape.rule]
    else
      VisitedUpTo(v, shape, n - 1)
      + match ChildShape(v, shape, n - 1)
        case None => []
        case Some(childShape) => Visited(Child(v, n - 1), childShape)
  }

  /** How deep the nodes of the value lie below its root. */
  function Depth(v: Value): nat
    decreases v, ChildCount(v) + 1
  {
    DepthUpTo(v, ChildCount(v))
  }

  function DepthUpTo(v: Value, n: nat): nat
    requires n <= ChildCount(v)
    decreases v, n
  {
    if n == 0 then 0 else Max(DepthUpTo(v, n - 1), Depth(Child(v, n - 1)) + 1)
  }

  function Peak(rules: seq<Rule>): Classification {
    if rules == [] then Public else Highest(Peak(rules[..|rules| - 1]), rules[|rules| - 1].classification)
  }

  predicate AllExportable(rules: seq<Rule>) { forall r :: r in rules ==> r.exportable }

  /** Highest class and saturated number of the nodes. */
  function Summary(rules: seq<Rule>): Evaluation {
    Evaluation(Peak(rules), if |rules| <= U64_MAX then |rules| else U64_MAX)
  }

  lemma {:induction false} PeakConcat(a: seq<Rule>, b: seq<Rule>)
    ensures Peak(a + b) == Highest(Peak(a), Peak(b))
    decreases |b|
  {
    if b == [] {
      assert a + b == a;
    } else {
      var n := |b| - 1;
      assert (a + b)[..|a| + n] == a + b[..n];
      PeakConcat(a, b[..n]);
    }
  }

  lemma SummaryConcat(a: seq<Rule>, b: seq<Rule>)
    ensures Summary(a + b) == Merge(Summary(a), Summary(b))
  {
    PeakConcat(a, b);
  }

  /** The first `n` children conform. */
  predicate ChildrenConform(v: Value, shape: Shape, n: nat)
    requires n <= ChildCount(v)
  {
    forall i :: 0 <= i < n ==> ChildShape(v, shape, i).Some? && Conforms(Child(v, i), ChildShape(v, shape, i).value)
  }

  lemma ConformsByChildren(v: Value, shape: Shape)
    ensures v.Array? ==> (Conforms(v, shape) <==> shape.ListShape? && |v.items| <= shape.maximumItems
                                                  && ChildrenConform(v, shape, ChildCount(v)))
    ensures v.Object? ==> (Conforms(v, shape) <==> shape.ObjectShape? && ChildrenConform(v, shape, ChildCount(v)))
  {
    if v.Array? && shape.ListShape? {
      assert forall i :: 0 <= i < |v.items| ==> Child(v, i) == v.items[i] && ChildShape(v, shape, i) == Some(shape.item);
    }
    if v.Object? && shape.ObjectShape? {
      assert forall i :: 0 <= i < |v.members| ==>
        Child(v, i) == v.members[i].1 && ChildShape(v, shape, i) == Lookup(shape.fields, v.members[i].0);
    }
  }

  lemma ExportableConcat(a: seq<Rule>, b: seq<Rule>)
    ensures AllExportable(a + b) <==> AllExportable(a) && AllExportable(b)
  {
    forall r ensures r in a + b <==> r in a || r in b {}
  }

  /** A value is accepted exactly when it has the shape, visits only exportable nodes and is not too deep,
      and then the exact highest class and the node count are reported. */
  predicate ExactVerdict(v: Value, shape: Shape, depth: nat, r: Result<Evaluation, Error>) {
    && (r.Ok? <==> Conforms(v, shape) && AllExportable(Visited(v, shape)) && depth + Depth(v) <= MAXIMUM_SCHEMA_DEPTH)
    && (r.Ok? ==> r.value == Summary(Visited(v, shape)))
  }

  /** The evaluator's verdict is exact, for every schema, validated or not. */
  lemma {:induction false} EvaluatesExactly(v: Value, shape: Shape, depth: nat)
    ensures ExactVerdict(v, shape, depth, Evaluate(v, shape, depth))
    decreases v, ChildCount(v) + 1
  {
    ChildrenEvaluateExactly(v, shape, depth, ChildCount(v));
    VisitedStartsWithTheRoot(v, shape, ChildCount(v));
    ConformsByChildren(v, shape);
  }

  lemma {:induction false} VisitedStartsWithTheRoot(v: Value, shape: Shape, n: nat)
    requires n <= ChildCount(v)
    ensures VisitedUpTo(v, shape, n) != [] && VisitedUpTo(v, shape, n)[0] == shape.rule
    decreases n
  {
    if n > 0 { VisitedStartsWithTheRoot(v, shape, n - 1); }
  }

  lemma SummaryOfOne(rule: Rule)
    ensures Summary([rule]) == Evaluation(rule.classification, 1)
  {
    assert [rule][..0] == [] && Peak([]) == Public;
  }

  /** What the last of `n` children adds to the requirements. */
  lemma OneMoreChild(v: Value, shape: Shape, n: nat)
    requires 0 < n <= ChildCount(v)
    ensures ChildrenConform(v, shape, n) <==>
              && ChildrenConform(v, shape, n - 1) && ChildShape(v, shape, n - 1).Some?
              && Conforms(Child(v, n - 1), ChildShape(v, shape, n - 1).value)
    ensures ChildShape(v, shape, n - 1).Some? ==>
              var visited := Visited(Child(v, n - 1), ChildShape(v, shape, n - 1).value);
              && (AllExportable(VisitedUpTo(v, shape, n)) <==>
                    AllExportable(VisitedUpTo(v, shape, n - 1)) && AllExportable(visited))
              && Summary(VisitedUpTo(v, shape, n)) == Merge(Summary(VisitedUpTo(v, shape, n - 1)), Summary(visited))
  {
    if ChildShape(v, shape, n - 1).Some? {
      var before, visited := VisitedUpTo(v, shape, n - 1), Visited(Child(v, n - 1), ChildShape(v, shape, n - 1).value);
      assert VisitedUpTo(v, shape, n) == before + visited;
      SummaryConcat(before, visited);
      ExportableConcat(before, visited);
    }
  }

  /** What holds of the evaluation of the first `n` children. */
  predicate ChildrenExact(v: Value, shape: Shape, depth: nat, n: nat)
    requires n <= ChildCount(v)
  {
    var r := EvaluateChildren(v, shape, depth, n);
    && (r.Ok? <==> ChildrenConform(v, shape, n) && AllExportable(VisitedUpTo(v, shape, n))
                   && depth + DepthUpTo(v, n) <= MAXIMUM_SCHEMA_DEPTH)
    && (r.Ok? ==> r.value == Summary(VisitedUpTo(v, shape, n)))
  }

  lemma OneMoreEvaluation(v: Value, shape: Shape, depth: nat, n: nat, child: Result<Evaluation, Error>)
    requires 0 < n <= ChildCount(v) && ChildrenExact(v, shape, depth, n - 1)
    requires ChildShape(v, shape, n - 1).Some?
    requires child == Evaluate(Child(v, n - 1), ChildShape(v, shape, n - 1).value, depth + 1)
    requires ExactVerdict(Child(v, n - 1), ChildShape(v, shape, n - 1).value, depth + 1, child)
    ensures ChildrenExact(v, shape, depth, n)
  {
    OneMoreChild(v, shape, n);
    var before, r := EvaluateChildren(v, shape, depth, n - 1), EvaluateChildren(v, shape, depth, n);
    assert r == if before.Err? then before else if child.Err? then child else Ok(Merge(before.value, child.value));
    assert DepthUpTo(v, n) == Max(DepthUpTo(v, n - 1), Depth(Child(v, n - 1)) + 1);
  }

  lemma NothingEvaluated(v: Value, shape: Shape, depth: nat)
    requires depth <= MAXIMUM_SCHEMA_DEPTH && shape.rule.exportable
    ensures ChildrenExact(v, shape, depth, 0)
  {
    SummaryOfOne(shape.rule);
  }

  lemma UnknownChild(v: Value, shape: Shape, depth: nat, n: nat)
    requires 0 < n <= ChildCount(v) && ChildShape(v, shape, n - 1).None?
    ensures ChildrenExact(v, shape, depth, n)
  {
    assert EvaluateChildren(v, shape, depth, n).Err?;
    assert !ChildrenConform(v, shape, n);
  }

  lemma {:induction false} ChildrenEvaluateExactly(v: Value, shape: Shape, depth: nat, n: nat)
    requires n <= ChildCount(v)
    ensures depth <= MAXIMUM_SCHEMA_DEPTH && shape.rule.exportable ==> ChildrenExact(v, shape, depth, n)
    decreases v, n, 1
  {
    if depth <= MAXIMUM_SCHEMA_DEPTH && shape.rule.exportable {
      if n == 0 {
        NothingEvaluated(v, shape, depth);
      } else {
        ChildrenEvaluateExactly(v, shape, depth, n - 1);
        OneMore(v, shape, depth, n);
      }
    }
  }

  lemma {:induction false} OneMore(v: Value, shape: Shape, depth: nat, n: nat)
    requires 0 < n <= ChildCount(v) && ChildrenExact(v, shape, depth, n - 1)
    ensures ChildrenExact(v, shape, depth, n)
    decreases v, n, 0
  {
    var childShape := ChildShape(v, shape, n - 1);
    if childShape.None? {
      UnknownChild(v, shape, depth, n);
    } else {
      EvaluatesExactly(Child(v, n - 1), childShape.value, depth + 1);
      OneMoreEvaluation(v, shape, depth, n, Evaluate(Child(v, n - 1), childShape.value, depth + 1));
    }
  }

  // ---------------------------------------------------------------------------------------------
  // Validated schemas
  // ---------------------------------------------------------------------------------------------

  /** The part lies `d` levels below the root of the shape. */
  ghost predicate IsPart(shape: Shape, part: Shape, d: nat)
    decreases shape
  {
    || (part == shape && d == 0)
    || (0 < d && match shape
                 case ScalarShape(_) => false
                 case ObjectShape(_, fields) => exists i :: 0 <= i < |fields| && IsPart(fields[i].1, part, d - 1)
                 case ListShape(_, _, item) => IsPart(item, part, d - 1))
  }

  /** What is asked of each part: at most 64 levels deep, a list of one to 4294967295 items, and field
      names that are not empty and do not begin with two underscores. */
  predicate PartOk(part: Shape, depth: nat) {
    && depth <= 64
    && (part.ListShape? ==> 1 <= part.maximumItems <= 0xFFFF_FFFF)
    && (part.ObjectShape? ==> forall i :: 0 <= i < |part.fields| ==> NameOk(part.fields[i].0))
  }

  predicate NameOk(name: string) { 0 < |name| && !(2 <= |name| && name[0] == '_' && name[1] == '_') }

  lemma ValidNameIsOk(name: string)
    ensures ValidName(name) <==> NameOk(name)
  {
    if 2 <= |name| && name[0] == '_' && name[1] == '_' {
      assert "__" <= name;
    }
  }

  lemma {:induction false} PartsOfValidAreOk(shape: Shape, depth: nat, part: Shape, d: nat)
    requires ValidShape(shape, depth) && IsPart(shape, part, d)
    ensures PartOk(part, depth + d)
    decreases shape
  {
    if part == shape && d == 0 {
      if shape.ObjectShape? {
        forall i | 0 <= i < |shape.fields| ensures NameOk(shape.fields[i].0) { ValidNameIsOk(shape.fields[i].0); }
      }
    } else if shape.ObjectShape? {
      var i :| 0 <= i < |shape.fields| && IsPart(shape.fields[i].1, part, d - 1);
      PartsOfValidAreOk(shape.fields[i].1, depth + 1, part, d - 1);
    } else {
      PartsOfValidAreOk(shape.item, depth + 1, part, d - 1);
    }
  }

  lemma {:induction false} InvalidHasABadPart(shape: Shape, depth: nat) returns (part: Shape, d: nat)
    requires !ValidShape(shape, depth)
    ensures IsPart(shape, part, d) && !PartOk(part, depth + d)
    decreases shape
  {
    if !PartOk(shape, depth) {
      part, d := shape, 0;
    } else if shape.ObjectShape? {
      forall i | 0 <= i < |shape.fields| ensures ValidName(shape.fields[i].0) { ValidNameIsOk(shape.fields[i].0); }
      var i :| 0 <= i < |shape.fields| && !ValidShape(shape.fields[i].1, depth + 1);
      part, d := InvalidHasABadPart(shape.fields[i].1, depth + 1);
      d := d + 1;
    } else {
      part, d := InvalidHasABadPart(shape.item, depth + 1);
      d := d + 1;
    }
  }

  /** A schema is constructed exactly when its version is not blank and all its parts are as they must be. */
  lemma NewSchemaExactlyWhen(version: string, root: Shape)
    ensures NewSchema(version, root).Some? <==>
              !Blank(version) && forall part, d: nat :: IsPart(root, part, d) ==> PartOk(part, d)
    ensures NewSchema(version, root).Some? ==> NewSchema(version, root).value == Schema(version, root)
  {
    if ValidShape(root, 0) {
      forall part, d: nat | IsPart(root, part, d) ensures PartOk(part, d) { PartsOfValidAreOk(root, 0, part, d); }
    } else {
      var part, d := InvalidHasABadPart(root, 0);
    }
  }

  /** The announced bound is that of some list in the schema, and no list has a higher one. */
  lemma {:induction false} BoundIsTheLargest(shape: Shape)
    ensures forall part, d: nat :: IsPart(shape, part, d) && part.ListShape? ==> part.maximumItems <= MaximumListBound(shape)
    ensures MaximumListBound(shape) == 0
            || exists part, d: nat :: IsPart(shape, part, d) && part.ListShape? && part.maximumItems == MaximumListBound(shape)
    decreases shape, 0
  {
    assert IsPart(shape, shape, 0);
    match shape
    case ScalarShape(_) =>
    case ObjectShape(_, fields) => FieldBoundsAreTheLargest(shape, |fields|);
    case ListShape(_, maximumItems, item) =>
      BoundIsTheLargest(item);
      if maximumItems < MaximumListBound(item) {
        var part, d: nat :| IsPart(item, part, d) && part.ListShape? && part.maximumItems == MaximumListBound(item);
        assert IsPart(shape, part, d + 1);
      }
  }

  lemma {:induction false} FieldBoundsAreTheLargest(shape: Shape, n: nat)
    requires shape.ObjectShape? && n <= |shape.fields|
    ensures forall i, part, d: nat :: 0 <= i < n && IsPart(shape.fields[i].1, part, d) && part.ListShape? ==>
              part.maximumItems <= MaximumOfFields(shape, n)
    ensures MaximumOfFields(shape, n) == 0
            || exists part, d: nat :: IsPart(shape, part, d) && part.ListShape? && part.maximumItems == MaximumOfFields(shape, n)
    decreases shape, 0, n
  {
    if n > 0 {
      var field := shape.fields[n - 1].1;
      FieldBoundsAreTheLargest(shape, n - 1);
      BoundIsTheLargest(field);
      if MaximumOfFields(shape, n - 1) < MaximumListBound(field) {
        var part, d: nat :| IsPart(field, part, d) && part.ListShape? && part.maximumItems == MaximumListBound(field);
        assert IsPart(shape, part, d + 1);
      }
    }
  }

  // ---------------------------------------------------------------------------------------------
  // Why a value is refused
  // ---------------------------------------------------------------------------------------------

  /** The fault lies in this very node. */
  predicate FaultHere(e: Error, v: Value, shape: Shape, depth: nat) {
    match e
    case NeverExport => !shape.rule.exportable
    case ShapeMismatch =>
      || 64 < depth
      || (!v.Null? && (if shape.ScalarShape? then !v.Scalar? else if shape.ObjectShape? then !v.Object? else !v.Array?))
    case ListLimitExceeded => v.Array? && shape.ListShape? && shape.maximumItems < |v.items|
    case UnknownField =>
      v.Object? && shape.ObjectShape?
      && exists i :: 0 <= i < |v.members| && forall k :: 0 <= k < |shape.fields| ==> shape.fields[k].0 != v.members[i].0
  }

  /** The fault lies in this node or below it. */
  ghost predicate Fault(e: Error, v: Value, shape: Shape, depth: nat)
    decreases v
  {
    || FaultHere(e, v, shape, depth)
    || exists i :: 0 <= i < ChildCount(v) && ChildShape(v, shape, i).Some?
                   && Fault(e, Child(v, i), ChildShape(v, shape, i).value, depth + 1)
  }

  lemma {:induction false} NotFound(fields: seq<(string, Shape)>, name: string)
    requires Lookup(fields, name).None?
    ensures forall k :: 0 <= k < |fields| ==> fields[k].0 != name
    decreases |fields|
  {
    if fields != [] { NotFound(fields[1..], name); }
  }

  /** An error is never given without its cause somewhere in the value. */
  lemma {:induction false} ErrorsHaveTheirFault(v: Value, shape: Shape, depth: nat)
    requires Evaluate(v, shape, depth).Err?
    ensures Fault(Evaluate(v, shape, depth).error, v, shape, depth)
    decreases v, ChildCount(v) + 1
  {
    if depth <= MAXIMUM_SCHEMA_DEPTH && shape.rule.exportable && EvaluateChildren(v, shape, depth, ChildCount(v)).Err?
       && ((v.Object? && shape.ObjectShape?) || (v.Array? && shape.ListShape? && |v.items| <= shape.maximumItems))
    {
      ChildErrorsHaveTheirFault(v, shape, depth, ChildCount(v));
    }
  }

  lemma {:induction false} ChildErrorsHaveTheirFault(v: Value, shape: Shape, depth: nat, n: nat)
    requires n <= ChildCount(v) && EvaluateChildren(v, shape, depth, n).Err?
    requires (v.Object? && shape.ObjectShape?) || (v.Array? && shape.ListShape?)
    ensures Fault(EvaluateChildren(v, shape, depth, n).error, v, shape, depth)
    decreases v, n
  {
    if EvaluateChildren(v, shape, depth, n - 1).Err? {
      ChildErrorsHaveTheirFault(v, shape, depth, n - 1);
    } else if ChildShape(v, shape, n - 1).None? {
      NotFound(shape.fields, v.members[n - 1].0);
    } else {
      ErrorsHaveTheirFault(Child(v, n - 1), ChildShape(v, shape, n - 1).value, depth + 1);
    }
  }

  /** In a validated schema the nodes of a conforming value never lie too deep. */
  lemma {:induction false} ValidatedIsShallow(v: Value, shape: Shape, depth: nat)
    requires ValidShape(shape, depth) && Conforms(v, shape)
    ensures depth + Depth(v) <= MAXIMUM_SCHEMA_DEPTH
    decreases v, ChildCount(v) + 1
  {
    ValidatedChildrenAreShallow(v, shape, depth, ChildCount(v));
  }

  lemma {:induction false} ValidatedChildrenAreShallow(v: Value, shape: Shape, depth: nat, n: nat)
    requires ValidShape(shape, depth) && Conforms(v, shape) && n <= ChildCount(v)
    ensures depth + DepthUpTo(v, n) <= MAXIMUM_SCHEMA_DEPTH
    decreases v, n
  {
    if n > 0 {
      ValidatedChildrenAreShallow(v, shape, depth, n - 1);
      ConformsByChildren(v, shape);
      var childShape := ChildShape(v, shape, n - 1).value;
      if v.Object? {
        var i :| 0 <= i < |shape.fields| && shape.fields[i].1 == childShape;
      }
      ValidatedIsShallow(Child(v, n - 1), childShape, depth + 1);
    }
  }

  /** For a validated schema the depth guard never decides: the value is accepted exactly when it conforms
      and shows nothing that may never be exported. */
  lemma SchemasEvaluateExactly(version: string, root: Shape, v: Value)
    requires NewSchema(version, root).Some?
    ensures Evaluate(v, root, 0).Ok? <==> Conforms(v, root) && AllExportable(Visited(v, root))
    ensures Evaluate(v, root, 0).Ok? ==> Evaluate(v, root, 0).value == Summary(Visited(v, root))
  {
    EvaluatesExactly(v, root, 0);
    if Conforms(v, root) { ValidatedIsShallow(v, root, 0); }
  }

  /** The summary's class is reached by a visited node and exceeded by none. */
  lemma {:induction false} PeakIsTheMaximum(rules: seq<Rule>)
    ensures forall r :: r in rules ==> r.classification.Rank() <= Peak(rules).Rank()
    ensures rules != [] ==> exists r :: r in rules && r.classification == Peak(rules)
    decreases |rules|
  {
    if rules != [] {
      var last := rules[|rules| - 1];
      var front := rules[..|rules| - 1];
      PeakIsTheMaximum(front);
      assert last in rules;
      if Peak(rules) != last.classification && front != [] {
        var r :| r in front && r.classification == Peak(front);
        assert r in rules;
      }
    }
  }

  /** The longest list anywhere in a value. */
  function LongestList(v: Value): nat
    decreases v, ChildCount(v) + 1
  {
    Max(if v.Array? then |v.items| else 0, LongestUpTo(v, ChildCount(v)))
  }

  function LongestUpTo(v: Value, n: nat): nat
    requires n <= ChildCount(v)
    decreases v, n
  {
    if n == 0 then 0 else Max(LongestUpTo(v, n - 1), LongestList(Child(v, n - 1)))
  }

  lemma {:induction false} FieldBound(shape: Shape, i: nat, n: nat)
    requires shape.ObjectShape? && i < n <= |shape.fields|
    ensures MaximumListBound(shape.fields[i].1) <= MaximumOfFields(shape, n)
    decreases n
  {
    if i < n - 1 { FieldBound(shape, i, n - 1); }
  }

  /** No list of an accepted value is longer than the bound the schema announces. */
  lemma {:induction false} ListsAreBounded(v: Value, shape: Shape)
    requires Conforms(v, shape)
    ensures LongestList(v) <= MaximumListBound(shape)
    decreases v, ChildCount(v) + 1
  {
    ListsOfChildrenAreBounded(v, shape, ChildCount(v));
  }

  lemma {:induction false} ListsOfChildrenAreBounded(v: Value, shape: Shape, n: nat)
    requires Conforms(v, shape) && n <= ChildCount(v)
    ensures LongestUpTo(v, n) <= MaximumListBound(shape)
    decreases v, n
  {
    if n > 0 {
      ListsOfChildrenAreBounded(v, shape, n - 1);
      ConformsByChildren(v, shape);
      var childShape := ChildShape(v, shape, n - 1).value;
      ListsAreBounded(Child(v, n - 1), childShape);
      if v.Object? {
        var i :| 0 <= i < |shape.fields| && shape.fields[i].1 == childShape;
        FieldBound(shape, i, |shape.fields|);
      }
    }
  }

  // ---------------------------------------------------------------------------------------------
  // The evaluator as it runs
  // ---------------------------------------------------------------------------------------------

  lemma {:induction false} ErrorStays(v: Value, shape: Shape, depth: nat, n: nat, m: nat)
    requires n <= m <= ChildCount(v) && EvaluateChildren(v, shape, depth, n).Err?
    ensures EvaluateChildren(v, shape, depth, m) == EvaluateChildren(v, shape, depth, n)
    decreases m
  {
    if n < m { ErrorStays(v, shape, depth, n, m - 1); }
  }

  /** Recurses into the value and accumulates class and count in place. */
  method EvaluateNode(v: Value, shape: Shape, depth: nat) returns (r: Result<Evaluation, Error>)
    ensures r == Evaluate(v, shape, depth)
    decreases v
  {
    if MAXIMUM_SCHEMA_DEPTH < depth { return Err(ShapeMismatch); }
    if !shape.rule.exportable { return Err(NeverExport); }
    var evaluation := Evaluation(shape.rule.classification, 1);
    if v.Null? { return Ok(evaluation); }
    match shape
    case ScalarShape(_) =>
      return if v.Scalar? then Ok(evaluation) else Err(ShapeMismatch);
    case ObjectShape(_, fields) =>
      if !v.Object? { return Err(ShapeMismatch); }
      for i := 0 to |v.members|
        invariant EvaluateChildren(v, shape, depth, i) == Ok(evaluation)
      {
        var fieldShape := Lookup(fields, v.members[i].0);
        if fieldShape.None? {
          ErrorStays(v, shape, depth, i + 1, |v.members|);
          return Err(UnknownField);
        }
        var child := EvaluateNode(v.members[i].1, fieldShape.value, depth + 1);
        if child.Err? {
          ErrorStays(v, shape, depth, i + 1, |v.members|);
          return child;
        }
        evaluation := Merge(evaluation, child.value);
      }
      return Ok(evaluation);
    case ListShape(_, maximumItems, item) =>
      if !v.Array? { return Err(ShapeMismatch); }
      if maximumItems < |v.items| { return Err(ListLimitExceeded); }
      for i := 0 to |v.items|
        invariant EvaluateChildren(v, shape, depth, i) == Ok(evaluation)
      {
        var child := EvaluateNode(v.items[i], item, depth + 1);
        if child.Err? {
          ErrorStays(v, shape, depth, i + 1, |v.items|);
          return child;
        }
        evaluation := Merge(evaluation, child.value);
      }
      return Ok(evaluation);
  }
}
