/** The sandbox's structured-output generator, over schema graphs that may be cyclic. */
module Schema {
  import opened Wrappers

  /** A string as the generator tells strings apart: the type names it knows, and any other. */
  datatype Word =
    | ObjectWord | ArrayWord | IntegerWord | NumberWord | BooleanWord | NullWord | StringWord
    | OtherWord(text: string)

  /** A decoded JSON value; objects live in the graph, so that one may contain itself. */
  datatype Value = Ref(node: nat) | Text(word: Word) | List(items: seq<Value>) | Atom

  /** An object read as a schema: the entries the generator looks at. */
  datatype Node = Node(
    constant: Option<Value>,
    choices: Option<Value>,
    kind: Option<Value>,
    properties: Option<Value>,
    items: Option<Value>)

  const EMPTY := Node(None, None, None, None, None)

  /** Each object both ways it can be read: as a schema and as the properties of one. */
  datatype Graph = Graph(schema: nat -> Node, entries: nat -> map<string, Value>)

  /** A generated answer: what the generator copies from the schema, and what it builds. */
  datatype Answer =
    | Copied(value: Value)
    | Object(fields: map<string, Answer>)
    | Array(element: Answer)
    | One
    | OneAndAHalf
    | True
    | Null
    | Filler

  const MAX_DEPTH := 8

  /** Anything but an object reads as the empty schema. */
  function AsSchema(g: Graph, v: Option<Value>): Node {
    if v.Some? && v.value.Ref? then g.schema(v.value.node) else EMPTY
  }

  function Properties(g: Graph, n: Node): map<string, Value> {
    if n.properties.Some? && n.properties.value.Ref? then g.entries(n.properties.value.node) else map[]
  }

  /** The first string of a type list that is not "null". */
  function FirstType(items: seq<Value>): (first: Option<Word>)
    ensures first.Some? ==> Text(first.value) in items
  {
    if items == [] then None
    else if items[0].Text? && items[0].word != NullWord then
      assert items[0] in items;
      Some(items[0].word)
    else
      assert forall v :: v in items[1..] ==> v in items;
      FirstType(items[1..])
  }

  function SchemaType(n: Node): Word {
    if n.kind.Some? && n.kind.value.Text? then n.kind.value.word
    else if n.kind.Some? && n.kind.value.List? && FirstType(n.kind.value.items).Some? then
      FirstType(n.kind.value.items).value
    else if n.properties.Some? then ObjectWord
    else OtherWord("")
  }

  /** The value the schema states outright. */
  function Stated(n: Node): Option<Value> {
    if n.constant.Some? then n.constant
    else if n.choices.Some? && n.choices.value.List? && n.choices.value.items != [] then
      Some(n.choices.value.items[0])
    else None
  }

  function ValueFor(g: Graph, n: Node, depth: nat): Answer
    decreases MAX_DEPTH + 1 - depth, 0
  {
    if depth > MAX_DEPTH then Null
    else if Stated(n).Some? then Copied(Stated(n).value)
    else
      match SchemaType(n)
      case ObjectWord => Object(Fields(g, Properties(g, n), depth + 1))
      case ArrayWord => Array(ValueFor(g, AsSchema(g, n.items), depth + 1))
      case IntegerWord => One
      case NumberWord => OneAndAHalf
      case BooleanWord => True
      case NullWord => Null
      case _ => Filler
  }

  function Fields(g: Graph, props: map<string, Value>, depth: nat): (fields: map<string, Answer>)
    requires depth <= MAX_DEPTH + 1
    ensures fields.Keys == props.Keys
    decreases MAX_DEPTH + 1 - depth, 1
  {
    map name | name in props :: ValueFor(g, AsSchema(g, Some(props[name])), depth)
  }

  /** Fills objects property by property; the order does not matter to what they hold. */
  method Generate(g: Graph, n: Node, depth: nat) returns (a: Answer)
    ensures a == ValueFor(g, n, depth)
    decreases MAX_DEPTH + 1 - depth, 0
  {
    if depth > MAX_DEPTH {
      return Null;
    }
    if n.constant.Some? {
      return Copied(n.constant.value);
    }
    if n.choices.Some? && n.choices.value.List? && |n.choices.value.items| > 0 {
      return Copied(n.choices.value.items[0]);
    }
    match SchemaType(n)
    case ObjectWord =>
      var fields := FillObject(g, Properties(g, n), depth + 1);
      return Object(fields);
    case ArrayWord =>
      var element := Generate(g, AsSchema(g, n.items), depth + 1);
      return Array(element);
    case IntegerWord => return One;
    case NumberWord => return OneAndAHalf;
    case BooleanWord => return True;
    case NullWord => return Null;
    case _ => return Filler;
  }

  method FillObject(g: Graph, props: map<string, Value>, depth: nat) returns (fields: map<string, Answer>)
    requires depth <= MAX_DEPTH + 1
    ensures fields == Fields(g, props, depth)
    decreases MAX_DEPTH + 1 - depth, 1
  {
    fields := map[];
    var names := props.Keys;
    while names != {}
      invariant names <= props.Keys && fields.Keys == props.Keys - names
      invariant forall name :: name in fields ==> fields[name] == Fields(g, props, depth)[name]
      decreases |names|
    {
      var name :| name in names;
      var value := Generate(g, AsSchema(g, Some(props[name])), depth);
      fields := fields[name := value];
      names := names - {name};
    }
  }

  /**
   A schema that states its value gets that value: its constant, else the first of a non-empty list of
   choices. Nothing else is ever copied at the top, and a constant wins over the choices.
   */
  lemma StatedIsAnswered(g: Graph, n: Node, depth: nat)
    requires depth <= MAX_DEPTH
    ensures n.constant.Some? ==> ValueFor(g, n, depth) == Copied(n.constant.value)
    ensures n.constant.None? ==>
              forall first, others :: n.choices == Some(List([first] + others)) ==>
                                        ValueFor(g, n, depth) == Copied(first)
    ensures n.constant.None? && (n.choices.None? || !n.choices.value.List? || n.choices.value.items == []) ==>
              !ValueFor(g, n, depth).Copied?
  {
    forall first, others | n.constant.None? && n.choices == Some(List([first] + others))
      ensures ValueFor(g, n, depth) == Copied(first)
    {
      assert n.choices.value.items[0] == first;
    }
  }

  /** Nothing is stated outright, and the type, if any, is the given one. */
  predicate Declares(n: Node, t: Word) {
    n.constant.None? && n.choices.None? && n.kind == Some(Text(t))
  }

  /** What a schema written in another is answered with: anything but an object reads as the empty schema. */
  function Inner(g: Graph, v: Value, depth: nat): Answer {
    match v
    case Ref(node) => ValueFor(g, g.schema(node), depth)
    case _ => ValueFor(g, EMPTY, depth)
  }

  /**
   A schema with properties is an object even if it declares no type: the answer has exactly the properties
   listed, each answered one level deeper, and none when the list is not an object.
   */
  lemma ObjectIsAnswered(g: Graph, n: Node, depth: nat, v: Value)
    requires depth <= MAX_DEPTH && n.properties == Some(v)
    requires n.constant.None? && n.choices.None? && (n.kind.None? || n.kind == Some(Text(ObjectWord)))
    ensures ValueFor(g, n, depth).Object?
    ensures var fields, listed := ValueFor(g, n, depth).fields, if v.Ref? then g.entries(v.node) else map[];
            && fields.Keys == listed.Keys
            && forall name :: name in listed ==> fields[name] == Inner(g, listed[name], depth + 1)
  {
  }

  /** An array has one element, answered one level deeper. */
  lemma ArrayIsAnswered(g: Graph, n: Node, depth: nat, v: Value)
    requires depth <= MAX_DEPTH && n.items == Some(v) && Declares(n, ArrayWord)
    ensures ValueFor(g, n, depth) == Array(Inner(g, v, depth + 1))
  {
  }

  /** Scalars are answered by their type, and a schema that says nothing with a string. */
  lemma ScalarIsAnswered(g: Graph, n: Node, depth: nat)
    requires depth <= MAX_DEPTH
    ensures Declares(n, IntegerWord) ==> ValueFor(g, n, depth) == One
    ensures Declares(n, NumberWord) ==> ValueFor(g, n, depth) == OneAndAHalf
    ensures Declares(n, BooleanWord) ==> ValueFor(g, n, depth) == True
    ensures Declares(n, NullWord) ==> ValueFor(g, n, depth) == Null
    ensures Declares(n, StringWord) || n == EMPTY ==> ValueFor(g, n, depth) == Filler
  {
  }

  // ------------------------------------------------------------------
  // Depth
  // ------------------------------------------------------------------

  /** The answer nests at most that many generated objects and arrays. */
  predicate NestsWithin(a: Answer, levels: nat) {
    match a
    case Object(fields) => levels > 0 && forall name :: name in fields ==> NestsWithin(fields[name], levels - 1)
    case Array(element) => levels > 0 && NestsWithin(element, levels - 1)
    case _ => true
  }

  /** On every schema graph, cyclic ones included, the answer nests at most nine levels. */
  lemma {:induction false} NestingBounded(g: Graph, n: Node, depth: nat)
    requires depth <= MAX_DEPTH + 1
    ensures NestsWithin(ValueFor(g, n, depth), MAX_DEPTH + 1 - depth)
    decreases MAX_DEPTH + 1 - depth, 0
  {
    if depth <= MAX_DEPTH && Stated(n).None? {
      match SchemaType(n)
      case ObjectWord =>
        FieldsNest(g, Properties(g, n), depth + 1);
      case ArrayWord =>
        NestingBounded(g, AsSchema(g, n.items), depth + 1);
      case _ =>
    }
  }

  lemma {:induction false} FieldsNest(g: Graph, props: map<string, Value>, depth: nat)
    requires depth <= MAX_DEPTH + 1
    ensures forall name :: name in props ==> NestsWithin(Fields(g, props, depth)[name], MAX_DEPTH + 1 - depth)
    decreases MAX_DEPTH + 1 - depth, 1
  {
    forall name | name in props ensures NestsWithin(Fields(g, props, depth)[name], MAX_DEPTH + 1 - depth) {
      NestingBounded(g, AsSchema(g, Some(props[name])), depth);
    }
  }

  // ------------------------------------------------------------------
  // Conformance
  // ------------------------------------------------------------------

  predicate OfType(t: Word, a: Answer) {
    match a
    case Object(_) => t == ObjectWord
    case Array(_) => t == ArrayWord
    case One => t == IntegerWord || t == NumberWord
    case OneAndAHalf => t == NumberWord
    case True => t == BooleanWord
    case Null => t == NullWord
    case Filler => t == StringWord
    case Copied(_) => false
  }

  /** A schema allows an answer of one of its types, or any when it declares none. */
  predicate Allows(n: Node, a: Answer) {
    match n.kind
    case None => true
    case Some(Text(t)) => OfType(t, a)
    case Some(List(items)) => exists v :: v in items && v.Text? && OfType(v.word, a)
    case _ => false
  }

  /** The answer satisfies the schema: its type, exactly the declared properties, a conforming element. */
  predicate Conforms(g: Graph, n: Node, a: Answer)
    decreases a
  {
    && Allows(n, a)
    && match a
       case Object(fields) =>
         && fields.Keys == Properties(g, n).Keys
         && forall name :: name in fields ==> Conforms(g, AsSchema(g, Some(Properties(g, n)[name])), fields[name])
       case Array(element) => Conforms(g, AsSchema(g, n.items), element)
       case _ => true
  }

  /** The type, if any, is one the generator answers as JSON Schema reads it. */
  predicate KnownType(n: Node) {
    match n.kind
    case None => true
    case Some(Text(t)) => !t.OtherWord?
    case Some(List(items)) =>
      && FirstType(items).Some?
      && (!FirstType(items).value.OtherWord? || Text(StringWord) in items)
    case _ => false
  }

  /** No schema the generator reaches states its value outright. */
  predicate Invented(g: Graph, n: Node, depth: nat)
    decreases MAX_DEPTH + 1 - depth
  {
    depth > MAX_DEPTH ||
    (&& Stated(n).None?
     && match SchemaType(n)
        case ObjectWord =>
          forall name :: name in Properties(g, n) ==>
                           Invented(g, AsSchema(g, Some(Properties(g, n)[name])), depth + 1)
        case ArrayWord => Invented(g, AsSchema(g, n.items), depth + 1)
        case _ => true)
  }

  /** The types it reaches are known, and where the depth limit cuts off a null is allowed. */
  predicate Fits(g: Graph, n: Node, depth: nat)
    decreases MAX_DEPTH + 1 - depth
  {
    if depth > MAX_DEPTH then Allows(n, Null)
    else
      && KnownType(n)
      && match SchemaType(n)
         case ObjectWord =>
           forall name :: name in Properties(g, n) ==> Fits(g, AsSchema(g, Some(Properties(g, n)[name])), depth + 1)
         case ArrayWord => Fits(g, AsSchema(g, n.items), depth + 1)
         case _ => true
  }

  /** The answer the generator builds is of an allowed type exactly when the type is known. */
  lemma AllowedIff(n: Node, a: Answer)
    requires if SchemaType(n).OtherWord? then a == Filler else OfType(SchemaType(n), a)
    ensures Allows(n, a) <==> KnownType(n)
  {
    match n.kind
    case Some(List(items)) =>
      if Allows(n, a) && FirstType(items).None? {
        OnlyNulls(items);
      }
    case _ =>
  }

  lemma {:induction false} OnlyNulls(items: seq<Value>)
    requires FirstType(items).None?
    ensures forall v :: v in items && v.Text? ==> v.word == NullWord
  {
    if items != [] {
      OnlyNulls(items[1..]);
      assert items == [items[0]] + items[1..];
    }
  }

  lemma ObjectConformsIff(g: Graph, n: Node, fields: map<string, Answer>)
    requires Allows(n, Object(fields)) && fields.Keys == Properties(g, n).Keys
    ensures Conforms(g, n, Object(fields)) <==>
            forall name :: name in Properties(g, n) ==>
                             Conforms(g, AsSchema(g, Some(Properties(g, n)[name])), fields[name])
  {
  }

  /** The generator's answer conforms exactly when the schema fits. */
  ghost predicate Matches(g: Graph, n: Node, depth: nat) {
    Conforms(g, n, ValueFor(g, n, depth)) <==> Fits(g, n, depth)
  }

  lemma {:induction false} ObjectMatches(g: Graph, n: Node, depth: nat)
    requires Invented(g, n, depth) && depth <= MAX_DEPTH && SchemaType(n) == ObjectWord
    ensures Matches(g, n, depth)
    decreases MAX_DEPTH + 1 - depth, 0
  {
    var props := Properties(g, n);
    var fields := Fields(g, props, depth + 1);
    assert ValueFor(g, n, depth) == Object(fields);
    AllowedIff(n, Object(fields));
    if KnownType(n) {
      ObjectConformsIff(g, n, fields);
      forall name | name in props
        ensures Conforms(g, AsSchema(g, Some(props[name])), fields[name]) <==>
                Fits(g, AsSchema(g, Some(props[name])), depth + 1)
      {
        ConformsIff(g, AsSchema(g, Some(props[name])), depth + 1);
      }
    }
  }

  lemma ArrayMatches(g: Graph, n: Node, depth: nat)
    requires Invented(g, n, depth) && depth <= MAX_DEPTH && SchemaType(n) == ArrayWord
    requires Matches(g, AsSchema(g, n.items), depth + 1)
    ensures Matches(g, n, depth)
  {
    AllowedIff(n, ValueFor(g, n, depth));
  }

  lemma CutOffMatches(g: Graph, n: Node, depth: nat)
    requires depth > MAX_DEPTH
    ensures Matches(g, n, depth)
  {
  }

  lemma LeafMatches(g: Graph, n: Node, depth: nat)
    requires Invented(g, n, depth) && depth <= MAX_DEPTH
    requires SchemaType(n) != ObjectWord && SchemaType(n) != ArrayWord
    ensures Matches(g, n, depth)
  {
    AllowedIff(n, ValueFor(g, n, depth));
  }

  /**
   Where no value is stated outright the generator's answer conforms exactly when the types it reaches
   are known and the schema fits the depth limit. Only the schemas it reaches matter.
   */
  lemma {:induction false} ConformsIff(g: Graph, n: Node, depth: nat)
    requires Invented(g, n, depth) && depth <= MAX_DEPTH + 1
    ensures Matches(g, n, depth)
    decreases MAX_DEPTH + 1 - depth, 1
  {
    if depth > MAX_DEPTH {
      CutOffMatches(g, n, depth);
    } else {
      match SchemaType(n)
      case ObjectWord =>
        ObjectMatches(g, n, depth);
      case ArrayWord =>
        ConformsIff(g, AsSchema(g, n.items), depth + 1);
        ArrayMatches(g, n, depth);
      case _ =>
        LeafMatches(g, n, depth);
    }
  }

  /** The schema, unfolded, has at most that many levels, known types and no stated values. */
  predicate Shallow(g: Graph, n: Node, levels: nat)
    decreases levels
  {
    && levels > 0 && Stated(n).None? && KnownType(n)
    && match SchemaType(n)
       case ObjectWord =>
         forall name :: name in Properties(g, n) ==> Shallow(g, AsSchema(g, Some(Properties(g, n)[name])), levels - 1)
       case ArrayWord => Shallow(g, AsSchema(g, n.items), levels - 1)
       case _ => true
  }

  lemma {:induction false} ShallowFits(g: Graph, n: Node, depth: nat, levels: nat)
    requires Shallow(g, n, levels) && depth + levels <= MAX_DEPTH + 1
    ensures Fits(g, n, depth) && Invented(g, n, depth)
    decreases levels
  {
    match SchemaType(n)
    case ObjectWord =>
      forall name | name in Properties(g, n)
        ensures Fits(g, AsSchema(g, Some(Properties(g, n)[name])), depth + 1)
        ensures Invented(g, AsSchema(g, Some(Properties(g, n)[name])), depth + 1)
      {
        ShallowFits(g, AsSchema(g, Some(Properties(g, n)[name])), depth + 1, levels - 1);
      }
    case ArrayWord =>
      ShallowFits(g, AsSchema(g, n.items), depth + 1, levels - 1);
    case _ =>
  }

  /** Schemas of at most nine levels get a conforming answer. */
  lemma NineLevelsConform(g: Graph, n: Node)
    requires Shallow(g, n, 9)
    ensures Conforms(g, n, ValueFor(g, n, 0))
  {
    ShallowFits(g, n, 0, 9);
    ConformsIff(g, n, 0);
  }

  /** An array of itself never fits: it is answered with nine arrays and a null. */
  lemma CyclicSchemaIsCutOff()
    ensures var loop := EMPTY.(kind := Some(Text(ArrayWord)), items := Some(Ref(0)));
            var g := Graph(i => loop, i => map[]);
            Invented(g, loop, 0) && !Conforms(g, loop, ValueFor(g, loop, 0))
  {
    var loop := EMPTY.(kind := Some(Text(ArrayWord)), items := Some(Ref(0)));
    var g := Graph(i => loop, i => map[]);
    NeverFits(g, loop, 0);
    ConformsIff(g, loop, 0);
  }

  lemma {:induction false} NeverFits(g: Graph, loop: Node, depth: nat)
    requires loop == EMPTY.(kind := Some(Text(ArrayWord)), items := Some(Ref(0))) && g.schema(0) == loop
    requires depth <= MAX_DEPTH + 1
    ensures !Fits(g, loop, depth) && Invented(g, loop, depth)
    decreases MAX_DEPTH + 1 - depth
  {
    if depth <= MAX_DEPTH {
      NeverFits(g, loop, depth + 1);
    }
  }

  /** A type list that holds only "null" is answered with a string, which it does not allow. */
  lemma NullListIsUnknown(g: Graph)
    ensures var n := EMPTY.(kind := Some(List([Text(NullWord)])));
            !KnownType(n) && !Conforms(g, n, ValueFor(g, n, 0))
  {
    var n := EMPTY.(kind := Some(List([Text(NullWord)])));
    assert FirstType([Text(NullWord)]) == None;
    assert ValueFor(g, n, 0) == Filler;
  }
}
