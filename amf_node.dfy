/**
 * The part of an AMF (API Modeling Framework) graph that the property
 * documentation reads: one node of the JSON-LD document, with the `@type`
 * terms it lists and the vocabulary keys it carries, and the loose value
 * semantics of the JavaScript that reads it (undefined, truthiness).
 *
 * The graph helpers that walk the real document (reference resolution,
 * data-type labels) are not modelled; the operations that need them take
 * them as function parameters.
 */
module AmfNode {

  /** A value that may be absent; `None` stands for JavaScript's `undefined`. */
  datatype Option<+T> = None | Some(value: T)

  /** A value read out of a node: the scalar kinds a JSON-LD `@value` holds, or a list. */
  datatype Value =
    | Str(s: string)
    | Bool(b: bool)
    | Num(n: int)
    | List(items: seq<Value>)

  /** The `@type` terms the documentation asks a node about. */
  datatype ShapeType =
    | HttpParameter    // raml http vocabulary: Parameter
    | PropertyShape    // shacl: PropertyShape
    | NilShape         // raml shapes vocabulary: NilShape
    | AnyShape         // raml shapes vocabulary: AnyShape
    | ScalarShape      // raml shapes vocabulary: ScalarShape
    | NodeShape        // shacl: NodeShape (an object)
    | ArrayShape       // raml shapes vocabulary: ArrayShape
    | UnionShape       // raml shapes vocabulary: UnionShape
    | OtherType(iri: string)

  /** The vocabulary keys the documentation reads. */
  datatype Key =
    | SchemaName       // schema-org name: the name of an HTTP parameter
    | ShaclName        // shacl:name
    | HydraRequired    // hydra:required
    | ShaclMinCount    // shacl:minCount
    | SchemaDesc       // schema-org description
    | ShaclIn          // shacl:in, the enumeration
    | OtherKey(iri: string)

  /** One node of the graph: its types and its key-addressed values. */
  datatype Node = Node(types: set<ShapeType>, values: map<Key, Value>)

  /** The value stored under `key`, or undefined when the node has no such key. */
  function GetValue(n: Node, key: Key): Option<Value>
  {
    if key in n.values then Some(n.values[key]) else None
  }

  /** Whether a possibly absent node lists `t` among its types; an absent node has none. */
  predicate HasType(n: Option<Node>, t: ShapeType)
  {
    n.Some? && t in n.value.types
  }

  /** The node a possibly absent reference resolves to, staying absent when it is absent. */
  function Resolved(resolve: Node -> Node, n: Option<Node>): Option<Node>
  {
    match n
    case None => None
    case Some(node) => Some(resolve(node))
  }

  /** JavaScript truthiness: undefined, false, 0 and the empty string are falsy; lists are truthy. */
  predicate Truthy(v: Option<Value>)
  {
    match v
    case None => false
    case Some(Str(s)) => s != ""
    case Some(Bool(b)) => b
    case Some(Num(n)) => n != 0
    case Some(List(_)) => true
  }
}
