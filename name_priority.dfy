/**
 * The naming rule of a documented property, written as a priority list: each
 * source of a name either does not apply to the inputs or decides the name,
 * and the first source that applies wins. `PropertyNameFollowsPriority` shows
 * that the component's cascade of checks computes exactly this.
 *
 * `FirstApplicableDecides` and `NoApplicableSource` are facts about any list
 * of sources. For the three-element `Priority`, Dafny can unroll `FirstOffer`
 * by itself, so the lemmas about `Priority` do not depend on them; they state
 * the first-applicable rule in general.
 */
module NamePriority {
  import opened AmfNode
  import opened PropertyShapeDocument

  /** The places a property's name is taken from. */
  datatype NameSource = ParameterSchemaName | ShapeShaclName | RangeShaclName

  /** The order in which the sources are tried. */
  const Priority: seq<NameSource> := [ParameterSchemaName, ShapeShaclName, RangeShaclName]

  /**
   * What one source says about the inputs: `None` when it does not apply,
   * `Some(name)` when it decides the name (which may be undefined).
   */
  function Offer(src: NameSource, resolve: Node -> Node, range: Option<Node>, shape: Option<Node>): Option<Option<Value>>
  {
    match src
    case ParameterSchemaName =>
      if shape.Some? && HttpParameter in resolve(shape.value).types
      then Some(GetValue(resolve(shape.value), SchemaName)) else None
    case ShapeShaclName =>
      if shape.Some? && (PropertyShape in resolve(shape.value).types || NilShape in resolve(shape.value).types
                         || AnyShape in resolve(shape.value).types)
      then Some(GetValue(resolve(shape.value), ShaclName)) else None
    case RangeShaclName =>
      if range.Some? then
        // an array item's name "items" is dropped under a scalar shape
        var name := GetValue(resolve(range.value), ShaclName);
        Some(if name == Some(Str("items")) && HasType(Resolved(resolve, shape), ScalarShape) then None else name)
      else None
  }

  /** The name decided by the first source in `sources` that applies; undefined when none does. */
  function FirstOffer(sources: seq<NameSource>, resolve: Node -> Node, range: Option<Node>, shape: Option<Node>): Option<Value>
    decreases |sources|
  {
    if sources == [] then None
    else match Offer(sources[0], resolve, range, shape)
      case Some(name) => name
      case None => FirstOffer(sources[1..], resolve, range, shape)
  }

  /** The first applicable source decides, whatever the sources after it offer. */
  lemma {:induction false} FirstApplicableDecides(sources: seq<NameSource>, i: nat,
                                                  resolve: Node -> Node, range: Option<Node>, shape: Option<Node>)
    requires i < |sources| && Offer(sources[i], resolve, range, shape).Some?
    requires forall j :: 0 <= j < i ==> Offer(sources[j], resolve, range, shape).None?
    ensures FirstOffer(sources, resolve, range, shape) == Offer(sources[i], resolve, range, shape).value
  {
    if i > 0 {
      assert Offer(sources[0], resolve, range, shape).None?;
      var rest := sources[1..];
      forall j | 0 <= j < i - 1
        ensures Offer(rest[j], resolve, range, shape).None?
      {
        assert rest[j] == sources[j + 1];
      }
      FirstApplicableDecides(rest, i - 1, resolve, range, shape);
    }
  }

  /** When no source applies there is no name. */
  lemma {:induction false} NoApplicableSource(sources: seq<NameSource>,
                                              resolve: Node -> Node, range: Option<Node>, shape: Option<Node>)
    requires forall j :: 0 <= j < |sources| ==> Offer(sources[j], resolve, range, shape).None?
    ensures FirstOffer(sources, resolve, range, shape).None?
  {
    if sources != [] {
      var rest := sources[1..];
      forall j | 0 <= j < |rest|
        ensures Offer(rest[j], resolve, range, shape).None?
      {
        assert rest[j] == sources[j + 1];
      }
      NoApplicableSource(rest, resolve, range, shape);
    }
  }

  /**
   * The component's property name is the name given by the first applicable
   * source in priority order. Dafny can also unroll `FirstOffer` over the
   * three-element list by itself; the case split documents which source
   * decides in each case.
   */
  lemma PropertyNameFollowsPriority(resolve: Node -> Node, range: Option<Node>, shape: Option<Node>)
    ensures PropertyName(resolve, range, shape) == FirstOffer(Priority, resolve, range, shape)
  {
    var p := Priority;
    if Offer(p[0], resolve, range, shape).Some? {
      FirstApplicableDecides(p, 0, resolve, range, shape);
    } else if Offer(p[1], resolve, range, shape).Some? {
      FirstApplicableDecides(p, 1, resolve, range, shape);
    } else if Offer(p[2], resolve, range, shape).Some? {
      FirstApplicableDecides(p, 2, resolve, range, shape);
    } else {
      NoApplicableSource(p, resolve, range, shape);
    }
  }

  /** A Parameter's schema name outranks a `shacl:name` the same shape also carries. */
  lemma ParameterOutranksShaclName(resolve: Node -> Node, range: Option<Node>, shape: Node)
    requires HttpParameter in resolve(shape).types && NamesItself(resolve(shape))
    ensures FirstOffer(Priority, resolve, range, Some(shape)) == GetValue(resolve(shape), SchemaName)
  {
    FirstApplicableDecides(Priority, 0, resolve, range, Some(shape));
  }
}
