/**
 * The computed attributes of the `property-shape-document` component: the
 * name, type label, required and enum markers, description and the flags that
 * decide which parts of the documentation of one property are shown.
 *
 * Each attribute is a function of the component's inputs: the property
 * `shape`, its `range` (the type the property holds) and the values other
 * parts of the component compute (display name, parent type name, the
 * union/object/array classification). Reference resolution and the
 * data-type label of a node are supplied by the caller.
 */
module PropertyShapeDocument {
  import opened AmfNode

  /** A shape that carries its own `shacl:name`: a property, nil or any shape. */
  predicate NamesItself(n: Node)
  {
    PropertyShape in n.types || NilShape in n.types || AnyShape in n.types
  }

  /** Whether the shape decides the name itself, so that the range is never consulted. */
  predicate ShapeDecidesName(resolve: Node -> Node, shape: Option<Node>)
  {
    shape.Some? && (HttpParameter in resolve(shape.value).types || NamesItself(resolve(shape.value)))
  }

  /**
   * The name the range gives the property: the resolved range's `shacl:name`,
   * except that the name "items" of an array item is dropped when the
   * (resolved) shape is a scalar shape.
   */
  function RangeName(resolve: Node -> Node, range: Node, resolvedShape: Option<Node>): (r: Option<Value>)
    ensures r.Some? ==> r == GetValue(resolve(range), ShaclName)
    ensures r.None? <==>
      (GetValue(resolve(range), ShaclName).None?
       || (GetValue(resolve(range), ShaclName) == Some(Str("items")) && HasType(resolvedShape, ScalarShape)))
  {
    var name := GetValue(resolve(range), ShaclName);
    if name == Some(Str("items")) && HasType(resolvedShape, ScalarShape) then None else name
  }

  /**
   * The property name shown in the heading. A Parameter shape is named by its
   * schema name, a property, nil or any shape by its `shacl:name`; otherwise
   * the range names the property.
   */
  function PropertyName(resolve: Node -> Node, range: Option<Node>, shape: Option<Node>): (r: Option<Value>)
    ensures shape.None? && range.None? ==> r.None?
    // the name always comes from one of three places
    ensures r.Some? ==>
      || (shape.Some? && r == GetValue(resolve(shape.value), SchemaName))
      || (shape.Some? && r == GetValue(resolve(shape.value), ShaclName))
      || (range.Some? && r == GetValue(resolve(range.value), ShaclName))
    // with neither a deciding shape nor a range there is no name
    ensures !ShapeDecidesName(resolve, shape) && range.None? ==> r.None?
  {
    if shape.None? && range.None? then None
    else if shape.Some? && HttpParameter in resolve(shape.value).types then
      GetValue(resolve(shape.value), SchemaName)
    else if shape.Some? && NamesItself(resolve(shape.value)) then
      GetValue(resolve(shape.value), ShaclName)
    else if range.Some? then
      RangeName(resolve, range.value, Resolved(resolve, shape))
    else None
  }

  /** Whether an explicit display name is shown above the property name. */
  function HasDisplayName(displayName: Option<Value>, propertyName: Option<Value>): (r: bool)
    ensures r ==> Truthy(displayName) && displayName != propertyName
    ensures displayName == propertyName ==> !r
    ensures Truthy(displayName) && displayName != propertyName ==> r
  {
    Truthy(displayName) && displayName != propertyName
  }

  /** Whether the heading is prefixed by the parent type's name. */
  function HasParentTypeName(parentTypeName: Option<Value>): (r: bool)
    ensures r <==> parentTypeName.Some? && parentTypeName != Some(Str("")) && parentTypeName != Some(Bool(false))
                   && parentTypeName != Some(Num(0))
  {
    Truthy(parentTypeName)
  }

  /**
   * The "required" marker. A Parameter shape passes on its raw
   * `hydra:required` value, which may be undefined; any other shape is
   * required when `shacl:minCount` is set to something other than 0.
   */
  function IsRequired(resolve: Node -> Node, shape: Option<Node>): (r: Option<Value>)
    ensures shape.None? ==> r == Some(Bool(false))
    ensures shape.Some? && HttpParameter in resolve(shape.value).types ==>
      r == GetValue(resolve(shape.value), HydraRequired)
    ensures shape.Some? && HttpParameter !in resolve(shape.value).types ==>
      r == Some(Bool(ShaclMinCount in resolve(shape.value).values
                     && resolve(shape.value).values[ShaclMinCount] != Num(0)))
    // only a Parameter without a `hydra:required` value leaves the marker undefined
    ensures r.None? <==> shape.Some? && HttpParameter in resolve(shape.value).types
                         && HydraRequired !in resolve(shape.value).values
  {
    if shape.None? then Some(Bool(false))
    else
      var s := resolve(shape.value);
      if HttpParameter in s.types then GetValue(s, HydraRequired)
      else
        var data := GetValue(s, ShaclMinCount);
        Some(Bool(data != None && data != Some(Num(0))))
  }

  /**
   * The "enum" marker: the range, as given and not resolved, has a
   * `shacl:in` key. What the enumeration holds is not looked at.
   */
  function IsEnum(range: Option<Node>): (r: bool)
    ensures r <==> range.Some? && GetValue(range.value, ShaclIn).Some?
  {
    range.Some? && ShaclIn in range.value.values
  }

  /** The description of the property: the `schema:description` of the range as given. */
  function PropertyDescription(range: Option<Node>): (r: Option<Value>)
    ensures range.None? ==> r.None?
    ensures range.Some? ==> r == GetValue(range.value, SchemaDesc)
  {
    if range.None? then None else GetValue(range.value, SchemaDesc)
  }

  /** Whether the property holds a nested structure that is documented below it. */
  function IsComplex(isUnion: bool, isObject: bool, isArray: bool): (r: bool)
    ensures r <==> isUnion || isObject || isArray
  {
    isUnion || isObject || isArray
  }

  /** The data-type label of a possibly absent node, after resolution. */
  function Label(resolve: Node -> Node, dataType: Node -> Option<Value>, n: Option<Node>): Option<Value>
  {
    if n.None? then None else dataType(resolve(n.value))
  }

  /**
   * The data-type label shown for the property: the range's label when it
   * has one, and the shape's label otherwise.
   */
  function PropertyDataType(resolve: Node -> Node, dataType: Node -> Option<Value>,
                            range: Option<Node>, shape: Option<Node>): (r: Option<Value>)
    // the range comes first
    ensures Truthy(Label(resolve, dataType, range)) ==> r == Label(resolve, dataType, range)
    // a label is shown exactly when the range or the shape has one
    ensures Truthy(r) <==> Truthy(Label(resolve, dataType, range)) || Truthy(Label(resolve, dataType, shape))
    // the label falls back to the shape's, whatever that is, when the range has none
    ensures !Truthy(Label(resolve, dataType, range)) ==> r == Label(resolve, dataType, shape)
  {
    var fromRange := Label(resolve, dataType, range);
    if Truthy(fromRange) then fromRange else Label(resolve, dataType, shape)
  }

  // Properties of the attributes, one rule at a time.

  /** A Parameter shape is named by its schema name, whatever the range, even when that name is undefined. */
  lemma ParameterNamedBySchemaName(resolve: Node -> Node, range: Option<Node>, shape: Node)
    requires HttpParameter in resolve(shape).types
    ensures PropertyName(resolve, range, Some(shape)) == GetValue(resolve(shape), SchemaName)
  {
  }

  /** A non-Parameter property, nil or any shape is named by its `shacl:name`; the range is never consulted. */
  lemma SelfNamedShapeIgnoresRange(resolve: Node -> Node, range1: Option<Node>, range2: Option<Node>, shape: Node)
    requires HttpParameter !in resolve(shape).types && NamesItself(resolve(shape))
    ensures PropertyName(resolve, range1, Some(shape)) == GetValue(resolve(shape), ShaclName)
    ensures PropertyName(resolve, range1, Some(shape)) == PropertyName(resolve, range2, Some(shape))
  {
  }

  /**
   * When the shape does not decide the name, a present range does: its name
   * is dropped exactly when it is "items" and the shape is a scalar shape.
   */
  lemma RangeNamesTheRest(resolve: Node -> Node, range: Node, shape: Option<Node>)
    requires !ShapeDecidesName(resolve, shape)
    ensures var name := GetValue(resolve(range), ShaclName);
      && (name != Some(Str("items")) ==> PropertyName(resolve, Some(range), shape) == name)
      && (name == Some(Str("items")) ==>
            (PropertyName(resolve, Some(range), shape).None? <==> HasType(Resolved(resolve, shape), ScalarShape)))
  {
  }

  /** "items" is suppressed only for a scalar shape; a shape that is not scalar keeps it. */
  lemma ItemsKeptForNonScalarShape(resolve: Node -> Node, range: Node, shape: Node)
    requires !ShapeDecidesName(resolve, Some(shape)) && ScalarShape !in resolve(shape).types
    requires GetValue(resolve(range), ShaclName) == Some(Str("items"))
    ensures PropertyName(resolve, Some(range), Some(shape)) == Some(Str("items"))
  {
  }

  /**
   * A shape whose types fit no naming rule, with no range, has no name;
   * `hasDisplayName` then reduces to whether a display name is set at all.
   */
  lemma UnnamedShapeShowsAnyDisplayName(resolve: Node -> Node, shape: Node, displayName: Option<Value>)
    requires !ShapeDecidesName(resolve, Some(shape))
    ensures PropertyName(resolve, None, Some(shape)).None?
    ensures HasDisplayName(displayName, PropertyName(resolve, None, Some(shape))) <==> Truthy(displayName)
  {
  }

  /** A display name that repeats the Parameter's own schema name is not shown twice. */
  lemma ParameterDisplayNameNotRepeated(resolve: Node -> Node, range: Option<Node>, shape: Node)
    requires HttpParameter in resolve(shape).types
    ensures !HasDisplayName(GetValue(resolve(shape), SchemaName), PropertyName(resolve, range, Some(shape)))
  {
  }

  /** The enum marker ignores what `shacl:in` holds: an empty enumeration marks an enum too. */
  lemma EnumIgnoresEnumerationContents(range: Node, v: Value)
    ensures IsEnum(Some(Node(range.types, range.values[ShaclIn := v])))
    // the case of the empty enumeration, spelled out
    ensures IsEnum(Some(Node(range.types, range.values[ShaclIn := List([])])))
  {
  }

  /**
   * The attributes read through the resolver do not change when the caller
   * passes nodes it has already resolved, provided resolution is idempotent
   * on them.
   */
  lemma PreResolvedInputsKeepAttributes(resolve: Node -> Node, dataType: Node -> Option<Value>,
                                        range: Option<Node>, shape: Option<Node>)
    requires range.Some? ==> resolve(resolve(range.value)) == resolve(range.value)
    requires shape.Some? ==> resolve(resolve(shape.value)) == resolve(shape.value)
    ensures PropertyName(resolve, Resolved(resolve, range), Resolved(resolve, shape))
         == PropertyName(resolve, range, shape)
    ensures IsRequired(resolve, Resolved(resolve, shape)) == IsRequired(resolve, shape)
    ensures PropertyDataType(resolve, dataType, Resolved(resolve, range), Resolved(resolve, shape))
         == PropertyDataType(resolve, dataType, range, shape)
  {
  }
}
