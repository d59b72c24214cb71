# property-shape-document, modelled in Dafny

`property-shape-document` is a web component that documents one property of an
API data shape. The shape comes from an AMF (API Modeling Framework) graph
built from a RAML or OpenAPI description. The component computes a set of
display attributes from the property's `shape` node and its `range`:

- the property name;
- whether a separate display name is shown;
- the parent-type prefix;
- the required and enum markers;
- the data-type label;
- the description;
- whether the property is complex, that is, it holds nested documentation.

This project models those computations as pure Dafny functions and proves the
rules they follow.

- `amf_node.dfy` (module `AmfNode`) models an AMF node. A node is a set of
  `@type` terms plus a map from vocabulary keys to values. The file also models
  JavaScript's `undefined` (`Option`) and its truthiness (`Truthy`).
- `property_shape_document.dfy` (module `PropertyShapeDocument`) holds one
  function per computed attribute. The `ensures` clauses of the functions state
  the required, enum, description, display-name and type-label rules. Separate
  lemmas state each naming rule.
- `name_priority.dfy` (module `NamePriority`) defines the naming rule a second
  time, as an ordered list of name sources where the first source that applies
  decides the name. Each source's guard and name, the "items" rule included,
  are written out there again and not taken from `PropertyShapeDocument`. The
  module proves that the component's cascade of `if`s computes the same name
  for every input.

Reference resolution (`_resolve`) and the data-type label of a node
(`_computeRangeDataType`) belong to a helper mixin that is not part of this
model. The functions take both as parameters: `resolve: Node -> Node` and
`dataType: Node -> Option<Value>`.

Points where the code's behaviour is easy to misread:

- **Enum marker.** `_computeIsEnum` checks only that the `shacl:in` key is
  present on the unresolved range (property-shape-document.js:462-463), so an
  empty enumeration still marks an enum (`EnumIgnoresEnumerationContents`).
  Its doc comment says it always returns `false` (line 459); the code does not.
- **Required marker.** The JSDoc of `_computeIsRequired` says
  `@return {Boolean}` (line 443), but for a Parameter line 451 returns the raw
  `hydra:required` value, which may be undefined. `IsRequired` therefore
  returns an `Option<Value>`.
- **Description.** `_computeDescription` reads the description from the range
  as given, without resolving it (line 474).
- **Missing type label.** When neither the range nor the shape gives a label,
  `_computeType` returns undefined (lines 379-383).

## Model

| member | source | states |
|---|---|---|
| `PropertyShapeDocument.PropertyName` | property-shape-document.js:393-417 | no name without a shape and a range; any name comes from the shape's schema name, the shape's `shacl:name` or the resolved range's `shacl:name`; no name when the shape does not decide and there is no range |
| `PropertyShapeDocument.RangeName` | property-shape-document.js:408-416 | the range's name is its resolved `shacl:name`, and it is dropped exactly when it is absent or is "items" with a scalar shape |
| `PropertyShapeDocument.ParameterNamedBySchemaName` | property-shape-document.js:397-401 | a Parameter shape is named by its schema name whatever the range, even when that is undefined |
| `PropertyShapeDocument.SelfNamedShapeIgnoresRange` | property-shape-document.js:402-406 | a non-Parameter property, nil or any shape is named by its `shacl:name`, and the range cannot change that |
| `PropertyShapeDocument.RangeNamesTheRest` | property-shape-document.js:408-417 | otherwise a present range names the property, and "items" is dropped exactly when the shape is scalar |
| `PropertyShapeDocument.ItemsKeptForNonScalarShape` | property-shape-document.js:411-415 | a range named "items" keeps its name when the shape is not scalar |
| `PropertyShapeDocument.UnnamedShapeShowsAnyDisplayName` | property-shape-document.js:393-417 | a shape that fits no naming rule and has no range gets no name, so any truthy display name is shown |
| `PropertyShapeDocument.HasDisplayName` | property-shape-document.js:426-428 | true exactly when the display name is truthy and differs from the property name |
| `PropertyShapeDocument.ParameterDisplayNameNotRepeated` | property-shape-document.js:399-400 | a display name equal to the Parameter's schema name is not shown as a separate display name |
| `PropertyShapeDocument.HasParentTypeName` | property-shape-document.js:434-436 | true exactly when the parent type name is present and not a falsy value |
| `PropertyShapeDocument.IsRequired` | property-shape-document.js:445-455 | false without a shape; a Parameter's raw `hydra:required` value; otherwise `minCount` present and not 0; undefined only for a Parameter without `hydra:required` |
| `PropertyShapeDocument.IsEnum` | property-shape-document.js:461-464 | true exactly when a range is present and carries the `shacl:in` key |
| `PropertyShapeDocument.EnumIgnoresEnumerationContents` | property-shape-document.js:461-464 | any `shacl:in` value, the empty list included, marks an enum |
| `PropertyShapeDocument.PropertyDescription` | property-shape-document.js:470-475 | undefined without a range, otherwise the unresolved range's description value |
| `PropertyShapeDocument.IsComplex` | property-shape-document.js:483-485 | true exactly when the property is a union, an object or an array |
| `PropertyShapeDocument.PropertyDataType` | property-shape-document.js:378-384 | the range's label wins when truthy; otherwise the shape's label, whatever it is; a label is shown exactly when the range or the shape has one |
| `PropertyShapeDocument.PreResolvedInputsKeepAttributes` | property-shape-document.js:378-455 | if resolution is idempotent, passing already-resolved nodes changes neither the name, nor the required marker, nor the type label |
| `NamePriority.FirstApplicableDecides` | property-shape-document.js:393-417 | in a list of name sources, the first one that applies decides the name |
| `NamePriority.NoApplicableSource` | property-shape-document.js:393-417 | when no source applies there is no name |
| `NamePriority.PropertyNameFollowsPriority` | property-shape-document.js:393-417 | for every input, the component's property name equals the name from the first applicable source in the order Parameter schema name, shape `shacl:name`, range `shacl:name` |
| `NamePriority.ParameterOutranksShaclName` | property-shape-document.js:399-406 | a shape that is both a Parameter and a property shape is named by its schema name |

## Left out

- The HTML template and the styles: they only show or hide parts of the page
  based on the computed attributes.
- The Polymer property declarations, the recomputation of attributes when
  inputs change, and the custom-element registration. The attributes are plain
  functions that the caller invokes.
- The helper mixin's internals: `_resolve`, `_hasType`, `_getValue`,
  `_getAmfKey`, `_computeRangeDataType` and the vocabulary IRIs.
  - Resolution and the type label are parameters.
  - `_hasType` is set membership. An absent node is taken to have no types.
  - `_getValue` is a map lookup that yields the stored value whenever the key
    is present.
  - `_getAmfKey` and the `in` test become key membership.
  - JSON-LD compaction of keys is not modelled.
- The functions of the property-document mixin that feed this component:
  `_computeRange`, `_computeDisplayName`, `_computeIsUnion`, `_computeIsObject`,
  `_computeIsArray` and `_computeHasStringValue`. That mixin is not part of this
  model. The range, the display name and the three classification flags are
  inputs. `hasPropertyDescription` is not modelled.
- The recursive mounting of child type documents and the markdown rendering of
  the description. These are UI composition with no logic beyond `IsComplex`
  and the classification flags.
- JavaScript distinctions that the model merges:
  - `null` is treated like `undefined`.
  - Numbers are integers, because `minCount` is a count.
  - `!==` between lists is value inequality, not reference inequality.
