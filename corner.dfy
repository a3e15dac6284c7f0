/** Placement of the widget from its `corner` option: exactly two edge
    properties, both set to the edge offset in pixels. */
module Corner {
  import opened JsValues
  import FriendOptions

  /** The CSS inset properties `top`, `bottom`, `left` and `right`. */
  datatype Edge = Top | Bottom | Left | Right

  /** `cornerMap`: the edges named by each of the four corners. */
  const CornerMap: map<string, seq<Edge>> := map[
    "top-left" := [Top, Left],
    "top-right" := [Top, Right],
    "bottom-right" := [Bottom, Right],
    "bottom-left" := [Bottom, Left]
  ]

  /** The properties an ordinary object literal inherits from
      `Object.prototype`; indexing `cornerMap` with one of these names finds a
      function (or, for `__proto__`, the prototype object), not an array. */
  const InheritedNames: set<string> := {
    "constructor", "hasOwnProperty", "isPrototypeOf", "propertyIsEnumerable",
    "toLocaleString", "toString", "valueOf", "__proto__",
    "__defineGetter__", "__defineSetter__", "__lookupGetter__", "__lookupSetter__"
  }

  /** A CSS length `${value}px`; the number-to-text rendering is not modelled. */
  datatype Length = Px(value: Value)

  datatype Error = TypeError

  datatype Result<T> = Ok(value: T) | Err(error: Error)

  /** The lookup as written: `cornerMap[corner] || cornerMap['bottom-left']`,
      then `.forEach` on what was found. A corner naming an inherited member
      finds a truthy value without `forEach`, which throws. The other
      values modelled here (`undefined`, `null`, booleans, numbers and plain
      objects without a `toString` of their own) turn into keys such as
      `"undefined"` or `"[object Object]"` that name neither a corner nor an
      inherited member; arrays and objects with their own `toString`, which
      could turn into any key or make the conversion throw, are not
      modelled. */
  function CornerEdgesAsWritten(corner: Value): (r: Result<seq<Edge>>)
    ensures r.Err? <==> corner.Str? && corner.s in InheritedNames
  {
    if corner.Str? && corner.s in CornerMap then Ok(CornerMap[corner.s])
    else if corner.Str? && corner.s in InheritedNames then Err(TypeError)
    else Ok(CornerMap["bottom-left"])
  }

  /** A corner named after an inherited member makes the lookup throw. */
  lemma ToStringCornerThrows()
    ensures CornerEdgesAsWritten(Str("toString")).Err?
    ensures CornerEdgesAsWritten(Str("__proto__")).Err?
  {
  }

  /** The lookup as intended: only the four own keys of `cornerMap` are
      corners; anything else falls back to bottom-left. */
  function CornerEdges(corner: Value): seq<Edge>
  {
    if corner.Str? && corner.s in CornerMap then CornerMap[corner.s] else CornerMap["bottom-left"]
  }

  /** The intended lookup never fails: it yields one vertical and one
      horizontal edge, those of the named corner when there is one, and
      bottom and left otherwise. */
  lemma CornerEdgesNeverFail(corner: Value)
    ensures var edges := CornerEdges(corner);
      |edges| == 2 && edges[0] in {Top, Bottom} && edges[1] in {Left, Right} &&
      (corner.Str? && corner.s in CornerMap ==> edges == CornerMap[corner.s]) &&
      (!(corner.Str? && corner.s in CornerMap) ==> edges == [Bottom, Left])
  {
  }

  /** The two lookups agree wherever the one as written does not throw. */
  lemma AsWrittenAgreesWhenItSucceeds(corner: Value)
    ensures CornerEdgesAsWritten(corner).Ok? ==> CornerEdgesAsWritten(corner).value == CornerEdges(corner)
  {
  }

  /** `_getPositionStylesFromCorner`: each edge of the corner set to the
      edge offset. */
  function PositionStyles(corner: Value, edgeOffset: Value): map<Edge, Length>
  {
    var edges := CornerEdges(corner);
    map p | p in edges :: Px(edgeOffset)
  }

  /** The styles set exactly two properties, one vertical and one
      horizontal edge, both to the edge offset; the four named corners pick
      their own edges and anything else picks bottom and left. */
  lemma PositionStylesPlaceOneCorner(corner: Value, edgeOffset: Value)
    ensures var styles := PositionStyles(corner, edgeOffset);
      |styles| == 2 &&
      (Top in styles) != (Bottom in styles) &&
      (Left in styles) != (Right in styles) &&
      (forall p :: p in styles ==> styles[p] == Px(edgeOffset)) &&
      (corner == Str("top-left") ==> styles.Keys == {Top, Left}) &&
      (corner == Str("top-right") ==> styles.Keys == {Top, Right}) &&
      (corner == Str("bottom-right") ==> styles.Keys == {Bottom, Right}) &&
      (corner == Str("bottom-left") ==> styles.Keys == {Bottom, Left}) &&
      (!(corner.Str? && corner.s in CornerMap) ==> styles.Keys == {Bottom, Left})
  {
    var edges := CornerEdges(corner);
    CornerEdgesNeverFail(corner);
    assert PositionStyles(corner, edgeOffset).Keys == {edges[0], edges[1]};
  }

  /** In the legacy call form an omitted corner reaches the lookup as
      `undefined` and is repaired there: the widget sits bottom-left, at the
      default edge offset. */
  lemma LegacyOmittedCornerIsBottomLeft(id: nat, image: Value, rotationOffset: Value)
    requires !IsObject(image)
    ensures var o := FriendOptions.Resolve(id, image, Undefined, rotationOffset).options;
      Get(o, "corner") == Undefined &&
      PositionStyles(Get(o, "corner"), Get(o, "edgeOffset"))
        == map[Bottom := Px(Num(FriendOptions.DefaultEdgeOffset)), Left := Px(Num(FriendOptions.DefaultEdgeOffset))]
  {
    FriendOptions.LegacyKeysOverrideDefaults(id, image, Undefined, rotationOffset);
    var o := FriendOptions.Resolve(id, image, Undefined, rotationOffset).options;
    var offset := Px(Num(FriendOptions.DefaultEdgeOffset));
    PositionStylesPlaceOneCorner(Undefined, Get(o, "edgeOffset"));
    assert PositionStyles(Undefined, Get(o, "edgeOffset")) == map[Bottom := offset, Left := offset];
  }
}
