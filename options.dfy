/** Option resolution of the `Friend` constructor: the caller's options are
    spread over the defaults, `size` is merged field by field, and a
    non-numeric `edgeOffset` or `rotationOffset` is replaced by its default
    with a warning. Construction never fails. */
module FriendOptions {
  import opened JsValues

  const DefaultEdgeOffset := 20.0
  const DefaultRotationOffset := 90.0

  const DefaultSize: map<string, Value> :=
    map["width" := Num(200.0), "height" := Num(300.0)]

  /** `Friend._defaultOptions` */
  const Defaults: map<string, Value> := map[
    "image" := Str("./character/friend.png"),
    "size" := Obj(DefaultSize),
    "zIndex" := Num(9999.0),
    "smoothing" := Num(0.1),
    "mobileBreakpoint" := Num(600.0),
    "corner" := Str("bottom-left"),
    "edgeOffset" := Num(DefaultEdgeOffset),
    "rotationOffset" := Num(DefaultRotationOffset)
  ]

  /** A diagnostic written to the console during construction. */
  datatype Warning = NotANumber(instance: nat, option: string)

  datatype Resolved = Resolved(options: map<string, Value>, warnings: seq<Warning>)

  /** The options object the constructor works from: the first argument when
      it is a non-null object, otherwise the legacy triple, whose three keys
      are present even when their values are `undefined`. */
  function CallerOptions(imageOrOptions: Value, corner: Value, rotationOffset: Value): map<string, Value>
  {
    if IsObject(imageOrOptions) then imageOrOptions.fields
    else map["image" := imageOrOptions, "corner" := corner, "rotationOffset" := rotationOffset]
  }

  /** The `size` entry of the merged options: default width and height,
      overridden by whatever the caller's `size` (when truthy) supplies. */
  function MergedSize(caller: map<string, Value>): map<string, Value>
  {
    var given := Get(caller, "size");
    DefaultSize + (if Truthy(given) then OwnProperties(given) else map[])
  }

  /** `{ ...defaults, ...options, size: { ...defaults.size, ...(options.size || {}) } }` */
  function Merge(caller: map<string, Value>): map<string, Value>
  {
    Defaults + caller + map["size" := Obj(MergedSize(caller))]
  }

  /** Every key the caller supplies (with whatever value, `undefined`
      included) overrides the default, every other key keeps its default,
      and `size` is merged field by field: `width` and `height` each keep
      their default unless the caller's `size` object supplies that field. */
  lemma MergeOverridesDefaults(caller: map<string, Value>)
    ensures var m := Merge(caller);
      (forall k :: k != "size" && k in caller ==> Get(m, k) == caller[k]) &&
      (forall k :: k != "size" && k !in caller ==> Get(m, k) == Get(Defaults, k)) &&
      Get(m, "size").Obj? &&
      var given := Get(caller, "size");
      forall f :: Get(Get(m, "size").fields, f) ==
        if given.Obj? && f in given.fields then given.fields[f] else Get(DefaultSize, f)
  {
  }

  /** The test an offset must pass to be kept: as written, `typeof v ===
      'number'`, which lets `NaN` and the infinities through; as corrected,
      a finite number. */
  datatype OffsetCheck = TypeofNumber | FiniteNumber

  predicate Passes(check: OffsetCheck, v: Value) {
    match check
    case TypeofNumber => IsNumber(v)
    case FiniteNumber => IsFiniteNumber(v)
  }

  /** The validation of `edgeOffset` and `rotationOffset` performed on the
      merged options of instance `id`, with the given test. */
  function ValidateWith(check: OffsetCheck, id: nat, merged: map<string, Value>): Resolved
  {
    var checked := Fallback(Resolved(merged, []), check, id, "edgeOffset", DefaultEdgeOffset);
    Fallback(checked, check, id, "rotationOffset", DefaultRotationOffset)
  }

  /** The validation as written. */
  function ValidateAsWritten(id: nat, merged: map<string, Value>): Resolved
  {
    ValidateWith(TypeofNumber, id, merged)
  }

  /** The validation as intended: only finite offsets are kept. */
  function Validate(id: nat, merged: map<string, Value>): Resolved
  {
    ValidateWith(FiniteNumber, id, merged)
  }

  /** After validation both offsets pass the test. An offset that passed is
      kept and not warned about; one that did not is replaced by its default
      (20, resp. 90) with one warning naming the instance. No other option
      changes. */
  lemma ValidateFallsBackToDefaults(check: OffsetCheck, id: nat, merged: map<string, Value>)
    ensures var r := ValidateWith(check, id, merged);
      Passes(check, Get(r.options, "edgeOffset")) && Passes(check, Get(r.options, "rotationOffset")) &&
      (Passes(check, Get(merged, "edgeOffset")) ==> Get(r.options, "edgeOffset") == Get(merged, "edgeOffset")) &&
      (!Passes(check, Get(merged, "edgeOffset")) ==> Get(r.options, "edgeOffset") == Num(DefaultEdgeOffset)) &&
      (Passes(check, Get(merged, "rotationOffset")) ==> Get(r.options, "rotationOffset") == Get(merged, "rotationOffset")) &&
      (!Passes(check, Get(merged, "rotationOffset")) ==> Get(r.options, "rotationOffset") == Num(DefaultRotationOffset)) &&
      (forall k :: k != "edgeOffset" && k != "rotationOffset" ==> Get(r.options, k) == Get(merged, k)) &&
      (NotANumber(id, "edgeOffset") in r.warnings <==> !Passes(check, Get(merged, "edgeOffset"))) &&
      (NotANumber(id, "rotationOffset") in r.warnings <==> !Passes(check, Get(merged, "rotationOffset"))) &&
      (forall w :: w in r.warnings ==> w.instance == id) &&
      |r.warnings| == (if Passes(check, Get(merged, "edgeOffset")) then 0 else 1)
                      + (if Passes(check, Get(merged, "rotationOffset")) then 0 else 1)
  {
  }

  /** As written, a non-finite offset passes the check: it is kept and no
      warning is issued for it. */
  lemma AsWrittenKeepsNonFiniteOffset(id: nat, merged: map<string, Value>, key: string)
    requires key == "edgeOffset" || key == "rotationOffset"
    requires Get(merged, key).NonFinite?
    ensures var r := ValidateAsWritten(id, merged);
      Get(r.options, key) == Get(merged, key) && NotANumber(id, key) !in r.warnings
  {
    ValidateFallsBackToDefaults(TypeofNumber, id, merged);
  }

  /** The correction changes nothing unless an offset is non-finite. */
  lemma CorrectionOnlyRejectsNonFinite(id: nat, merged: map<string, Value>)
    requires !Get(merged, "edgeOffset").NonFinite? && !Get(merged, "rotationOffset").NonFinite?
    ensures ValidateAsWritten(id, merged) == Validate(id, merged)
  {
    assert Passes(TypeofNumber, Get(merged, "edgeOffset")) == Passes(FiniteNumber, Get(merged, "edgeOffset"));
    var r := Fallback(Resolved(merged, []), TypeofNumber, id, "edgeOffset", DefaultEdgeOffset);
    assert r == Fallback(Resolved(merged, []), FiniteNumber, id, "edgeOffset", DefaultEdgeOffset);
    assert Get(r.options, "rotationOffset") == Get(merged, "rotationOffset");
  }

  /** One check: an offset failing the test is replaced by `default` and a
      warning for instance `id` is appended. */
  function Fallback(r: Resolved, check: OffsetCheck, id: nat, key: string, default: real): Resolved
  {
    if Passes(check, Get(r.options, key)) then r
    else Resolved(r.options[key := Num(default)], r.warnings + [NotANumber(id, key)])
  }

  /** The two checks as the constructor runs them on the merged options:
      an offset failing the test is overwritten by its default, with a
      warning. */
  method CheckOffsets(check: OffsetCheck, id: nat, merged: map<string, Value>)
    returns (options: map<string, Value>, warnings: seq<Warning>)
    ensures Resolved(options, warnings) == ValidateWith(check, id, merged)
  {
    options, warnings := merged, [];
    if !Passes(check, Get(options, "edgeOffset")) {
      warnings := warnings + [NotANumber(id, "edgeOffset")];
      options := options["edgeOffset" := Num(DefaultEdgeOffset)];
    }
    if !Passes(check, Get(options, "rotationOffset")) {
      warnings := warnings + [NotANumber(id, "rotationOffset")];
      options := options["rotationOffset" := Num(DefaultRotationOffset)];
    }
  }

  /** Everything the constructor does to its arguments before mounting,
      with the corrected finite-number test. */
  function Resolve(id: nat, imageOrOptions: Value, corner: Value, rotationOffset: Value): Resolved
  {
    Validate(id, Merge(CallerOptions(imageOrOptions, corner, rotationOffset)))
  }

  /** Both call forms give the same shape: the resolved options hold every
      default key and finite offsets, whatever the arguments. */
  lemma ResolveIsTotal(id: nat, imageOrOptions: Value, corner: Value, rotationOffset: Value)
    ensures var r := Resolve(id, imageOrOptions, corner, rotationOffset);
      Defaults.Keys <= r.options.Keys &&
      IsFiniteNumber(Get(r.options, "edgeOffset")) && IsFiniteNumber(Get(r.options, "rotationOffset")) &&
      Get(r.options, "size").Obj? &&
      {"width", "height"} <= Get(r.options, "size").fields.Keys
  {
    var caller := CallerOptions(imageOrOptions, corner, rotationOffset);
    MergeOverridesDefaults(caller);
    ValidateFallsBackToDefaults(FiniteNumber, id, Merge(caller));
  }

  /** The legacy form always supplies `corner` and `rotationOffset`, so an
      omitted corner overrides the default with `undefined`, while an omitted
      rotation offset is repaired to 90 with a warning. */
  lemma LegacyKeysOverrideDefaults(id: nat, image: Value, corner: Value, rotationOffset: Value)
    requires !IsObject(image)
    ensures var r := Resolve(id, image, corner, rotationOffset);
      Get(r.options, "image") == image &&
      Get(r.options, "corner") == corner &&
      (IsFiniteNumber(rotationOffset) ==> Get(r.options, "rotationOffset") == rotationOffset) &&
      (!IsFiniteNumber(rotationOffset) ==>
         Get(r.options, "rotationOffset") == Num(DefaultRotationOffset) &&
         NotANumber(id, "rotationOffset") in r.warnings) &&
      Get(r.options, "edgeOffset") == Num(DefaultEdgeOffset) &&
      r.warnings == (if IsFiniteNumber(rotationOffset) then [] else [NotANumber(id, "rotationOffset")])
  {
    var caller := CallerOptions(image, corner, rotationOffset);
    MergeOverridesDefaults(caller);
    ValidateFallsBackToDefaults(FiniteNumber, id, Merge(caller));
  }
}
