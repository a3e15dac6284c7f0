/** The `Friend` instance: its identity and resolved options, fixed at
    construction, and the fields its handlers update. DOM nodes, listener
    wiring and frame scheduling are host plumbing; the handlers are methods
    the host is assumed to call, with the bounding rectangle, the clock and
    the pointer's bearing passed in. */
module Widget {
  import opened JsValues
  import FriendOptions
  import Identity
  import Corner
  import Orientation
  import Interaction
  import Debounce

  /** The resize handler is `_debounce(this._calculateCenter, 200)`. */
  const ResizeDelay: nat := 200

  /** The option handling and element creation of the constructor, which
      depend on nothing but the id and the arguments: merge and validate the
      options, then place the element at the resolved corner. */
  method ResolveAndPlace(id: nat, imageOrOptions: Value, corner: Value, rotationOffset: Value)
    returns (options: map<string, Value>, warnings: seq<FriendOptions.Warning>,
             position: map<Corner.Edge, Corner.Length>)
    ensures FriendOptions.Resolved(options, warnings) == FriendOptions.Resolve(id, imageOrOptions, corner, rotationOffset)
    ensures IsFiniteNumber(Get(options, "edgeOffset")) && IsFiniteNumber(Get(options, "rotationOffset"))
    ensures position == Corner.PositionStyles(Get(options, "corner"), Get(options, "edgeOffset"))
  {
    var caller := FriendOptions.CallerOptions(imageOrOptions, corner, rotationOffset);
    var merged := FriendOptions.Merge(caller);
    options, warnings := FriendOptions.CheckOffsets(FriendOptions.FiniteNumber, id, merged);
    FriendOptions.ValidateFallsBackToDefaults(FriendOptions.FiniteNumber, id, merged);
    position := Corner.PositionStyles(Get(options, "corner"), Get(options, "edgeOffset"));
  }

  class Friend {
    var latestMouseX: real
    var latestMouseY: real
    var characterCenterX: real
    var characterCenterY: real
    var currentAngle: real
    /** Whether the element's class list holds `bouncing`. */
    var bouncing: bool
    /** The edge styles the element was created with. */
    var position: map<Corner.Edge, Corner.Length>
    const instanceId: nat
    const elementId: string
    var options: map<string, Value>
    /** The diagnostics construction wrote to the console. */
    var warnings: seq<FriendOptions.Warning>
    /** The debounced resize handler. */
    const resize: Debounce.Debouncer

    ghost predicate Valid()
      reads this
    {
      elementId == Identity.ElementId(instanceId) &&
      IsFiniteNumber(Get(options, "edgeOffset")) &&
      IsFiniteNumber(Get(options, "rotationOffset")) &&
      position == Corner.PositionStyles(Get(options, "corner"), Get(options, "edgeOffset")) &&
      resize.delay == ResizeDelay
    }

    function Inputs(): Interaction.InputState
      reads this
    {
      Interaction.InputState(latestMouseX, latestMouseY, bouncing)
    }

    /** Construction: take the next id, merge and validate the options, and
        create the element at its corner. */
    constructor (counter: Identity.InstanceCounter, imageOrOptions: Value, corner: Value, rotationOffset: Value)
      requires counter.Valid()
      modifies counter
      ensures Valid() && counter.Valid()
      ensures instanceId == old(counter.next) && counter.next == old(counter.next) + 1
      ensures forall i :: i in old(counter.issued) ==> i < instanceId
      ensures counter.issued == old(counter.issued) + {instanceId}
      ensures var r := FriendOptions.Resolve(instanceId, imageOrOptions, corner, rotationOffset);
        options == r.options && warnings == r.warnings
      ensures latestMouseX == 0.0 && latestMouseY == 0.0 && !bouncing
      ensures characterCenterX == 0.0 && characterCenterY == 0.0 && currentAngle == 0.0
      ensures fresh(resize) && resize.timer == Debounce.Idle
    {
      var id := counter.Take();
      var checkedOptions, diagnostics, styles := ResolveAndPlace(id, imageOrOptions, corner, rotationOffset);
      instanceId := id;
      elementId := Identity.ElementId(id);
      options := checkedOptions;
      warnings := diagnostics;
      position := styles;
      latestMouseX, latestMouseY := 0.0, 0.0;
      characterCenterX, characterCenterY := 0.0, 0.0;
      currentAngle := 0.0;
      bouncing := false;
      resize := new Debounce.Debouncer(ResizeDelay);
    }

    /** `_handleMouseMove`: store the pointer coordinates. */
    method HandleMouseMove(clientX: real, clientY: real)
      modifies this`latestMouseX, this`latestMouseY
      ensures Inputs() == Interaction.Apply(old(Inputs()), Interaction.MouseMove(clientX, clientY))
    {
      latestMouseX := clientX;
      latestMouseY := clientY;
    }

    /** `_handleClick`: start bouncing on a hit while not bouncing. */
    method HandleClick(clientX: real, clientY: real, rect: Interaction.Rect)
      modifies this`bouncing
      ensures Inputs() == Interaction.Apply(old(Inputs()), Interaction.Click(clientX, clientY, rect))
    {
      var isHit := clientX >= rect.left && clientX <= rect.Right()
                   && clientY >= rect.top && clientY <= rect.Bottom();
      if isHit && !bouncing {
        bouncing := true;
      }
    }

    /** `_onAnimationEnd`: drop the `bouncing` class. */
    method OnAnimationEnd()
      modifies this`bouncing
      ensures Inputs() == Interaction.Apply(old(Inputs()), Interaction.AnimationEnd)
    {
      bouncing := false;
    }

    /** `_calculateCenter`: store the midpoint of the element's rectangle. */
    method CalculateCenter(rect: Interaction.Rect)
      modifies this`characterCenterX, this`characterCenterY
      ensures (characterCenterX, characterCenterY) == Interaction.Center(rect)
    {
      characterCenterX := rect.left + rect.width / 2.0;
      characterCenterY := rect.top + rect.height / 2.0;
    }

    /** One frame of `_animationLoop`. `bearing` is the pointer's direction
        from the centre in degrees (the `atan2` of the source); the target
        adds the validated rotation offset, so the `?? 90` never applies. */
    method AnimationLoop(bearing: real)
      requires Valid()
      requires IsFiniteNumber(Get(options, "smoothing"))
      modifies this`currentAngle
      ensures currentAngle == Orientation.Smoothed(
        old(currentAngle), bearing + Get(options, "rotationOffset").n, Get(options, "smoothing").n)
    {
      var targetAngleDeg := bearing + Get(options, "rotationOffset").n;
      var angleDiff := Orientation.WrapDifference(targetAngleDeg - currentAngle);
      currentAngle := currentAngle + angleDiff * Get(options, "smoothing").n;
    }

    /** A window resize at time `now`: the debounced wrapper is called. */
    method OnResize(now: int)
      requires Valid()
      modifies resize
      ensures resize.timer == Debounce.Pending(now + ResizeDelay)
    {
      resize.Call(now);
    }

    /** The clock reaching `now`: a due resize timer recomputes the centre
        from the rectangle the element has at that moment. */
    method ResizeTimerTick(now: int, rect: Interaction.Rect) returns (recomputed: bool)
      requires Valid()
      modifies resize, this`characterCenterX, this`characterCenterY
      ensures (resize.timer, recomputed) == Debounce.Step(old(resize.timer), Debounce.TickAt(now), ResizeDelay)
      ensures recomputed ==> (characterCenterX, characterCenterY) == Interaction.Center(rect)
      ensures !recomputed ==> characterCenterX == old(characterCenterX) && characterCenterY == old(characterCenterY)
    {
      recomputed := resize.Tick(now);
      if recomputed {
        CalculateCenter(rect);
      }
    }
  }

  /** Two instances with different ids never share an element id. */
  lemma DistinctElementIds(a: Friend, b: Friend)
    requires a.Valid() && b.Valid() && a.instanceId != b.instanceId
    ensures a.elementId != b.elementId
  {
    Identity.ElementIdsDistinct(a.instanceId, b.instanceId);
  }

  /** As written, `rotationOffset: Infinity` survives validation, the
      target and the difference become `Infinity`, and the first wrap loop
      still has to run after any number `k` of rounds: the first frame never
      finishes. */
  lemma InfiniteRotationOffsetFreezesAsWritten(id: nat, merged: map<string, Value>, bearing: real, current: real, k: nat)
    requires Get(merged, "rotationOffset") == NonFinite(PositiveInfinity)
    ensures var offset := Get(FriendOptions.ValidateAsWritten(id, merged).options, "rotationOffset");
      IsNumber(offset) &&
      var diff := Subtract(Add(Num(bearing), offset), Num(current));
      diff == NonFinite(PositiveInfinity) && GreaterThan(Orientation.SubtractTurns(diff, k), 180.0)
  {
    FriendOptions.AsWrittenKeepsNonFiniteOffset(id, merged, "rotationOffset");
    Orientation.InfiniteDifferenceNeverWraps(k);
  }

  /** As written, `rotationOffset: NaN` survives validation and makes the
      angle `NaN` on the first frame. */
  lemma NaNRotationOffsetPoisonsAngleAsWritten(id: nat, merged: map<string, Value>, bearing: real, current: real, smoothing: Value)
    requires Get(merged, "rotationOffset") == NonFinite(NaN)
    requires IsNumber(smoothing)
    ensures var offset := Get(FriendOptions.ValidateAsWritten(id, merged).options, "rotationOffset");
      IsNumber(offset) &&
      var diff := Subtract(Add(Num(bearing), offset), Num(current));
      diff == NonFinite(NaN) && Add(Num(current), Multiply(diff, smoothing)) == NonFinite(NaN)
  {
    FriendOptions.AsWrittenKeepsNonFiniteOffset(id, merged, "rotationOffset");
    Orientation.NaNDifferencePoisonsAngle(current, smoothing);
  }
}
