/** Host readings and the measurement step of the viewport stabiliser.
    Every reading is an integer that stands for an already-rounded pixel
    count; `None` stands for a value that is absent or not a finite number. */
module Measurement {

  datatype Option<T> = None | Some(value: T)

  datatype Orientation = Portrait | Landscape

  /** The numeric readings of `window.visualViewport`, when that object exists. */
  datatype ViewportSize = ViewportSize(height: Option<int>, width: Option<int>)

  /** Everything one trigger can read from the host. */
  datatype Env = Env(
    visualViewport: Option<ViewportSize>,
    innerHeight: Option<int>,
    innerWidth: Option<int>,
    clientHeight: Option<int>,
    clientWidth: Option<int>,
    screenHeight: Option<int>,
    availHeight: Option<int>,
    orientationType: Option<string>,   // screen.orientation.type, when it is a string
    windowOrientation: Option<int>,    // the legacy window.orientation angle, when it is a number
    portraitMatches: Option<bool>)     // the '(orientation: portrait)' query, when matchMedia exists

  /** A candidate that `pickDimension` accepts: a finite number above zero. */
  predicate Usable(c: Option<int>)
  {
    c.Some? && c.value > 0
  }

  /** The first usable candidate, or None when there is none. */
  function PickDimension(candidates: seq<Option<int>>): (r: Option<int>)
    ensures r.None? <==> forall i :: 0 <= i < |candidates| ==> !Usable(candidates[i])
    ensures r.Some? ==> r.value > 0
    ensures r.Some? ==>
      exists i :: 0 <= i < |candidates| && candidates[i] == r &&
        forall j :: 0 <= j < i ==> !Usable(candidates[j])
  {
    if |candidates| == 0 then None
    else if Usable(candidates[0]) then candidates[0]
    else
      var r := PickDimension(candidates[1..]);
      assert forall j :: 1 <= j < |candidates| ==> candidates[j] == candidates[1..][j - 1];
      r
  }

  function VisualHeight(env: Env): Option<int>
  {
    if env.visualViewport.Some? then env.visualViewport.value.height else None
  }

  function VisualWidth(env: Env): Option<int>
  {
    if env.visualViewport.Some? then env.visualViewport.value.width else None
  }

  function HeightCandidates(env: Env): seq<Option<int>>
  {
    [VisualHeight(env), env.innerHeight, env.clientHeight]
  }

  function WidthCandidates(env: Env): seq<Option<int>>
  {
    [VisualWidth(env), env.innerWidth, env.clientWidth]
  }

  function ScreenCandidates(env: Env): seq<Option<int>>
  {
    [env.screenHeight, env.availHeight]
  }

  function Abs(x: int): nat
  {
    if x < 0 then -x else x
  }

  /** Orientation from the screen orientation type, else the legacy angle,
      else the portrait media query, else unknown. */
  function GetOrientation(env: Env): (r: Option<Orientation>)
    ensures r.None? <==>
      env.orientationType.None? && env.windowOrientation.None? && env.portraitMatches.None?
    ensures env.orientationType.Some? ==>
      (r == Some(Landscape) <==> "landscape" <= env.orientationType.value)
    ensures env.orientationType.None? && env.windowOrientation.Some? ==>
      (r == Some(Landscape) <==> (env.windowOrientation.value == 90 || env.windowOrientation.value == -90))
    ensures env.orientationType.None? && env.windowOrientation.None? && env.portraitMatches.Some? ==>
      (r == Some(Portrait) <==> env.portraitMatches.value)
  {
    if env.orientationType.Some? then
      if "landscape" <= env.orientationType.value then Some(Landscape) else Some(Portrait)
    else if env.windowOrientation.Some? then
      if Abs(env.windowOrientation.value) == 90 then Some(Landscape) else Some(Portrait)
    else if env.portraitMatches.Some? then
      if env.portraitMatches.value then Some(Portrait) else Some(Landscape)
    else None
  }

  /** One measurement: the chosen height, width, orientation and screen height,
      and whether the visual viewport reports exactly the chosen height. */
  datatype Sample = Sample(
    height: int,
    width: Option<int>,
    orientation: Option<Orientation>,
    screenHeight: Option<int>,
    fromVisualViewport: bool)

  /** None when no height source is usable: the caller then only asks for a retry frame. */
  function Measure(env: Env): (r: Option<Sample>)
    ensures r.None? <==>
      !Usable(VisualHeight(env)) && !Usable(env.innerHeight) && !Usable(env.clientHeight)
    ensures Usable(VisualHeight(env)) ==> r.Some? && Some(r.value.height) == VisualHeight(env)
    ensures !Usable(VisualHeight(env)) && Usable(env.innerHeight) ==>
      r.Some? && Some(r.value.height) == env.innerHeight
    ensures !Usable(VisualHeight(env)) && !Usable(env.innerHeight) && Usable(env.clientHeight) ==>
      r.Some? && Some(r.value.height) == env.clientHeight
    ensures r.Some? ==>
      && r.value.width == PickDimension(WidthCandidates(env))
      && r.value.orientation == GetOrientation(env)
      && r.value.screenHeight == PickDimension(ScreenCandidates(env))
    ensures r.Some? ==> r.value.height > 0
    ensures r.Some? ==> r.value.width.None? || r.value.width.value > 0
    ensures r.Some? ==> r.value.screenHeight.None? || r.value.screenHeight.value > 0
    ensures r.Some? ==> (r.value.fromVisualViewport <==> Usable(VisualHeight(env)))
  {
    var candidates := HeightCandidates(env);
    assert candidates[0] == VisualHeight(env) && candidates[1] == env.innerHeight
      && candidates[2] == env.clientHeight;
    var height := PickDimension(candidates);
    if height.None? then None
    else
      Some(Sample(
        height.value,
        PickDimension(WidthCandidates(env)),
        GetOrientation(env),
        PickDimension(ScreenCandidates(env)),
        VisualHeight(env) == height))
  }
}
