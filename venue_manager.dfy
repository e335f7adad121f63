/** The venue: a box of configurable width (X), depth (Y) and height (Z) with the
    user standing at its centre, its key points, and its saved form. */
module Venue {
  import opened Common

  const MinDimension: real := 2.0
  const MaxDimension: real := 100.0
  const MinGridSize: real := 0.1
  const MaxGridSize: real := 5.0
  const MinUserHeight: real := 0.5
  const MaxUserHeight: real := 1.5

  /** A position in metres, as an (x, y, z) tuple. */
  type Point = (real, real, real)

  datatype Dimension = Width | Depth | Height

  /** The value errors the venue raises, naming the offending setting. */
  datatype VenueError =
    | DimensionOutOfRange(name: Dimension, value: real)
    | GridSizeOutOfRange(value: real)
    | UserHeightOutOfRange(value: real)

  /** `_validate_dimension`: a dimension between 2 m and 100 m inclusive. */
  function ValidateDimension(value: real, name: Dimension): (r: Result<real, VenueError>)
    ensures r.Success? <==> MinDimension <= value <= MaxDimension
    ensures r.Success? ==> r.value == value
    ensures r.Failure? ==> r.error == DimensionOutOfRange(name, value)
  {
    if !(MinDimension <= value <= MaxDimension) then Failure(DimensionOutOfRange(name, value)) else Success(value)
  }

  /** `_validate_grid_size`: a grid cell between 0.1 m and 5 m inclusive. */
  function ValidateGridSize(value: real): (r: Result<real, VenueError>)
    ensures r.Success? <==> MinGridSize <= value <= MaxGridSize
    ensures r.Success? ==> r.value == value
    ensures r.Failure? ==> r.error == GridSizeOutOfRange(value)
  {
    if !(MinGridSize <= value <= MaxGridSize) then Failure(GridSizeOutOfRange(value)) else Success(value)
  }

  /** `_validate_user_height`: a user height between 0.5 m and 1.5 m inclusive. */
  function ValidateUserHeight(value: real): (r: Result<real, VenueError>)
    ensures r.Success? <==> MinUserHeight <= value <= MaxUserHeight
    ensures r.Success? ==> r.value == value
    ensures r.Failure? ==> r.error == UserHeightOutOfRange(value)
  {
    if !(MinUserHeight <= value <= MaxUserHeight) then Failure(UserHeightOutOfRange(value)) else Success(value)
  }

  /** The five settings of a venue. */
  datatype Settings = Settings(width: real, depth: real, height: real, gridSize: real, userHeight: real)

  /** The settings of `VenueManager()`: 10 x 10 x 4 m, 1 m grid, user at 1 m. */
  const DefaultSettings: Settings := Settings(10.0, 10.0, 4.0, 1.0, 1.0)

  /** Setting number k (width, depth, height, grid size, user height) is in range. */
  predicate SettingOk(s: Settings, k: nat) {
    if k == 0 then ValidateDimension(s.width, Width).Success?
    else if k == 1 then ValidateDimension(s.depth, Depth).Success?
    else if k == 2 then ValidateDimension(s.height, Height).Success?
    else if k == 3 then ValidateGridSize(s.gridSize).Success?
    else if k == 4 then ValidateUserHeight(s.userHeight).Success?
    else true
  }

  predicate SettingsValid(s: Settings) {
    SettingOk(s, 0) && SettingOk(s, 1) && SettingOk(s, 2) && SettingOk(s, 3) && SettingOk(s, 4)
  }

  /** The position of the setting an error is about, in checking order. */
  function ErrorIndex(e: VenueError): nat {
    match e
    case DimensionOutOfRange(name, _) => (match name case Width => 0 case Depth => 1 case Height => 2)
    case GridSizeOutOfRange(_) => 3
    case UserHeightOutOfRange(_) => 4
  }

  /** The constructor's checks, in order: the first setting out of range is
      reported and the later ones are not looked at. */
  function ValidateSettings(s: Settings): (r: Result<Settings, VenueError>)
    ensures r.Success? <==> SettingsValid(s)
    ensures r.Success? ==> r.value == s
    ensures r.Failure? ==> !SettingOk(s, ErrorIndex(r.error)) && forall k :: 0 <= k < ErrorIndex(r.error) ==> SettingOk(s, k)
  {
    var w := ValidateDimension(s.width, Width);
    if w.Failure? then Failure(w.error) else
    var d := ValidateDimension(s.depth, Depth);
    if d.Failure? then Failure(d.error) else
    var h := ValidateDimension(s.height, Height);
    if h.Failure? then Failure(h.error) else
    var g := ValidateGridSize(s.gridSize);
    if g.Failure? then Failure(g.error) else
    var u := ValidateUserHeight(s.userHeight);
    if u.Failure? then Failure(u.error) else
    Success(Settings(w.value, d.value, h.value, g.value, u.value))
  }

  /** The box the venue occupies. */
  datatype Bounds = Bounds(min: Point, max: Point)

  predicate InsideStrictly(p: Point, b: Bounds) {
    b.min.0 < p.0 < b.max.0 && b.min.1 < p.1 < b.max.1 && b.min.2 < p.2 < b.max.2
  }

  /** `c` is one of the eight vertices of `b`. */
  predicate IsVertex(c: Point, b: Bounds) {
    (c.0 == b.min.0 || c.0 == b.max.0) && (c.1 == b.min.1 || c.1 == b.max.1) && (c.2 == b.min.2 || c.2 == b.max.2)
  }

  /** The four corners at height z, x outermost as the source iterates. */
  function Layer(width: real, depth: real, z: real): seq<Point> {
    [(0.0, 0.0, z), (0.0, depth, z), (width, 0.0, z), (width, depth, z)]
  }

  /** Saved form: the `dimensions` sub-dictionary. Each key may be absent. */
  datatype DimensionsDict = DimensionsDict(width: Option<real>, depth: Option<real>, height: Option<real>)

  /** Saved form of a venue; each key may be absent. */
  datatype VenueDict = VenueDict(dimensions: Option<DimensionsDict>, gridSize: Option<real>, userHeight: Option<real>)

  function GetOr(o: Option<real>, default: real): real {
    if o.Some? then o.value else default
  }

  /** The settings `from_dict` passes to the constructor: a missing key takes its
      default (10, 10, 4, 1, 1), a missing `dimensions` entry counts as empty. */
  function SettingsFromDict(d: VenueDict): (r: Settings)
    ensures d.dimensions.None? ==> r.width == 10.0 && r.depth == 10.0 && r.height == 4.0
    ensures d.dimensions.Some? ==>
      && r.width == GetOr(d.dimensions.value.width, 10.0)
      && r.depth == GetOr(d.dimensions.value.depth, 10.0)
      && r.height == GetOr(d.dimensions.value.height, 4.0)
    ensures r.gridSize == GetOr(d.gridSize, 1.0) && r.userHeight == GetOr(d.userHeight, 1.0)
  {
    var dims := if d.dimensions.Some? then d.dimensions.value else DimensionsDict(None, None, None);
    Settings(GetOr(dims.width, 10.0), GetOr(dims.depth, 10.0), GetOr(dims.height, 4.0),
             GetOr(d.gridSize, 1.0), GetOr(d.userHeight, 1.0))
  }

  /** An empty dictionary loads the default venue. */
  lemma EmptyDictIsDefault()
    ensures SettingsFromDict(VenueDict(None, None, None)) == DefaultSettings
    ensures SettingsValid(DefaultSettings)
  {
  }

  class VenueManager {
    var width: real
    var depth: real
    var height: real
    var gridSize: real
    var userHeight: real

    function Config(): Settings
      reads this
    {
      Settings(width, depth, height, gridSize, userHeight)
    }

    /** Every setting lies within its documented range. */
    predicate Valid()
      reads this
    {
      SettingsValid(Config())
    }

    /** `__init__` for settings that pass validation. */
    constructor (s: Settings)
      requires SettingsValid(s)
      ensures Config() == s && Valid()
    {
      width, depth, height, gridSize, userHeight := s.width, s.depth, s.height, s.gridSize, s.userHeight;
    }

    /** `__init__`: validate every setting in order; the first one out of range
        raises and no venue is built. */
    static method Create(s: Settings) returns (r: Result<VenueManager, VenueError>)
      ensures r.Success? <==> SettingsValid(s)
      ensures r.Success? ==> fresh(r.value) && r.value.Config() == s && r.value.Valid()
      ensures r.Failure? ==> r.error == ValidateSettings(s).error
    {
      var checked := ValidateSettings(s);
      if checked.Failure? {
        return Failure(checked.error);
      }
      var v := new VenueManager(checked.value);
      return Success(v);
    }

    /** `set_dimensions`: width, depth and height are validated and assigned one
        after the other, so a value out of range raises after the earlier ones
        were already stored. Grid size and user height are untouched. */
    method SetDimensions(w: real, d: real, h: real) returns (o: Outcome<VenueError>)
      modifies this
      ensures o.Pass? <==> ValidateDimension(w, Width).Success? && ValidateDimension(d, Depth).Success? && ValidateDimension(h, Height).Success?
      ensures o.Fail? ==> (o.error ==
        if ValidateDimension(w, Width).Failure? then ValidateDimension(w, Width).error
        else if ValidateDimension(d, Depth).Failure? then ValidateDimension(d, Depth).error
        else ValidateDimension(h, Height).error)
      ensures width == (if ValidateDimension(w, Width).Success? then w else old(width))
      ensures depth == (if ValidateDimension(w, Width).Success? && ValidateDimension(d, Depth).Success? then d else old(depth))
      ensures height == (if o.Pass? then h else old(height))
      ensures gridSize == old(gridSize) && userHeight == old(userHeight)
      ensures old(Valid()) ==> Valid()
    {
      var rw := ValidateDimension(w, Width);
      if rw.Failure? { return Fail(rw.error); }
      width := rw.value;
      var rd := ValidateDimension(d, Depth);
      if rd.Failure? { return Fail(rd.error); }
      depth := rd.value;
      var rh := ValidateDimension(h, Height);
      if rh.Failure? { return Fail(rh.error); }
      height := rh.value;
      return Pass;
    }

    /** `set_grid_size`: stored when in range, otherwise nothing changes. */
    method SetGridSize(g: real) returns (o: Outcome<VenueError>)
      modifies this
      ensures o.Pass? <==> ValidateGridSize(g).Success?
      ensures o.Fail? ==> o.error == GridSizeOutOfRange(g)
      ensures Config() == if o.Pass? then old(Config()).(gridSize := g) else old(Config())
      ensures old(Valid()) ==> Valid()
    {
      var r := ValidateGridSize(g);
      if r.Failure? { return Fail(r.error); }
      gridSize := r.value;
      return Pass;
    }

    /** `set_user_height`: stored when in range, otherwise nothing changes. */
    method SetUserHeight(u: real) returns (o: Outcome<VenueError>)
      modifies this
      ensures o.Pass? <==> ValidateUserHeight(u).Success?
      ensures o.Fail? ==> o.error == UserHeightOutOfRange(u)
      ensures Config() == if o.Pass? then old(Config()).(userHeight := u) else old(Config())
      ensures old(Valid()) ==> Valid()
    {
      var r := ValidateUserHeight(u);
      if r.Failure? { return Fail(r.error); }
      userHeight := r.value;
      return Pass;
    }

    /** `get_bounds`: the box from the origin to (width, depth, height); in a
        valid venue every side is between 2 m and 100 m long. */
    function GetBounds(): (r: Bounds)
      reads this
      ensures r.min == (0.0, 0.0, 0.0)
      ensures r.max == (Config().width, Config().depth, Config().height)
      ensures Valid() ==>
        && MinDimension <= r.max.0 - r.min.0 <= MaxDimension
        && MinDimension <= r.max.1 - r.min.1 <= MaxDimension
        && MinDimension <= r.max.2 - r.min.2 <= MaxDimension
    {
      Bounds((0.0, 0.0, 0.0), (width, depth, height))
    }

    /** `get_user_position`: the user stands at the horizontal centre of the venue,
        equally far from opposite walls, and in a valid venue strictly inside it. */
    function GetUserPosition(): (r: Point)
      reads this
      ensures r.0 - GetBounds().min.0 == GetBounds().max.0 - r.0
      ensures r.1 - GetBounds().min.1 == GetBounds().max.1 - r.1
      ensures 2.0 * r.0 == Config().width && 2.0 * r.1 == Config().depth && r.2 == Config().userHeight
      ensures Valid() ==> InsideStrictly(r, GetBounds())
    {
      (width / 2.0, depth / 2.0, userHeight)
    }

    /** `get_back_wall_center`: the centre of the wall at maximum Y, the
        calibration target. */
    function GetBackWallCenter(): (r: Point)
      reads this
      ensures r.1 == GetBounds().max.1
      ensures r.0 - GetBounds().min.0 == GetBounds().max.0 - r.0
      ensures r.2 - GetBounds().min.2 == GetBounds().max.2 - r.2
      ensures 2.0 * r.0 == Config().width && r.1 == Config().depth && 2.0 * r.2 == Config().height
    {
      (width / 2.0, depth, height / 2.0)
    }

    /** One layer of `get_corners`: x in [0, width], then y in [0, depth]. */
    method AddLayer(corners: seq<Point>, z: real) returns (r: seq<Point>)
      ensures r == corners + Layer(width, depth, z)
    {
      r := corners;
      var xs := [0.0, width];
      var ys := [0.0, depth];
      for i := 0 to 2
        invariant r == corners + Layer(width, depth, z)[..2 * i]
      {
        for j := 0 to 2
          invariant r == corners + Layer(width, depth, z)[..2 * i + j]
        {
          r := r + [(xs[i], ys[j], z)];
        }
      }
    }

    /** `get_corners`: the eight vertices of the venue, the four at floor level
        first; each is a vertex of the bounds and every vertex is listed. */
    method GetCorners() returns (corners: seq<Point>)
      ensures |corners| == 8
      ensures forall k :: 0 <= k < 4 ==> corners[k].2 == 0.0
      ensures forall k :: 4 <= k < 8 ==> corners[k].2 == height
      ensures forall k :: 0 <= k < 8 ==> IsVertex(corners[k], GetBounds())
      ensures forall c :: IsVertex(c, GetBounds()) ==> c in corners
    {
      corners := AddLayer([], 0.0);
      corners := AddLayer(corners, height);
      assert corners == Layer(width, depth, 0.0) + Layer(width, depth, height);
      forall c | IsVertex(c, GetBounds()) ensures c in corners {
        var k := (if c.2 == 0.0 then 0 else 4) + (if c.0 == 0.0 then 0 else 2) + (if c.1 == 0.0 then 0 else 1);
        assert corners[k] == c;
      }
    }

    /** `to_dict`: the saved form holds every setting, so loading it back gives
        the same venue. */
    function ToDict(): (r: VenueDict)
      reads this
      ensures r.dimensions.Some?
      ensures r.dimensions.value.width == Some(width) && r.dimensions.value.depth == Some(depth)
              && r.dimensions.value.height == Some(height)
      ensures r.gridSize == Some(gridSize) && r.userHeight == Some(userHeight)
      ensures SettingsFromDict(r) == Config()
    {
      VenueDict(Some(DimensionsDict(Some(width), Some(depth), Some(height))), Some(gridSize), Some(userHeight))
    }

    /** `from_dict`: build a venue from saved settings, defaults filling in
        missing keys, with the constructor's validation. */
    static method FromDict(d: VenueDict) returns (r: Result<VenueManager, VenueError>)
      ensures r.Success? <==> SettingsValid(SettingsFromDict(d))
      ensures r.Success? ==> fresh(r.value) && r.value.Config() == SettingsFromDict(d) && r.value.Valid()
      ensures r.Failure? ==> r.error == ValidateSettings(SettingsFromDict(d)).error
    {
      r := Create(SettingsFromDict(d));
    }
  }

  /** Saving a venue and loading the result rebuilds an equal venue. */
  method SaveLoadRoundTrip(v: VenueManager) returns (w: VenueManager)
    requires v.Valid()
    ensures fresh(w) && w.Config() == v.Config()
  {
    var r := VenueManager.FromDict(v.ToDict());
    w := r.value;
  }

  /** In the default venue the user stands at (5, 5, 1), the back wall centre is
      (5, 10, 2) and the box reaches (10, 10, 4). */
  lemma DefaultKeyPoints(v: VenueManager)
    requires v.Config() == DefaultSettings
    ensures v.GetUserPosition() == (5.0, 5.0, 1.0)
    ensures v.GetBackWallCenter() == (5.0, 10.0, 2.0)
    ensures v.GetBounds() == Bounds((0.0, 0.0, 0.0), (10.0, 10.0, 4.0))
  {
  }
}
