/** The interactive viewer's bookkeeping: the trajectory entities (`Lorenz3d`) with their
    trails, and the application state (`AppState`) that owns the list of entities and the
    help flag. The integrator, the visual mapping, the window and the random generator are
    outside the model: they come in as parameters. */
module App {
  import opened Wrappers
  import opened Actions
  import opened Trail
  import Mailbox

  /** The integrator's state (coefficients and position); its update is not modelled. */
  datatype Lorenz = Lorenz(sigma: real, beta: real, rho: real, x: real, y: real, z: real)

  /** `Lorenz::default()`: the classic coefficients, at the origin. */
  const DefaultLorenz := Lorenz(10.0, 8.0 / 3.0, 28.0, 0.0, 0.0, 0.0)

  /** An RGB colour. */
  datatype Color = Color(r: real, g: real, b: real)

  const White := Color(1.0, 1.0, 1.0)
  const Red := Color(1.0, 0.0, 0.0)
  const Magenta := Color(1.0, 0.0, 1.0)

  /** A visual-space position, as stored in a trail. */
  datatype Point = Point(x: real, y: real, z: real)

  /** How an entity is set up: the starting position given to `with_pos` and the colour given to
      `with_color`. */
  datatype Spawn = Spawn(x: real, y: real, z: real, color: Color)

  /** The integrator state of a freshly set-up entity. */
  function SpawnState(s: Spawn): (lz: Lorenz)
    ensures lz.x == s.x && lz.y == s.y && lz.z == s.z
    ensures lz.sigma == DefaultLorenz.sigma && lz.beta == DefaultLorenz.beta && lz.rho == DefaultLorenz.rho
  {
    DefaultLorenz.(x := s.x, y := s.y, z := s.z)
  }

  /** The entities each preset scene sets up, in order. */
  function ConfigSpawns(config: LorenzConfig): (r: seq<Spawn>)
    ensures |r| == 1 <==> config == One
    ensures 1 <= |r| <= 2
    ensures forall i :: 0 <= i < |r| ==> r[i].y == 0.1 && r[i].z == 0.1
    ensures config == One ==> r[0].color == White
  {
    match config
    case One => [Spawn(0.1, 0.1, 0.1, White)]
    case Two => [Spawn(0.1, 0.1, 0.1, Red), Spawn(0.1000001, 0.1, 0.1, Magenta)]
  }

  /** Scene One has one entity; scene Two has two whose starting points differ only by 1e-7
      along x, which is what makes their divergence visible. */
  lemma ConfigSpawnsShape()
    ensures |ConfigSpawns(One)| == 1 && |ConfigSpawns(Two)| == 2
    ensures ConfigSpawns(Two)[1].x - ConfigSpawns(Two)[0].x == 0.0000001
    ensures ConfigSpawns(Two)[1].y == ConfigSpawns(Two)[0].y && ConfigSpawns(Two)[1].z == ConfigSpawns(Two)[0].z
    ensures ConfigSpawns(Two)[0].color != ConfigSpawns(Two)[1].color
  {
  }

  /** A sample of rand's standard distribution for floats: a value in [0, 1). */
  type Unit = u: real | 0.0 <= u < 1.0

  /** The six samples `add_random_l3d` draws: three for the position, three for the colour. */
  datatype RandomDraw = RandomDraw(px: Unit, py: Unit, pz: Unit, r: Unit, g: Unit, b: Unit)

  const RandomScale: real := 20.0
  const RandomOffset: real := -10.0

  /** The entity `add_random_l3d` sets up from its samples: a start inside the cube
      [-10, 10)^3 and a colour with every channel in [0, 1). */
  function RandomSpawn(d: RandomDraw): (s: Spawn)
    ensures -10.0 <= s.x < 10.0 && -10.0 <= s.y < 10.0 && -10.0 <= s.z < 10.0
    ensures 0.0 <= s.color.r < 1.0 && 0.0 <= s.color.g < 1.0 && 0.0 <= s.color.b < 1.0
  {
    Spawn(RandomOffset + d.px * RandomScale,
          RandomOffset + d.py * RandomScale,
          RandomOffset + d.pz * RandomScale,
          Color(d.r, d.g, d.b))
  }

  /** A trajectory entity: its integrator state, its colour and its trail (newest first). The
      head cube and its rotation live in the scene graph and are not modelled. */
  class Lorenz3d {
    var lz: Lorenz
    var color: Color
    var trail: seq<Point>

    ghost predicate Valid()
      reads this
    {
      |trail| <= PointTrailLen
    }

    /** The entity is set up as `s` says and has not moved yet. */
    ghost predicate Spawned(s: Spawn)
      reads this
    {
      lz == SpawnState(s) && color == s.color && trail == []
    }

    /** The entity is one tick past the state (`lz0`, `color0`, `trail0`). */
    ghost predicate Ticked(lz0: Lorenz, color0: Color, trail0: seq<Point>,
                           update: Lorenz -> Lorenz, toVisual: Lorenz -> Point)
      reads this
    {
      lz == update(lz0) && color == color0 && trail == Pushed(trail0, toVisual(lz), PointTrailLen)
    }

    /** `Lorenz3d::new`: default integrator state, white, empty trail. */
    constructor New()
      ensures Valid()
      ensures lz == DefaultLorenz && color == White && trail == []
    {
      lz := DefaultLorenz;
      color := White;
      trail := [];
    }

    /** `with_pos`: moves the integrator to a new position, keeping its coefficients. */
    method WithPos(x: real, y: real, z: real)
      modifies this
      ensures lz == old(lz).(x := x, y := y, z := z)
      ensures color == old(color) && trail == old(trail)
    {
      lz := lz.(x := x, y := y, z := z);
    }

    /** `with_color`: sets the colour. */
    method WithColor(c: Color)
      modifies this
      ensures color == c
      ensures lz == old(lz) && trail == old(trail)
    {
      color := c;
    }

    /** `Lorenz3d::step`: advances the integrator, pushes the new visual position onto the
        front of the trail, truncates the trail to `PointTrailLen` and returns the lines drawn
        along it. */
    method Step(update: Lorenz -> Lorenz, toVisual: Lorenz -> Point) returns (lines: seq<Segment<Point>>)
      requires Valid()
      modifies this
      ensures Valid()
      ensures Ticked(old(lz), old(color), old(trail), update, toVisual)
      ensures Drawing(trail, lines)
    {
      lz := update(lz);
      var p := toVisual(lz);
      trail := Truncate([p] + trail, PointTrailLen);
      lines := DrawTrail(trail);
    }
  }

  /** The application state: the live entities, in the order they were added, and whether the
      help text is shown. */
  class AppState {
    var l3ds: seq<Lorenz3d>
    var showHelp: bool

    /** Entities are distinct objects, each with a bounded trail. */
    ghost predicate Valid()
      reads this, l3ds
    {
      (forall i, j :: 0 <= i < j < |l3ds| ==> l3ds[i] != l3ds[j]) &&
      (forall i :: 0 <= i < |l3ds| ==> l3ds[i].Valid())
    }

    /** `AppState::new`: no entities, help shown. */
    constructor ()
      ensures Valid()
      ensures l3ds == [] && showHelp
    {
      l3ds := [];
      showHelp := true;
    }

    /** `remove_l3d`: pops the last entity, if any; the others stay, in order. */
    method RemoveL3d()
      requires Valid()
      modifies this
      ensures Valid() && showHelp == old(showHelp)
      ensures |old(l3ds)| == 0 ==> l3ds == old(l3ds)
      ensures |old(l3ds)| > 0 ==> l3ds == old(l3ds)[..|old(l3ds)| - 1]
    {
      if |l3ds| > 0 {
        l3ds := l3ds[..|l3ds| - 1];
      }
    }

    /** `clear`: removes entities from the back until none is left. */
    method Clear()
      requires Valid()
      modifies this
      ensures Valid() && showHelp == old(showHelp)
      ensures l3ds == []
    {
      while |l3ds| > 0
        invariant Valid() && showHelp == old(showHelp)
        invariant l3ds <= old(l3ds)
        decreases |l3ds|
      {
        RemoveL3d();
      }
    }

    /** `init_config`: clears the list, then sets up the entities of the chosen scene. */
    method InitConfig(config: LorenzConfig)
      requires Valid()
      modifies this
      ensures Valid() && showHelp == old(showHelp)
      ensures |l3ds| == |ConfigSpawns(config)|
      ensures forall i :: 0 <= i < |l3ds| ==> fresh(l3ds[i]) && l3ds[i].Spawned(ConfigSpawns(config)[i])
    {
      Clear();
      if config == One {
        var e := new Lorenz3d.New();
        e.WithPos(0.1, 0.1, 0.1);
        e.WithColor(Color(1.0, 1.0, 1.0));
        l3ds := l3ds + [e];
      } else {
        var e1 := new Lorenz3d.New();
        e1.WithPos(0.1, 0.1, 0.1);
        e1.WithColor(Color(1.0, 0.0, 0.0));
        l3ds := l3ds + [e1];
        var e2 := new Lorenz3d.New();
        e2.WithPos(0.1000001, 0.1, 0.1);
        e2.WithColor(Color(1.0, 0.0, 1.0));
        l3ds := l3ds + [e2];
      }
    }

    /** `add_random_l3d`: appends one entity set up from the random samples `d`. */
    method AddRandomL3d(d: RandomDraw)
      requires Valid()
      modifies this
      ensures Valid() && showHelp == old(showHelp)
      ensures |l3ds| == |old(l3ds)| + 1 && l3ds[..|old(l3ds)|] == old(l3ds)
      ensures fresh(l3ds[|old(l3ds)|]) && l3ds[|old(l3ds)|].Spawned(RandomSpawn(d))
    {
      var e := new Lorenz3d.New();
      e.WithPos(RandomOffset + d.px * RandomScale,
                RandomOffset + d.py * RandomScale,
                RandomOffset + d.pz * RandomScale);
      e.WithColor(Color(d.r, d.g, d.b));
      l3ds := l3ds + [e];
    }

    /** `execute_action`: dispatches one decoded key press. `d` is what the random generator
        would yield if the action adds an entity. */
    method ExecuteAction(action: AppAction, d: RandomDraw)
      requires Valid()
      modifies this
      ensures Valid()
      ensures action.ToggleHelp? ==> showHelp == !old(showHelp) && l3ds == old(l3ds)
      ensures !action.ToggleHelp? ==> showHelp == old(showHelp)
      ensures action.InitConfig? ==>
        |l3ds| == |ConfigSpawns(action.config)| &&
        forall i :: 0 <= i < |l3ds| ==> fresh(l3ds[i]) && l3ds[i].Spawned(ConfigSpawns(action.config)[i])
      ensures action.AddObj? ==>
        |l3ds| == |old(l3ds)| + 1 && l3ds[..|old(l3ds)|] == old(l3ds) &&
        fresh(l3ds[|old(l3ds)|]) && l3ds[|old(l3ds)|].Spawned(RandomSpawn(d))
      ensures action.RemoveObj? ==>
        l3ds == if |old(l3ds)| == 0 then old(l3ds) else old(l3ds)[..|old(l3ds)| - 1]
    {
      match action {
        case InitConfig(cfg) => InitConfig(cfg);
        case ToggleHelp => showHelp := !showHelp;
        case AddObj => AddRandomL3d(d);
        case RemoveObj => RemoveL3d();
      }
    }

    /** Steps every entity once, front to back, and returns the lines each one drew. */
    method StepAll(update: Lorenz -> Lorenz, toVisual: Lorenz -> Point)
        returns (lines: seq<seq<Segment<Point>>>)
      requires Valid()
      modifies l3ds
      ensures Valid()
      ensures |lines| == |l3ds|
      ensures forall i :: 0 <= i < |l3ds| ==>
        l3ds[i].Ticked(old(l3ds[i].lz), old(l3ds[i].color), old(l3ds[i].trail), update, toVisual) &&
        Drawing(l3ds[i].trail, lines[i])
    {
      lines := [];
      for i := 0 to |l3ds|
        invariant Valid()
        invariant |lines| == i
        invariant forall j :: 0 <= j < i ==>
          l3ds[j].Ticked(old(l3ds[j].lz), old(l3ds[j].color), old(l3ds[j].trail), update, toVisual) &&
          Drawing(l3ds[j].trail, lines[j])
        invariant forall j :: i <= j < |l3ds| ==>
          l3ds[j].lz == old(l3ds[j].lz) && l3ds[j].color == old(l3ds[j].color) && l3ds[j].trail == old(l3ds[j].trail)
      {
        var drawn := l3ds[i].Step(update, toVisual);
        lines := lines + [drawn];
      }
    }

    /** One frame of the browser build (`State::step`): drains the mailbox and, if a scene was
        requested, sets it up; then steps every entity; the help text is drawn when `showHelp`
        is set. Key presses are dispatched in between, one `ExecuteAction` each; that event
        loop is not part of this method. */
    method Frame(slot: Mailbox.ConfigSlot, update: Lorenz -> Lorenz, toVisual: Lorenz -> Point)
        returns (lines: seq<seq<Segment<Point>>>, helpDrawn: bool)
      requires Valid()
      modifies this, slot, l3ds
      ensures Valid()
      ensures slot.pending == None
      ensures showHelp == old(showHelp) && helpDrawn == showHelp
      ensures |lines| == |l3ds|
      ensures forall i :: 0 <= i < |l3ds| ==> Drawing(l3ds[i].trail, lines[i])
      ensures old(slot.pending) == None ==>
        l3ds == old(l3ds) &&
        forall i :: 0 <= i < |l3ds| ==>
          l3ds[i].Ticked(old(l3ds[i].lz), old(l3ds[i].color), old(l3ds[i].trail), update, toVisual)
      ensures old(slot.pending).Some? ==>
        |l3ds| == |ConfigSpawns(old(slot.pending).value)| &&
        forall i :: 0 <= i < |l3ds| ==>
          fresh(l3ds[i]) &&
          l3ds[i].Ticked(SpawnState(ConfigSpawns(old(slot.pending).value)[i]),
                         ConfigSpawns(old(slot.pending).value)[i].color, [], update, toVisual)
    {
      var requested := slot.CheckConfigToInit();
      if requested.Some? {
        InitConfig(requested.value);
      }
      lines := StepAll(update, toVisual);
      helpDrawn := showHelp;
    }
  }

  /** Toggling help twice restores the state. */
  method ToggleHelpTwice(app: AppState, d: RandomDraw)
    requires app.Valid()
    modifies app
    ensures app.Valid()
    ensures app.showHelp == old(app.showHelp) && app.l3ds == old(app.l3ds)
  {
    app.ExecuteAction(ToggleHelp, d);
    app.ExecuteAction(ToggleHelp, d);
  }

  /** What the program does at start-up, without the window: a fresh state showing help, then
      scene One. */
  method Start() returns (app: AppState)
    ensures fresh(app) && app.Valid() && app.showHelp
    ensures |app.l3ds| == 1 && fresh(app.l3ds[0]) && app.l3ds[0].Spawned(Spawn(0.1, 0.1, 0.1, White))
  {
    app := new AppState();
    app.InitConfig(One);
  }
}
