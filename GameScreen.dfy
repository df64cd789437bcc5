/**
 * The gameplay-flag state machine of the `GameScreen` of the `crate` package:
 * keyboard events set the player's movement intent and the screen's debug
 * toggle, and contact events reported by the physics world set the player's
 * grounded flag.
 */
module Crate {
  import opened Wrappers

  /** The keys the screen reacts to; every other key code is `Other`. */
  datatype Key = Escape | Grave | A | D | Space | Other

  /** The keys whose release the screen handles: each one drives a held flag. */
  predicate IsMovementKey(k: Key) {
    k == A || k == D || k == Space
  }

  /** A fixture's user data, compared by value. */
  type Tag = string

  /** The tag the player's foot sensor carries. */
  const GroundSensorTag: Tag := "ground sensor"

  /** A contact between two fixtures, given by the user data of each fixture. */
  datatype Contact = Contact(fixtureA: Option<Tag>, fixtureB: Option<Tag>)

  /** True when either fixture of the contact is the ground sensor. */
  predicate TouchesGroundSensor(c: Contact) {
    c.fixtureA == Some(GroundSensorTag) || c.fixtureB == Some(GroundSensorTag)
  }

  /** One input or physics callback delivered to the screen. */
  datatype Event =
    | Press(key: Key)
    | Release(key: Key)
    | Begin(contact: Contact)
    | End(contact: Contact)

  /** The screen's debug and exit state together with the player's flags. */
  datatype Flags = Flags(
    debug: bool,
    exitRequested: bool,
    movingLeft: bool,
    movingRight: bool,
    jump: bool,
    grounded: bool)

  /** The player's own flags, as the entity list hands the player over. */
  datatype PlayerFlags = PlayerFlags(movingLeft: bool, movingRight: bool, jump: bool, grounded: bool)

  /** The entities the body builder produces; only the player matters here. */
  datatype Entity = PlayerEntity(flags: PlayerFlags) | OtherEntity

  /** Why the screen cannot take its player from the entity list. */
  datatype ScreenError =
    | IndexOutOfBounds  // the entity list is empty
    | ClassCast         // the first entity is not a player

  /**
   * The player reference the constructor takes from the first entity, with the
   * two failures of the unchecked list access and downcast.
   */
  function PlayerOf(entities: seq<Entity>): (r: Result<PlayerFlags, ScreenError>)
    ensures r == Err(IndexOutOfBounds) <==> |entities| == 0
    ensures r == Err(ClassCast) <==> |entities| > 0 && !entities[0].PlayerEntity?
    ensures r.Ok? ==> |entities| > 0 && entities[0] == PlayerEntity(r.value)
  {
    if |entities| == 0 then Err(IndexOutOfBounds)
    else match entities[0]
      case PlayerEntity(p) => Ok(p)
      case OtherEntity => Err(ClassCast)
  }

  /** The state right after construction: debug rendering on, no exit requested. */
  function InitialFlags(p: PlayerFlags): (r: Flags)
    ensures r.debug && !r.exitRequested
    ensures PlayerFlags(r.movingLeft, r.movingRight, r.jump, r.grounded) == p
  {
    Flags(true, false, p.movingLeft, p.movingRight, p.jump, p.grounded)
  }

  /**
   * A key press: Escape requests exit, Grave flips debug, A and D set their
   * direction without clearing the other one, Space sets jump.
   */
  function KeyDownStep(s: Flags, k: Key): (r: Flags)
    ensures r.exitRequested <==> s.exitRequested || k == Escape
    ensures r.debug <==> (s.debug <==> k != Grave)
    ensures r.movingLeft <==> s.movingLeft || k == A
    ensures r.movingRight <==> s.movingRight || k == D
    ensures r.jump <==> s.jump || k == Space
    ensures r.grounded == s.grounded
  {
    var afterExit := if k == Escape then s.(exitRequested := true) else s;
    var afterDebug :=
      if k == Grave then afterExit.(debug := if afterExit.debug then false else true)
      else afterExit;
    var afterMove :=
      if k == A then afterDebug.(movingLeft := true)
      else if k == D then afterDebug.(movingRight := true)
      else afterDebug;
    if k == Space then afterMove.(jump := true) else afterMove
  }

  /**
   * A key release: A, D and Space clear the flag they drive; nothing else
   * changes, and no release requests exit or touches debug.
   */
  function KeyUpStep(s: Flags, k: Key): (r: Flags)
    ensures r.exitRequested == s.exitRequested && r.debug == s.debug && r.grounded == s.grounded
    ensures r.movingLeft <==> s.movingLeft && k != A
    ensures r.movingRight <==> s.movingRight && k != D
    ensures r.jump <==> s.jump && k != Space
    ensures !IsMovementKey(k) ==> r == s
  {
    var afterMove :=
      if k == A then s.(movingLeft := false)
      else if k == D then s.(movingRight := false)
      else s;
    if k == Space then afterMove.(jump := false) else afterMove
  }

  /**
   * A contact callback: a contact involving the ground sensor writes
   * `grounded` (true when it begins, false when it ends); any other contact
   * changes nothing. Nothing but `grounded` ever changes.
   */
  function ContactStep(s: Flags, c: Contact, begins: bool): (r: Flags)
    ensures r.(grounded := s.grounded) == s
    ensures r.grounded == (if TouchesGroundSensor(c) then begins else s.grounded)
  {
    if TouchesGroundSensor(c) then s.(grounded := begins) else s
  }

  /** The effect of one event on the flags. */
  function Step(s: Flags, e: Event): Flags {
    match e
    case Press(k) => KeyDownStep(s, k)
    case Release(k) => KeyUpStep(s, k)
    case Begin(c) => ContactStep(s, c, true)
    case End(c) => ContactStep(s, c, false)
  }

  /** The flags after the events `evs`, delivered in order, starting from `s`. */
  function Run(s: Flags, evs: seq<Event>): Flags
    decreases |evs|
  {
    if evs == [] then s else Step(Run(s, evs[..|evs| - 1]), evs[|evs| - 1])
  }

  /**
   * The screen, with the player's flags held as plain fields. Every handler
   * reports the event as not consumed.
   */
  class GameScreen {
    var debug: bool
    var exitRequested: bool
    var movingLeft: bool
    var movingRight: bool
    var jump: bool
    var grounded: bool

    /** The abstract value of the screen's state. */
    function State(): Flags
      reads this
    {
      Flags(debug, exitRequested, movingLeft, movingRight, jump, grounded)
    }

    /** Takes the player from the first entity; debug rendering starts on. */
    constructor (entities: seq<Entity>)
      requires PlayerOf(entities).Ok?
      ensures State() == InitialFlags(PlayerOf(entities).value)
    {
      var p := entities[0].flags;
      debug := true;
      exitRequested := false;
      movingLeft := p.movingLeft;
      movingRight := p.movingRight;
      jump := p.jump;
      grounded := p.grounded;
    }

    method KeyDown(k: Key) returns (handled: bool)
      modifies this
      ensures State() == KeyDownStep(old(State()), k)
      ensures !handled
    {
      if k == Escape {
        exitRequested := true;
      }
      if k == Grave {
        if debug {
          debug := false;
        } else {
          debug := true;
        }
      }
      if k == A {
        movingLeft := true;
      } else if k == D {
        movingRight := true;
      }
      if k == Space {
        jump := true;
      }
      handled := false;
    }

    method KeyUp(k: Key) returns (handled: bool)
      modifies this
      ensures State() == KeyUpStep(old(State()), k)
      ensures !handled
    {
      if k == A {
        movingLeft := false;
      } else if k == D {
        movingRight := false;
      }
      if k == Space {
        jump := false;
      }
      handled := false;
    }

    method BeginContact(c: Contact)
      modifies this
      ensures State() == ContactStep(old(State()), c, true)
    {
      if TouchesGroundSensor(c) {
        grounded := true;
      }
    }

    method EndContact(c: Contact)
      modifies this
      ensures State() == ContactStep(old(State()), c, false)
    {
      if TouchesGroundSensor(c) {
        grounded := false;
      }
    }
  }
}
