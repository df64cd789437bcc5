/**
 * What the screen's flags are after any sequence of input and contact events.
 */
module CrateProperties {
  import opened Crate

  /** True when `e` is a ground-sensor contact, which overwrites `grounded`. */
  predicate WritesGrounded(e: Event) {
    (e.Begin? || e.End?) && TouchesGroundSensor(e.contact)
  }

  /** True when `e` presses or releases `k`. */
  predicate WritesHeld(e: Event, k: Key) {
    e == Press(k) || e == Release(k)
  }

  /** The flag a movement key drives. */
  function Held(s: Flags, k: Key): bool
    requires IsMovementKey(k)
  {
    match k
    case A => s.movingLeft
    case D => s.movingRight
    case Space => s.jump
  }

  /** One event writes a held flag exactly when it presses or releases its key. */
  lemma StepHeld(s: Flags, e: Event, k: Key)
    requires IsMovementKey(k)
    ensures Held(Step(s, e), k) == if WritesHeld(e, k) then e.Press? else Held(s, k)
  {
  }

  /** With no ground-sensor contact among the events, `grounded` keeps its value. */
  lemma {:induction false} GroundedUnwritten(s: Flags, evs: seq<Event>)
    requires forall j :: 0 <= j < |evs| ==> !WritesGrounded(evs[j])
    ensures Run(s, evs).grounded == s.grounded
    decreases |evs|
  {
    if evs != [] {
      var n := |evs| - 1;
      var prefix := evs[..n];
      assert !WritesGrounded(evs[n]);
      forall j | 0 <= j < |prefix| ensures !WritesGrounded(prefix[j]) {
      }
      GroundedUnwritten(s, prefix);
    }
  }

  /**
   * Last write wins: `grounded` is true exactly when the latest ground-sensor
   * contact began rather than ended, however many contacts began before it.
   */
  lemma {:induction false} GroundedLastWrite(s: Flags, evs: seq<Event>, i: int)
    requires 0 <= i < |evs| && WritesGrounded(evs[i])
    requires forall j :: i < j < |evs| ==> !WritesGrounded(evs[j])
    ensures Run(s, evs).grounded == evs[i].Begin?
    decreases |evs|
  {
    var n := |evs| - 1;
    var prefix := evs[..n];
    if i < n {
      assert !WritesGrounded(evs[n]);
      forall j | i < j < |prefix| ensures !WritesGrounded(prefix[j]) {
      }
      GroundedLastWrite(s, prefix, i);
    }
  }

  /** With no press or release of a movement key, its flag keeps its value. */
  lemma {:induction false} HeldUnwritten(s: Flags, evs: seq<Event>, k: Key)
    requires IsMovementKey(k)
    requires forall j :: 0 <= j < |evs| ==> !WritesHeld(evs[j], k)
    ensures Held(Run(s, evs), k) == Held(s, k)
    decreases |evs|
  {
    if evs != [] {
      var n := |evs| - 1;
      var prefix := evs[..n];
      assert !WritesHeld(evs[n], k);
      forall j | 0 <= j < |prefix| ensures !WritesHeld(prefix[j], k) {
      }
      HeldUnwritten(s, prefix, k);
      StepHeld(Run(s, prefix), evs[n], k);
    }
  }

  /**
   * A movement flag is set exactly when the latest event on its key was a
   * press: presses and releases of other keys never change it.
   */
  lemma {:induction false} HeldLastWrite(s: Flags, evs: seq<Event>, k: Key, i: int)
    requires IsMovementKey(k)
    requires 0 <= i < |evs| && WritesHeld(evs[i], k)
    requires forall j :: i < j < |evs| ==> !WritesHeld(evs[j], k)
    ensures Held(Run(s, evs), k) == evs[i].Press?
    decreases |evs|
  {
    var n := |evs| - 1;
    var prefix := evs[..n];
    if i < n {
      assert !WritesHeld(evs[n], k);
      forall j | i < j < |prefix| ensures !WritesHeld(prefix[j], k) {
      }
      HeldLastWrite(s, prefix, k, i);
    }
    StepHeld(Run(s, prefix), evs[n], k);
  }

  /** Exit is requested exactly when it was already, or Escape was pressed. */
  lemma {:induction false} ExitIffEscapePressed(s: Flags, evs: seq<Event>)
    ensures Run(s, evs).exitRequested <==> s.exitRequested || Press(Escape) in evs
    decreases |evs|
  {
    if evs != [] {
      var n := |evs| - 1;
      var prefix := evs[..n];
      assert evs == prefix + [evs[n]];
      ExitIffEscapePressed(s, prefix);
    }
  }

  /** `debug` has flipped exactly when Grave was pressed an odd number of times. */
  lemma {:induction false} DebugParity(s: Flags, evs: seq<Event>)
    ensures Run(s, evs).debug <==> (s.debug <==> multiset(evs)[Press(Grave)] % 2 == 0)
    decreases |evs|
  {
    if evs != [] {
      var n := |evs| - 1;
      var prefix := evs[..n];
      assert evs == prefix + [evs[n]];
      assert multiset(evs) == multiset(prefix) + multiset{evs[n]};
      DebugParity(s, prefix);
    }
  }

  /** Pressing Grave twice restores the debug toggle, whatever else is held. */
  lemma GraveTwiceRestoresDebug(s: Flags)
    ensures Run(s, [Press(Grave), Press(Grave)]) == s
  {
  }

  /** Contact events alone change nothing but `grounded`. */
  lemma {:induction false} ContactsOnlyWriteGrounded(s: Flags, evs: seq<Event>)
    requires forall j :: 0 <= j < |evs| ==> evs[j].Begin? || evs[j].End?
    ensures Run(s, evs).(grounded := s.grounded) == s
    decreases |evs|
  {
    if evs != [] {
      var n := |evs| - 1;
      var prefix := evs[..n];
      forall j | 0 <= j < |prefix| ensures prefix[j].Begin? || prefix[j].End? {
      }
      ContactsOnlyWriteGrounded(s, prefix);
    }
  }

  /** Key events alone never change `grounded`. */
  lemma {:induction false} KeysKeepGrounded(s: Flags, evs: seq<Event>)
    requires forall j :: 0 <= j < |evs| ==> evs[j].Press? || evs[j].Release?
    ensures Run(s, evs).grounded == s.grounded
  {
    forall j | 0 <= j < |evs| ensures !WritesGrounded(evs[j]) {
    }
    GroundedUnwritten(s, evs);
  }

  /**
   * Straddling two ground fixtures: two contacts begin, one ends, and the
   * player reads as airborne although one contact remains.
   */
  lemma StraddlingClearsGrounded(s: Flags, c1: Contact, c2: Contact)
    requires TouchesGroundSensor(c1) && TouchesGroundSensor(c2)
    ensures !Run(s, [Begin(c1), Begin(c2), End(c1)]).grounded
  {
    GroundedLastWrite(s, [Begin(c1), Begin(c2), End(c1)], 2);
  }

  /** Holding A and D together sets both directions at once. */
  lemma BothDirectionsHeld(s: Flags)
    ensures var r := Run(s, [Press(A), Press(D)]); r.movingLeft && r.movingRight
  {
  }
}
