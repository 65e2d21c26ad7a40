/**
 The focus colour animation: each focus listener lazily builds one colour
 animator per direction, keeps it, and restarts it with a fixed duration on
 every focus change in that direction.
 */
module FocusAnimation {
  import opened Options

  /** Every start of a focus colour animation uses this duration (milliseconds). */
  const FocusAnimationMillis: nat := 700

  /** A colour animator: its identity and the colours it interpolates between. */
  datatype Animator = Animator(id: nat, from: int, to: int)

  /** One start of an animator, with the duration set just before it. */
  datatype Start = Start(animator: Animator, duration: nat)

  /** The control's two configured colours. */
  datatype Colors = Colors(focused: int, unfocused: int)

  /**
   A listener's two memoised animators: `gain` is played when focus is
   gained and `loss` when it is lost (both absent until first needed).
   */
  datatype Memo = Memo(gain: Option<Animator>, loss: Option<Animator>)

  /** The colour an animation for this focus change starts from. */
  function From(c: Colors, hasFocus: bool): int
  {
    if hasFocus then c.unfocused else c.focused
  }

  /** The colour an animation for this focus change ends at. */
  function To(c: Colors, hasFocus: bool): int
  {
    if hasFocus then c.focused else c.unfocused
  }

  predicate Animates(a: Animator, c: Colors, hasFocus: bool)
  {
    a.from == From(c, hasFocus) && a.to == To(c, hasFocus)
  }

  /** The memo slot used for a focus change in this direction. */
  function Slot(m: Memo, hasFocus: bool): Option<Animator>
  {
    if hasFocus then m.gain else m.loss
  }

  /** How many animators the memo holds. */
  function Filled(m: Memo): nat
  {
    (if m.gain.Some? then 1 else 0) + (if m.loss.Some? then 1 else 0)
  }

  /**
   The memo's animators go the way their slot says, were built before the
   next identity `nextId`, and are two different animators.
   */
  predicate Consistent(m: Memo, c: Colors, nextId: nat)
  {
    && (m.gain.Some? ==> Animates(m.gain.value, c, true) && m.gain.value.id < nextId)
    && (m.loss.Some? ==> Animates(m.loss.value, c, false) && m.loss.value.id < nextId)
    && (m.gain.Some? && m.loss.Some? ==> m.gain.value.id != m.loss.value.id)
  }

  /** What one focus change does to a listener: its new memo, the start, and whether an animator was built. */
  datatype FocusReaction = FocusReaction(memo: Memo, started: Start, constructed: bool)

  /**
   onFocusChange: take the animator for this direction from the memo, build
   it (with identity `nextId`) if the slot is still empty, then start it with
   duration 700.
   */
  function FocusStep(m: Memo, hasFocus: bool, c: Colors, nextId: nat): (r: FocusReaction)
    ensures Slot(r.memo, hasFocus) == Some(r.started.animator)
    ensures Slot(r.memo, !hasFocus) == Slot(m, !hasFocus)
    ensures r.constructed <==> Slot(m, hasFocus).None?
    ensures !r.constructed ==> r.memo == m
    ensures r.constructed ==> r.started.animator.id == nextId && Animates(r.started.animator, c, hasFocus)
    ensures r.started.duration == FocusAnimationMillis
    ensures Consistent(m, c, nextId) ==>
              && Consistent(r.memo, c, if r.constructed then nextId + 1 else nextId)
              && Animates(r.started.animator, c, hasFocus)
  {
    match Slot(m, hasFocus)
    case Some(a) => FocusReaction(m, Start(a, FocusAnimationMillis), false)
    case None =>
      var a := Animator(nextId, From(c, hasFocus), To(c, hasFocus));
      var m' := if hasFocus then m.(gain := Some(a)) else m.(loss := Some(a));
      FocusReaction(m', Start(a, FocusAnimationMillis), true)
  }

  /** A listener's whole history: the final memo, every start, and the next free identity. */
  datatype FocusTrace = FocusTrace(memo: Memo, starts: seq<Start>, nextId: nat)

  /** A run of focus changes delivered to one listener. */
  function FocusRun(m: Memo, events: seq<bool>, c: Colors, nextId: nat): (r: FocusTrace)
    ensures |r.starts| == |events|
    decreases |events|
  {
    if events == [] then FocusTrace(m, [], nextId)
    else
      var s := FocusStep(m, events[0], c, nextId);
      var rest := FocusRun(s.memo, events[1..], c, if s.constructed then nextId + 1 else nextId);
      FocusTrace(rest.memo, [s.started] + rest.starts, rest.nextId)
  }

  /** Once a direction's animator is memoised it is never replaced. */
  lemma {:induction false} MemoIsKept(m: Memo, events: seq<bool>, c: Colors, nextId: nat, hasFocus: bool)
    requires Slot(m, hasFocus).Some?
    ensures Slot(FocusRun(m, events, c, nextId).memo, hasFocus) == Slot(m, hasFocus)
    decreases |events|
  {
    if events != [] {
      var s := FocusStep(m, events[0], c, nextId);
      MemoIsKept(s.memo, events[1..], c, if s.constructed then nextId + 1 else nextId, hasFocus);
    }
  }

  /** Every start of a run plays the animator that the final memo holds for its direction. */
  lemma {:induction false} StartsPlayMemoised(m: Memo, events: seq<bool>, c: Colors, nextId: nat)
    ensures var r := FocusRun(m, events, c, nextId);
            forall i :: 0 <= i < |events| ==> Slot(r.memo, events[i]) == Some(r.starts[i].animator)
    decreases |events|
  {
    if events != [] {
      var s := FocusStep(m, events[0], c, nextId);
      var id' := if s.constructed then nextId + 1 else nextId;
      StartsPlayMemoised(s.memo, events[1..], c, id');
      MemoIsKept(s.memo, events[1..], c, id', events[0]);
      var r := FocusRun(m, events, c, nextId);
      var rest := FocusRun(s.memo, events[1..], c, id');
      forall i | 0 <= i < |events|
        ensures Slot(r.memo, events[i]) == Some(r.starts[i].animator)
      {
        if i > 0 {
          assert events[i] == events[1..][i - 1];
          assert r.starts[i] == rest.starts[i - 1];
        }
      }
    }
  }

  /** Two focus changes in the same direction start the identical animator instance. */
  lemma SameDirectionSameAnimator(m: Memo, events: seq<bool>, c: Colors, nextId: nat, i: nat, j: nat)
    requires i < |events| && j < |events| && events[i] == events[j]
    ensures FocusRun(m, events, c, nextId).starts[i].animator == FocusRun(m, events, c, nextId).starts[j].animator
  {
    StartsPlayMemoised(m, events, c, nextId);
  }

  /**
   A listener builds an animator only to fill an empty slot, so one listener
   never builds more than two.
   */
  lemma {:induction false} AtMostTwoBuilt(m: Memo, events: seq<bool>, c: Colors, nextId: nat)
    ensures var r := FocusRun(m, events, c, nextId);
            r.nextId + Filled(m) == nextId + Filled(r.memo) && r.nextId <= nextId + 2
    decreases |events|
  {
    if events != [] {
      var s := FocusStep(m, events[0], c, nextId);
      AtMostTwoBuilt(s.memo, events[1..], c, if s.constructed then nextId + 1 else nextId);
    }
  }

  /**
   From a consistent memo, every start in a run goes from the unfocused to the
   focused colour on gaining focus and back on losing it, always with duration 700.
   */
  lemma {:induction false} StartsHaveDirectionEndpoints(m: Memo, events: seq<bool>, c: Colors, nextId: nat)
    requires Consistent(m, c, nextId)
    ensures var r := FocusRun(m, events, c, nextId);
            && Consistent(r.memo, c, r.nextId)
            && forall i :: 0 <= i < |events| ==>
                 Animates(r.starts[i].animator, c, events[i]) && r.starts[i].duration == FocusAnimationMillis
    decreases |events|
  {
    if events != [] {
      var s := FocusStep(m, events[0], c, nextId);
      var id' := if s.constructed then nextId + 1 else nextId;
      StartsHaveDirectionEndpoints(s.memo, events[1..], c, id');
      var r := FocusRun(m, events, c, nextId);
      var rest := FocusRun(s.memo, events[1..], c, id');
      forall i | 0 <= i < |events|
        ensures Animates(r.starts[i].animator, c, events[i]) && r.starts[i].duration == FocusAnimationMillis
      {
        if i > 0 {
          assert events[i] == events[1..][i - 1];
          assert r.starts[i] == rest.starts[i - 1];
        }
      }
    }
  }

  /** From a consistent memo, focus changes in opposite directions never start the same animator. */
  lemma OppositeDirectionsDiffer(m: Memo, events: seq<bool>, c: Colors, nextId: nat, i: nat, j: nat)
    requires Consistent(m, c, nextId)
    requires i < |events| && j < |events| && events[i] != events[j]
    ensures FocusRun(m, events, c, nextId).starts[i].animator != FocusRun(m, events, c, nextId).starts[j].animator
  {
    StartsPlayMemoised(m, events, c, nextId);
    StartsHaveDirectionEndpoints(m, events, c, nextId);
  }

  /**
   The anonymous OnFocusChangeListener: its two animator handles start out
   null and are filled on first use.
   */
  class FocusListener {
    /** The parent's colours; they never change after the control is built. */
    const colors: Colors
    /** Played when focus is gained (unfocused to focused colour). */
    var gain: Option<Animator>
    /** Played when focus is lost (focused to unfocused colour). */
    var loss: Option<Animator>
    /** How many animators this listener has constructed. */
    var built: nat

    ghost predicate Valid(nextId: nat)
      reads this
    {
      built == Filled(Handles()) && Consistent(Handles(), colors, nextId)
    }

    function Handles(): Memo
      reads this
    {
      Memo(gain, loss)
    }

    constructor (colors: Colors)
      ensures this.colors == colors && Handles() == Memo(None, None) && built == 0
      ensures forall nextId: nat :: Valid(nextId)
    {
      this.colors := colors;
      gain, loss, built := None, None, 0;
    }

    method OnFocusChange(hasFocus: bool, nextId: nat) returns (started: Start, constructed: bool)
      requires Valid(nextId)
      modifies this
      ensures var r := FocusStep(old(Handles()), hasFocus, colors, nextId);
              Handles() == r.memo && started == r.started && constructed == r.constructed
      ensures Valid(if constructed then nextId + 1 else nextId)
    {
      var a;
      if hasFocus {
        a, constructed := GainAnimation(nextId);
      } else {
        a, constructed := LossAnimation(nextId);
      }
      started := Start(a, FocusAnimationMillis);
    }

    /** The animator played on gaining focus, built on first use. */
    method GainAnimation(nextId: nat) returns (a: Animator, constructed: bool)
      modifies this`gain, this`built
      ensures constructed <==> old(gain).None?
      ensures gain == Some(a)
      ensures !constructed ==> a == old(gain).value && built == old(built)
      ensures constructed ==> a == Animator(nextId, From(colors, true), To(colors, true)) && built == old(built) + 1
    {
      constructed := gain.None?;
      if constructed {
        gain := Some(Animator(nextId, colors.unfocused, colors.focused));
        built := built + 1;
      }
      a := gain.value;
    }

    /** The animator played on losing focus, built on first use. */
    method LossAnimation(nextId: nat) returns (a: Animator, constructed: bool)
      modifies this`loss, this`built
      ensures constructed <==> old(loss).None?
      ensures loss == Some(a)
      ensures !constructed ==> a == old(loss).value && built == old(built)
      ensures constructed ==> a == Animator(nextId, From(colors, false), To(colors, false)) && built == old(built) + 1
    {
      constructed := loss.None?;
      if constructed {
        loss := Some(Animator(nextId, colors.focused, colors.unfocused));
        built := built + 1;
      }
      a := loss.value;
    }
  }
}
