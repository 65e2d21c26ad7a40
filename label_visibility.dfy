/**
 The floating label's visibility controller: the decision a text watcher takes
 in afterTextChanged, the effect of several identical watchers reacting to the
 same change, and of a run of text changes.
 */
module LabelVisibility {
  import opened Options

  datatype Visibility = Visible | Invisible

  /** The two slide animations the label can be asked to play. */
  datatype Slide = SlideFromBottom | SlideToBottom

  /** One watcher's reaction: the label's new visibility and the slide it requests, if any. */
  datatype Reaction = Reaction(visibility: Visibility, slide: Option<Slide>)

  /** The combined effect of several reactions: the final visibility and the slides requested, in order. */
  datatype Effect = Effect(visibility: Visibility, slides: seq<Slide>)

  function SlideLog(s: Option<Slide>): seq<Slide>
  {
    match s
    case None => []
    case Some(x) => [x]
  }

  /** The label agrees with the text: it is shown exactly when the text is non-empty. */
  predicate Settled(v: Visibility, length: nat)
  {
    v == Visible <==> length > 0
  }

  /** The slide that crossing away from visibility `v` requests. */
  function Crossing(v: Visibility): Slide
  {
    if v == Invisible then SlideFromBottom else SlideToBottom
  }

  function Flip(v: Visibility): Visibility
  {
    if v == Visible then Invisible else Visible
  }

  /**
   afterTextChanged of one text watcher: only the new text length is read; the
   label is shown (with a slide from the bottom) when text appears while it is
   invisible and hidden (with a slide to the bottom) when the text empties while
   it is visible; otherwise nothing happens.
   */
  function WatcherStep(v: Visibility, length: nat): (r: Reaction)
    ensures Settled(r.visibility, length)
    ensures r.slide.Some? <==> r.visibility != v
    ensures r.slide == Some(SlideFromBottom) <==> v == Invisible && r.visibility == Visible
    ensures r.slide == Some(SlideToBottom) <==> v == Visible && r.visibility == Invisible
  {
    if length > 0 && v == Invisible then Reaction(Visible, Some(SlideFromBottom))
    else if length == 0 && v == Visible then Reaction(Invisible, Some(SlideToBottom))
    else Reaction(v, None)
  }

  /**
   The `k` registered watchers reacting, one after the other, to a change that
   leaves the text with `length` characters. Each watcher sees the visibility
   its predecessor left behind.
   */
  function FireWatchers(v: Visibility, length: nat, k: nat): (r: Effect)
    ensures k == 0 ==> r == Effect(v, [])
    ensures k > 0 ==> Settled(r.visibility, length)
    ensures |r.slides| <= 1
    ensures |r.slides| == 1 <==> r.visibility != v
    decreases k
  {
    if k == 0 then Effect(v, [])
    else
      var before := FireWatchers(v, length, k - 1);
      var step := WatcherStep(before.visibility, length);
      Effect(step.visibility, before.slides + SlideLog(step.slide))
  }

  /** However many watchers are registered (at least one), they act as a single watcher. */
  lemma {:induction false} ExtraWatchersAddNothing(v: Visibility, length: nat, k: nat)
    requires k >= 1
    ensures FireWatchers(v, length, k)
         == Effect(WatcherStep(v, length).visibility, SlideLog(WatcherStep(v, length).slide))
  {
    if k > 1 {
      ExtraWatchersAddNothing(v, length, k - 1);
    }
  }

  /** A run of text changes, each leaving the text with the given length and seen by `k` watchers. */
  function TypingRun(v: Visibility, lengths: seq<nat>, k: nat): (r: Effect)
    ensures lengths == [] ==> r == Effect(v, [])
    ensures |r.slides| <= |lengths|
    decreases |lengths|
  {
    if lengths == [] then Effect(v, [])
    else
      var first := FireWatchers(v, lengths[0], k);
      var rest := TypingRun(first.visibility, lengths[1..], k);
      Effect(rest.visibility, first.slides + rest.slides)
  }

  /**
   Text changes that never cross the empty/non-empty boundary the label
   already agrees with change nothing and request no slide: repeated
   same-side events are idempotent.
   */
  lemma {:induction false} SameSideIsIdempotent(v: Visibility, lengths: seq<nat>, k: nat)
    requires forall i :: 0 <= i < |lengths| ==> Settled(v, lengths[i])
    ensures TypingRun(v, lengths, k) == Effect(v, [])
    decreases |lengths|
  {
    if lengths != [] {
      if k >= 1 {
        ExtraWatchersAddNothing(v, lengths[0], k);
      }
      SameSideIsIdempotent(v, lengths[1..], k);
    }
  }

  /** The number of changes in `lengths` that cross the empty/non-empty boundary, starting from side `shown`. */
  function Crossings(shown: bool, lengths: seq<nat>): (r: nat)
    ensures r <= |lengths|
    decreases |lengths|
  {
    if lengths == [] then 0
    else (if (lengths[0] > 0) != shown then 1 else 0) + Crossings(lengths[0] > 0, lengths[1..])
  }

  /** The slides of `n` successive crossings, starting from visibility `v`: they alternate. */
  function Alternating(v: Visibility, n: nat): (r: seq<Slide>)
    ensures |r| == n
    ensures n > 0 ==> r[0] == Crossing(v)
    ensures forall i :: 0 <= i < n - 1 ==> r[i] != r[i + 1]
    decreases n
  {
    if n == 0 then [] else [Crossing(v)] + Alternating(Flip(v), n - 1)
  }

  /** With at least one watcher, after a non-empty run of text changes the label agrees with the last text. */
  lemma {:induction false} SettlesOnLast(v: Visibility, lengths: seq<nat>, k: nat)
    requires k >= 1 && lengths != []
    ensures Settled(TypingRun(v, lengths, k).visibility, lengths[|lengths| - 1])
    decreases |lengths|
  {
    var first := FireWatchers(v, lengths[0], k);
    var rest := TypingRun(first.visibility, lengths[1..], k);
    assert TypingRun(v, lengths, k).visibility == rest.visibility;
    if |lengths| == 1 {
      assert lengths[1..] == [];
      assert rest == Effect(first.visibility, []);
    } else {
      SettlesOnLast(first.visibility, lengths[1..], k);
      assert lengths[|lengths| - 1] == lengths[1..][|lengths[1..]| - 1];
    }
  }

  /** With at least one watcher, one text change either crosses the boundary with its one slide or does nothing. */
  lemma FirstChange(v: Visibility, length: nat, k: nat)
    requires k >= 1
    ensures FireWatchers(v, length, k)
         == if (length > 0) != (v == Visible) then Effect(Flip(v), [Crossing(v)]) else Effect(v, [])
  {
    ExtraWatchersAddNothing(v, length, k);
  }

  /** With at least one watcher, a run of text changes requests one slide per crossing, alternating. */
  lemma {:induction false} SlidesFollowCrossings(v: Visibility, lengths: seq<nat>, k: nat)
    requires k >= 1
    ensures TypingRun(v, lengths, k).slides == Alternating(v, Crossings(v == Visible, lengths))
    decreases |lengths|
  {
    if lengths != [] {
      var first := FireWatchers(v, lengths[0], k);
      var rest := TypingRun(first.visibility, lengths[1..], k);
      var n := Crossings(lengths[0] > 0, lengths[1..]);
      FirstChange(v, lengths[0], k);
      SlidesFollowCrossings(first.visibility, lengths[1..], k);
      assert TypingRun(v, lengths, k).slides == first.slides + rest.slides;
      if (lengths[0] > 0) != (v == Visible) {
        assert first == Effect(Flip(v), [Crossing(v)]);
        assert Crossings(v == Visible, lengths) == n + 1;
        calc {
          TypingRun(v, lengths, k).slides;
          [Crossing(v)] + Alternating(Flip(v), n);
          Alternating(v, n + 1);
        }
      } else {
        assert first == Effect(v, []);
        assert Crossings(v == Visible, lengths) == n;
      }
    }
  }

  /**
   With at least one watcher, a run of text changes requests exactly one slide
   per boundary crossing, the slides alternate between entrance and exit, and
   the label ends up agreeing with the last text.
   */
  lemma OneSlidePerCrossing(v: Visibility, lengths: seq<nat>, k: nat)
    requires k >= 1
    ensures TypingRun(v, lengths, k).slides == Alternating(v, Crossings(v == Visible, lengths))
    ensures lengths != [] ==> Settled(TypingRun(v, lengths, k).visibility, lengths[|lengths| - 1])
  {
    SlidesFollowCrossings(v, lengths, k);
    if lengths != [] {
      SettlesOnLast(v, lengths, k);
    }
  }
}
