/**
 The composite control: an edit field with a floating hint label above it.
 The field's and the label's platform state are fields of the control, the
 attribute values it was configured with are constructor parameters, and
 the animations it asks for are logged rather than played.
 */
module FloatLabel {
  import opened Options
  import opened LabelVisibility
  import opened FocusAnimation

  /** What a platform text view holds after setText(t): a null text is stored as empty. */
  function Displayed(t: Option<string>): string
  {
    match t
    case None => ""
    case Some(s) => s
  }

  /**
   getText's normalisation of the field's editable text: absent or empty
   text reads as "", anything else is returned unchanged; never null.
   */
  function NormalizedText(e: Option<string>): (r: string)
    ensures r == "" <==> (e == None || e.value == "")
    ensures r != "" ==> e == Some(r)
  {
    if e.Some? && |e.value| > 0 then e.value else ""
  }

  class FloatLabelEditText {
    /** The configured initial text (the `text` attribute; may be absent). */
    const initialText: Option<string>
    /** The configured focused and unfocused hint colours. */
    const colors: Colors
    /** The stored hint (the `hint` attribute, later setHint's argument). */
    var hint: Option<string>

    // The edit field.
    var fieldText: string
    var fieldHint: Option<string>
    /** How many text watchers are registered on the field; each setup adds one. */
    var watcherCount: nat
    /** The installed focus listener (none before the first setup). */
    var listener: FocusListener?

    // The floating label.
    var labelText: string
    var visibility: Visibility
    /** The slide animations requested on the label, in order. */
    var slides: seq<Slide>

    /** How many colour animators have been constructed; also the next animator's identity. */
    var animatorCount: nat
    /** Every colour-animator start, in order. */
    var starts: seq<Start>

    ghost predicate Valid()
      reads this, listener
    {
      && listener != null
      && listener.colors == colors
      && listener.Valid(animatorCount)
      && watcherCount >= 1
      && Settled(visibility, |fieldText|)
    }

    /**
     initializeView: the inflated layout has an empty field and an invisible
     label; then the edit field and the floating label are set up.
     */
    constructor (hint: Option<string>, initialText: Option<string>, colors: Colors)
      ensures Valid() && fresh(listener)
      ensures this.hint == hint && this.initialText == initialText && this.colors == colors
      ensures fieldHint == hint && labelText == Displayed(hint) && fieldText == Displayed(initialText)
      ensures watcherCount == 1 && listener.Handles() == Memo(None, None)
      ensures visibility == (if |fieldText| > 0 then Visible else Invisible) && slides == []
      ensures animatorCount == 0 && starts == []
    {
      this.hint := hint;
      this.initialText := initialText;
      this.colors := colors;
      fieldText, fieldHint, watcherCount, listener := "", None, 0, null;
      labelText, visibility, slides := "", Invisible, [];
      animatorCount, starts := 0, [];
      new;
      SetupEditTextView();
      SetupFloatingLabel();
    }

    /** getText: the field's text, "" when it is empty. */
    function GetText(): (r: string)
      reads this
      ensures r == fieldText
    {
      NormalizedText(Some(fieldText))
    }

    /** setText: the field's content becomes `text` (null as empty) and the watchers react. */
    method SetText(text: Option<string>)
      requires Valid()
      modifies this`fieldText, this`visibility, this`slides
      ensures Valid()
      ensures fieldText == Displayed(text) && GetText() == NormalizedText(text)
      ensures var r := WatcherStep(old(visibility), |fieldText|);
              visibility == r.visibility && slides == old(slides) + SlideLog(r.slide)
    {
      ChangeFieldText(Displayed(text));
      ExtraWatchersAddNothing(old(visibility), |fieldText|, watcherCount);
    }

    /**
     setHint: store the hint (possibly null), show it on the label (null as
     empty), then run the edit-field setup again, which resets the field text
     to the initial text (the registered watchers react), registers one more
     watcher and installs a new focus listener with no animators.
     */
    method SetHint(h: Option<string>)
      requires Valid()
      modifies this
      ensures Valid() && fresh(listener)
      ensures hint == h && labelText == Displayed(h) && fieldHint == h
      ensures fieldText == Displayed(initialText)
      ensures watcherCount == old(watcherCount) + 1
      ensures listener.Handles() == Memo(None, None) && listener.built == 0
      ensures var r := WatcherStep(old(visibility), |fieldText|);
              visibility == r.visibility && slides == old(slides) + SlideLog(r.slide)
      ensures Settled(old(visibility), |fieldText|) ==> visibility == old(visibility) && slides == old(slides)
      ensures animatorCount == old(animatorCount) && starts == old(starts)
    {
      hint := h;
      labelText := Displayed(h);
      SetupEditTextView();
      ExtraWatchersAddNothing(old(visibility), |fieldText|, old(watcherCount));
    }

    /** The host delivers a focus change to the installed listener, which starts one colour animator. */
    method OnFocusChange(hasFocus: bool)
      requires Valid()
      modifies this`animatorCount, this`starts, listener
      ensures Valid() && listener == old(listener)
      ensures var r := FocusStep(old(listener.Handles()), hasFocus, colors, old(animatorCount));
              && listener.Handles() == r.memo
              && starts == old(starts) + [r.started]
              && animatorCount == old(animatorCount) + (if r.constructed then 1 else 0)
      ensures Animates(starts[|starts| - 1].animator, colors, hasFocus)
      ensures listener.built <= 2
    {
      var started, constructed := listener.OnFocusChange(hasFocus, animatorCount);
      if constructed {
        animatorCount := animatorCount + 1;
      }
      starts := starts + [started];
    }

    /**
     setupEditTextView: the field takes the stored hint and the initial text
     (only the watchers already registered react), then one more watcher is
     registered and a fresh focus listener is installed.
     */
    method SetupEditTextView()
      modifies this
      ensures fieldHint == hint && fieldText == Displayed(initialText)
      ensures var e := FireWatchers(old(visibility), |fieldText|, old(watcherCount));
              visibility == e.visibility && slides == old(slides) + e.slides
      ensures watcherCount == old(watcherCount) + 1
      ensures listener != null && fresh(listener) && listener.colors == colors
      ensures listener.Handles() == Memo(None, None) && listener.built == 0
      ensures hint == old(hint) && labelText == old(labelText)
      ensures animatorCount == old(animatorCount) && starts == old(starts)
    {
      fieldHint := hint;
      ChangeFieldText(Displayed(initialText));
      watcherCount := watcherCount + 1;
      listener := new FocusListener(colors);
    }

    /** setupFloatingLabel: the label shows the hint, and is shown without a slide when there is text. */
    method SetupFloatingLabel()
      modifies this`labelText, this`visibility, this`slides
      ensures labelText == Displayed(hint)
      ensures visibility == (if |GetText()| > 0 then Visible else old(visibility))
      ensures slides == old(slides)
    {
      labelText := Displayed(hint);
      if |GetText()| > 0 {
        ShowFloatingLabel(false);
      }
    }

    /** The field's content becomes `newText` and every registered watcher reacts, in order. */
    method ChangeFieldText(newText: string)
      modifies this`fieldText, this`visibility, this`slides
      ensures fieldText == newText
      ensures var e := FireWatchers(old(visibility), |newText|, watcherCount);
              visibility == e.visibility && slides == old(slides) + e.slides
    {
      fieldText := newText;
      var i := 0;
      while i < watcherCount
        invariant 0 <= i <= watcherCount
        invariant fieldText == newText
        invariant var e := FireWatchers(old(visibility), |newText|, i);
                  visibility == e.visibility && slides == old(slides) + e.slides
      {
        AfterTextChanged(|fieldText|);
        i := i + 1;
      }
    }

    /** One text watcher's afterTextChanged. */
    method AfterTextChanged(length: nat)
      modifies this`visibility, this`slides
      ensures var r := WatcherStep(old(visibility), length);
              visibility == r.visibility && slides == old(slides) + SlideLog(r.slide)
    {
      if length > 0 && visibility == Invisible {
        ShowFloatingLabel(true);
      } else if length == 0 && visibility == Visible {
        HideFloatingLabel(true);
      }
    }

    method ShowFloatingLabel(animate: bool)
      modifies this`visibility, this`slides
      ensures visibility == Visible
      ensures slides == old(slides) + (if animate then [SlideFromBottom] else [])
    {
      visibility := Visible;
      if animate {
        slides := slides + [SlideFromBottom];
      }
    }

    method HideFloatingLabel(animate: bool)
      modifies this`visibility, this`slides
      ensures visibility == Invisible
      ensures slides == old(slides) + (if animate then [SlideToBottom] else [])
    {
      visibility := Invisible;
      if animate {
        slides := slides + [SlideToBottom];
      }
    }
  }

  /** A client: typing, clearing and a later setHint, with what the contracts let a caller conclude. */
  method TypeClearAndRehint(colors: Colors)
  {
    var c := new FloatLabelEditText(Some("Name"), None, colors);
    assert c.visibility == Invisible && c.GetText() == "";

    c.SetText(Some("Al"));
    assert c.visibility == Visible && c.slides == [SlideFromBottom];
    c.SetText(Some("Ali"));
    assert c.slides == [SlideFromBottom];
    c.SetText(Some(""));
    assert c.visibility == Invisible && c.slides == [SlideFromBottom, SlideToBottom];
    assert c.GetText() == "";

    c.SetText(Some("Bob"));
    c.SetHint(Some("Full name"));
    assert c.labelText == "Full name" && c.fieldHint == Some("Full name");
    assert c.GetText() == "" && c.visibility == Invisible;
    assert c.slides == [SlideFromBottom, SlideToBottom, SlideFromBottom, SlideToBottom];
  }

  /** A client: focus toggles reuse the memoised animators; a new listener after setHint builds again. */
  method ToggleFocusAndRehint(focused: int, unfocused: int)
  {
    var c := new FloatLabelEditText(Some("Name"), Some("Ann"), Colors(focused, unfocused));
    assert c.visibility == Visible && c.slides == [];

    c.OnFocusChange(true);
    c.OnFocusChange(false);
    c.OnFocusChange(true);
    assert c.starts[0].animator == c.starts[2].animator;
    assert c.starts[0].animator.from == unfocused && c.starts[0].animator.to == focused;
    assert c.starts[1].animator.from == focused && c.starts[1].animator.to == unfocused;
    assert c.animatorCount == 2;

    c.SetHint(Some("Full name"));
    c.OnFocusChange(true);
    assert c.animatorCount == 3 && c.starts[3].animator.id == 2;
  }
}
