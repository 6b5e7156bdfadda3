/** The `TypingHeader` component: a section header whose terminal-style prefix fades
    in and whose title is typed out one character at a time, once the header first
    intersects the viewport. */
module TypingHeader {
  import opened Js

  /** The title typed out: `suffix ? `${title} ${suffix}` : title`, where an omitted or
      empty suffix is falsy. */
  function FullTitle(title: string, suffix: Option<string>): (r: string)
    ensures |title| <= |r| && r[..|title|] == title
    ensures |r| == |title| <==> suffix == None || suffix == Some("")
    ensures |r| > |title| ==> r[|title|..] == " " + suffix.value
  {
    if suffix.Some? && suffix.value != "" then title + " " + suffix.value else title
  }

  /** The fixed delay between the first intersection and the first character. */
  const StartupDelay: real := 300.0

  /** The delay before the next character, `Math.random() * 50 + 30`, where `u` is the
      value `Math.random()` returned: always in [30, 80) milliseconds. */
  function CharDelay(u: real): (d: real)
    requires 0.0 <= u < 1.0
    ensures 30.0 <= d < 80.0
  {
    u * 50.0 + 30.0
  }

  /** The blinking cursor is rendered while typing, once something and not yet everything is typed. */
  predicate ShowsCursor(isTyping: bool, typedText: string, fullTitle: string) {
    isTyping && |typedText| < |fullTitle| && |typedText| > 0
  }

  /** The callbacks this component hands to `setTimeout`: the startup callback, and `typeNextChar`. */
  datatype Callback = StartTypingTimer | TypeNextCharTimer

  /** A scheduled `setTimeout(callback, delay)`. */
  datatype Timeout = Timeout(delay: real, callback: Callback)

  /** One mounted `TypingHeader`. Its props are constants; `typedText`, `isTyping` and
      `prefixVisible` are its React state, `hasStarted` is `hasStartedRef.current`,
      `observing` says whether its intersection observer is connected, `index` is the
      variable of the startup closure, and `pending` is the one timer, if any, that is scheduled. */
  class TypingHeader {
    const prefix: string
    const title: string
    const suffix: Option<string>
    const fullTitle: string

    var typedText: string
    var isTyping: bool
    var prefixVisible: bool
    var hasStarted: bool
    var observing: bool
    var index: nat
    var pending: Option<Timeout>

    ghost predicate Valid()
      reads this
    {
      && fullTitle == FullTitle(title, suffix)
      && index <= |fullTitle|
      && typedText == fullTitle[..index]
      && prefixVisible == hasStarted
      && (!hasStarted ==> !isTyping && pending == None && index == 0)
      && (hasStarted ==>
            match pending
            case None => index == |fullTitle| && !isTyping
            case Some(t) =>
              isTyping &&
              match t.callback
              case StartTypingTimer => t.delay == StartupDelay && index == 0
              case TypeNextCharTimer => 1 <= index && 30.0 <= t.delay < 80.0)
    }

    /** The state just before `typeNextChar` runs. */
    ghost predicate Typing()
      reads this
    {
      fullTitle == FullTitle(title, suffix) && hasStarted && prefixVisible && isTyping &&
      pending == None && index <= |fullTitle| && typedText == fullTitle[..index]
    }

    /** Mounting: nothing typed, prefix hidden, not started, observer connected. */
    constructor (prefix: string, title: string, suffix: Option<string>)
      ensures Valid()
      ensures this.prefix == prefix && this.title == title && this.suffix == suffix
      ensures typedText == "" && !isTyping && !prefixVisible && !hasStarted && observing && pending == None
    {
      this.prefix := prefix;
      this.title := title;
      this.suffix := suffix;
      fullTitle := FullTitle(title, suffix);
      typedText := "";
      isTyping := false;
      prefixVisible := false;
      hasStarted := false;
      observing := true;
      index := 0;
      pending := None;
    }

    /** `typeNextChar`: type one more character and schedule the next step, or stop typing.
        `u` is the value `Math.random()` returns for the next delay. */
    method TypeNextChar(u: real)
      requires Typing() && 0.0 <= u < 1.0
      modifies this
      ensures Valid() && hasStarted && observing == old(observing)
      ensures if old(index) < |fullTitle| then
                index == old(index) + 1 && typedText == fullTitle[..index] && isTyping &&
                |typedText| == |old(typedText)| + 1 &&
                pending == Some(Timeout(CharDelay(u), TypeNextCharTimer))
              else
                index == old(index) && typedText == old(typedText) && !isTyping && pending == None
    {
      if index < |fullTitle| {
        typedText := Slice(fullTitle, 0, index + 1);
        index := index + 1;
        pending := Some(Timeout(CharDelay(u), TypeNextCharTimer));
      } else {
        isTyping := false;
      }
    }

    /** The observer reports one entry. The first intersecting entry while connected shows
        the prefix, sets typing and schedules the startup callback; every other entry
        changes nothing. No character is typed here. */
    method OnEntry(isIntersecting: bool)
      requires Valid()
      modifies this
      ensures Valid()
      ensures typedText == old(typedText) && index == old(index) && observing == old(observing)
      ensures old(hasStarted) || !old(observing) || !isIntersecting ==> unchanged(this)
      ensures !old(hasStarted) && old(observing) && isIntersecting ==>
                hasStarted && prefixVisible && isTyping && typedText == "" &&
                pending == Some(Timeout(StartupDelay, StartTypingTimer))
    {
      if observing && isIntersecting && !hasStarted {
        hasStarted := true;
        prefixVisible := true;
        isTyping := true;
        pending := Some(Timeout(StartupDelay, StartTypingTimer));
      }
    }

    /** The pending timer, if any, fires: the startup callback resets `index` and types the
        first character, `typeNextChar` types the next one. With no timer pending nothing
        happens. `u` is the value `Math.random()` returns for the next delay. */
    method Tick(u: real)
      requires Valid() && 0.0 <= u < 1.0
      modifies this
      ensures Valid() && prefixVisible == old(prefixVisible) && observing == old(observing)
      ensures old(pending) == None ==> unchanged(this)
      ensures old(pending).Some? ==>
                var typed := if old(pending).value.callback == StartTypingTimer then 0 else old(index);
                if typed < |fullTitle| then
                  index == typed + 1 && typedText == fullTitle[..index] && isTyping &&
                  pending == Some(Timeout(CharDelay(u), TypeNextCharTimer))
                else
                  index == typed && typedText == old(typedText) && !isTyping && pending == None
    {
      match pending {
        case None =>
        case Some(t) =>
          pending := None;
          if t.callback == StartTypingTimer {
            index := 0;
          }
          TypeNextChar(u);
      }
    }

    /** Unmounting disconnects the observer; a pending timer is not cancelled. */
    method Unmount()
      requires Valid()
      modifies this`observing
      ensures Valid() && !observing
    {
      observing := false;
    }
  }

  /** The typed text is always a prefix of the full title, `index` characters long. */
  lemma TypedIsPrefix(h: TypingHeader)
    requires h.Valid()
    ensures |h.typedText| == h.index <= |h.fullTitle|
    ensures h.typedText == h.fullTitle[..|h.typedText|]
  {
  }

  /** The cursor shows exactly while typing with at least one and fewer than all characters typed. */
  lemma CursorIffMidTitle(h: TypingHeader)
    requires h.Valid()
    ensures ShowsCursor(h.isTyping, h.typedText, h.fullTitle) <==> h.isTyping && 0 < h.index < |h.fullTitle|
  {
  }

  /** Once typing has stopped after starting, the whole title has been typed. */
  lemma FinishedShowsTitle(h: TypingHeader)
    requires h.Valid() && h.hasStarted && !h.isTyping
    ensures h.typedText == h.fullTitle && h.index == |h.fullTitle| && h.pending == None
  {
  }

  /** Until the startup timer has fired, nothing is typed and the cursor is hidden. */
  lemma NothingBeforeStartup(h: TypingHeader)
    requires h.Valid() && (h.pending == None || h.pending.value.callback == StartTypingTimer)
    requires !h.hasStarted || h.pending.Some?
    ensures h.typedText == "" && !ShowsCursor(h.isTyping, h.typedText, h.fullTitle)
  {
  }

  /** The "Skills" header of the page, typed out in full. */
  method TypeSkillsHeader() {
    var h := new TypingHeader("EXPERTISE", "Skills", Some("& Stack"));
    assert h.fullTitle == "Skills & Stack";
    h.OnEntry(true);
    assert h.prefixVisible && h.typedText == "";
    h.Tick(0.0);
    assert h.typedText == "S";
    h.OnEntry(true);
    assert h.typedText == "S" && h.pending == Some(Timeout(30.0, TypeNextCharTimer));
  }
}
