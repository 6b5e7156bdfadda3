/** The `TypingText` component: it splits its text into fixed-size tokens and,
    once the element first intersects the viewport, streams them one token per
    timer tick, so that the shown text grows like a live-generated feed. */
module TypingText {
  import opened Js

  // ---------------------------------------------------------------------------
  // Chunking the text into tokens
  // ---------------------------------------------------------------------------

  /** The tokens the chunking loop pushes once its counter has reached `i`:
      `text.slice(i, i + size)`, then the rest from `i + size`. */
  function ChunksFrom(text: string, size: nat, i: nat): (r: seq<string>)
    requires size >= 1
    decreases |text| - i
  {
    if i < |text| then [Slice(text, i, i + size)] + ChunksFrom(text, size, i + size) else []
  }

  /** All tokens of `text` for token size `size`. */
  function Chunks(text: string, size: nat): (r: seq<string>)
    requires size >= 1
  {
    ChunksFrom(text, size, 0)
  }

  /** The chunking loop: `for (i = 0; i < text.length; i += tokenSize) tokens.push(text.slice(i, i + tokenSize))`.
      It does not terminate for a token size of zero or less on a non-empty text. */
  method Tokenize(text: string, tokenSize: nat) returns (tokens: seq<string>)
    requires tokenSize >= 1
    ensures tokens == Chunks(text, tokenSize)
  {
    tokens := [];
    var i: nat := 0;
    while i < |text|
      invariant tokens + ChunksFrom(text, tokenSize, i) == Chunks(text, tokenSize)
      decreases |text| - i
    {
      tokens := tokens + [Slice(text, i, i + tokenSize)];
      i := i + tokenSize;
    }
  }

  /** Token `k` (counted from `i`) is the slice of `text` that starts `k` tokens after `i`. */
  lemma {:induction false} ChunksFromAt(text: string, size: nat, i: nat, k: nat)
    requires size >= 1 && k < |ChunksFrom(text, size, i)|
    ensures i + k * size < |text|
    ensures ChunksFrom(text, size, i)[k] == Slice(text, i + k * size, i + k * size + size)
    decreases k
  {
    if k == 0 {
      assert k * size == 0;
    } else {
      ChunksFromAt(text, size, i + size, k - 1);
      MulStep(k - 1, size);
    }
  }

  lemma MulStep(k: int, size: int)
    ensures (k + 1) * size == k * size + size
  {
  }

  /** Concatenating the tokens from `i` on gives back the text from `i` on. */
  lemma {:induction false} ChunksFromJoin(text: string, size: nat, i: nat)
    requires size >= 1 && i <= |text|
    ensures Join(ChunksFrom(text, size, i)) == text[i..]
    decreases |text| - i
  {
    if i < |text| {
      if i + size <= |text| {
        ChunksFromJoin(text, size, i + size);
        assert Slice(text, i, i + size) == text[i..i + size];
        assert text[i..] == text[i..i + size] + text[i + size..];
      } else {
        assert Slice(text, i, i + size) == text[i..];
      }
    }
  }

  /** Concatenating the tokens in order reconstructs the text exactly. */
  lemma ChunksJoin(text: string, size: nat)
    requires size >= 1
    ensures Join(Chunks(text, size)) == text
  {
    ChunksFromJoin(text, size, 0);
  }

  /** The count `c` of tokens from `i` is the least `c` with `c * size` covering the rest of the text. */
  lemma {:induction false} ChunksFromCount(text: string, size: nat, i: nat)
    requires size >= 1 && i <= |text|
    ensures (|ChunksFrom(text, size, i)| - 1) * size < |text| - i <= |ChunksFrom(text, size, i)| * size
    decreases |text| - i
  {
    var c := |ChunksFrom(text, size, i)|;
    if i < |text| {
      if i + size <= |text| {
        ChunksFromCount(text, size, i + size);
        assert c == |ChunksFrom(text, size, i + size)| + 1;
        MulStep(c - 1, size);
        MulStep(c - 2, size);
      } else {
        assert c == 1;
      }
    }
  }

  /** A quotient is fixed by the interval its dividend lies in. */
  lemma DivBetween(m: int, d: int, q: int)
    requires d >= 1 && q * d <= m < q * d + d
    ensures m / d == q
  {
    var r := m / d;
    assert m == r * d + m % d;
    if r < q {
      MulMonotone(r, q - 1, d);
    } else if r > q {
      MulMonotone(q + 1, r, d);
    }
  }

  lemma MulMonotone(a: int, b: int, d: int)
    requires a <= b && d >= 0
    ensures a * d <= b * d
  {
    assert b * d - a * d == (b - a) * d;
  }

  /** There are ⌈|text| / size⌉ tokens, and there are none exactly when the text is empty. */
  lemma ChunkCount(text: string, size: nat)
    requires size >= 1
    ensures |Chunks(text, size)| == (|text| + size - 1) / size
    ensures |Chunks(text, size)| == 0 <==> text == ""
  {
    var c := |Chunks(text, size)|;
    ChunksFromCount(text, size, 0);
    assert c * size == (c - 1) * size + size;
    DivBetween(|text| + size - 1, size, c);
  }

  /** Every token is non-empty and at most `size` long, and every token but the last is exactly `size` long. */
  lemma ChunkLengths(text: string, size: nat)
    requires size >= 1
    ensures forall k :: 0 <= k < |Chunks(text, size)| ==> 1 <= |Chunks(text, size)[k]| <= size
    ensures forall k :: 0 <= k < |Chunks(text, size)| - 1 ==> |Chunks(text, size)[k]| == size
  {
    var cs := Chunks(text, size);
    forall k | 0 <= k < |cs|
      ensures 1 <= |cs[k]| <= size
      ensures k < |cs| - 1 ==> |cs[k]| == size
    {
      ChunksFromAt(text, size, 0, k);
      if k < |cs| - 1 {
        ChunksFromAt(text, size, 0, k + 1);
        assert (k + 1) * size == k * size + size;
      }
    }
  }

  /** Token `k` is the stretch of the text from `k·size` to `(k + 1)·size`, cut at the end of the text. */
  lemma ChunkSpan(text: string, size: nat, k: nat)
    requires size >= 1 && k < |Chunks(text, size)|
    ensures k * size < |text|
    ensures Chunks(text, size)[k] == text[k * size..Min(k * size + size, |text|)]
  {
    ChunksFromAt(text, size, 0, k);
  }

  /** The join of the first `k` tokens is the prefix of the text of length min(k·size, |text|). */
  lemma {:induction false} JoinedPrefix(text: string, size: nat, k: nat)
    requires size >= 1 && k <= |Chunks(text, size)|
    ensures Join(Chunks(text, size)[..k]) == text[..Min(k * size, |text|)]
    decreases k
  {
    var cs := Chunks(text, size);
    if k > 0 {
      JoinedPrefix(text, size, k - 1);
      assert cs[..k] == cs[..k - 1] + [cs[k - 1]];
      JoinAppend(cs[..k - 1], cs[k - 1]);
      ChunkSpan(text, size, k - 1);
      MulStep(k - 1, size);
      var lo, hi := (k - 1) * size, Min(k * size, |text|);
      assert text[..hi] == text[..lo] + text[lo..hi];
    }
  }

  // ---------------------------------------------------------------------------
  // Timing and the cursor
  // ---------------------------------------------------------------------------

  /** The delay before the next token, `Math.random() * (speed.max - speed.min) + speed.min`,
      where `u` is the value `Math.random()` returned. */
  function TokenDelay(u: real, speedMin: real, speedMax: real): (d: real)
    requires 0.0 <= u < 1.0
    ensures speedMin <= speedMax ==> speedMin <= d <= speedMax && (speedMin < speedMax ==> d < speedMax)
    ensures speedMax <= speedMin ==> speedMax <= d <= speedMin
  {
    Scale(u, speedMax - speedMin) + speedMin
  }

  /** `u * w` for a factor `u` in [0, 1): it lies between 0 and `w`, short of `w` unless `w` is 0. */
  function Scale(u: real, w: real): (r: real)
    requires 0.0 <= u < 1.0
    ensures w >= 0.0 ==> 0.0 <= r <= w && (w > 0.0 ==> r < w)
    ensures w <= 0.0 ==> w <= r <= 0.0
  {
    if w >= 0.0 then
      ProductNonNegative(1.0 - u, w); ProductNonNegative(u, w); u * w
    else
      ProductNonNegative(1.0 - u, -w); ProductNonNegative(u, -w); u * w
  }

  lemma ProductNonNegative(a: real, b: real)
    requires a >= 0.0 && b >= 0.0
    ensures a * b >= 0.0
  {
  }

  /** The blinking cursor is rendered while typing, once something and not yet everything is shown. */
  predicate ShowsCursor(isTyping: bool, displayText: string, text: string) {
    isTyping && |displayText| < |text| && |displayText| > 0
  }

  // ---------------------------------------------------------------------------
  // The component
  // ---------------------------------------------------------------------------

  /** The `speed` prop: the range, in milliseconds, each token's delay is drawn from. */
  datatype Speed = Speed(min: real, max: real)

  /** The `speed` prop's default. */
  const DefaultSpeed := Speed(10.0, 30.0)

  /** The callbacks this component hands to `setTimeout`. */
  datatype Callback = StartTypingTimer | StreamTimer

  /** A scheduled `setTimeout(callback, delay)`. */
  datatype Timeout = Timeout(delay: real, callback: Callback)

  /** One mounted `TypingText`. Its props are constants; `displayText` and `isTyping` are its
      React state, `hasStarted` is `hasStartedRef.current`, `observing` says whether its
      intersection observer is connected, `tokens` and `tokenIndex` are the variables of the
      `startTyping` closure, and `pending` is the one timer, if any, that is scheduled. */
  class TypingText {
    const text: string
    const tokenSize: nat
    const delay: real
    const speedMin: real
    const speedMax: real

    var displayText: string
    var isTyping: bool
    var hasStarted: bool
    var observing: bool
    var tokens: seq<string>
    var tokenIndex: nat
    var pending: Option<Timeout>

    /** A delay the streaming timer can be scheduled with. */
    predicate InSpeedRange(d: real) {
      (speedMin <= d <= speedMax) || (speedMax <= d <= speedMin)
    }

    ghost predicate Valid()
      reads this
    {
      && tokenSize >= 1
      && (tokens == [] || tokens == Chunks(text, tokenSize))
      && tokenIndex <= |tokens|
      && displayText == Join(tokens[..tokenIndex])
      && (!hasStarted ==> !isTyping && pending == None && tokens == [] && tokenIndex == 0)
      && (hasStarted ==>
            match pending
            case None => tokens == Chunks(text, tokenSize) && tokenIndex == |tokens| && !isTyping
            case Some(t) =>
              isTyping &&
              match t.callback
              case StartTypingTimer => t.delay == delay && delay > 0.0 && tokens == [] && tokenIndex == 0
              case StreamTimer => tokens == Chunks(text, tokenSize) && 1 <= tokenIndex && InSpeedRange(t.delay))
    }

    /** The state just before `startTyping` runs. */
    ghost predicate Starting()
      reads this
    {
      tokenSize >= 1 && hasStarted && isTyping && pending == None &&
      tokens == [] && tokenIndex == 0 && displayText == ""
    }

    /** The state just before `streamNextToken` runs. */
    ghost predicate Streaming()
      reads this
    {
      tokenSize >= 1 && hasStarted && isTyping && pending == None &&
      tokens == Chunks(text, tokenSize) && tokenIndex <= |tokens| &&
      displayText == Join(tokens[..tokenIndex])
    }

    /** Mounting with the given props, an omitted prop taking its default: a token size of 3,
        no start delay, and a speed range of 10 to 30 ms. Nothing is shown, the component is not
        typing, has not started, and its observer is connected. */
    constructor (text: string, tokenSize: Option<nat>, delay: Option<real>, speed: Option<Speed>)
      requires tokenSize.GetOr(3) >= 1
      ensures Valid()
      ensures this.text == text && this.tokenSize == tokenSize.GetOr(3) && this.delay == delay.GetOr(0.0)
      ensures this.speedMin == speed.GetOr(DefaultSpeed).min && this.speedMax == speed.GetOr(DefaultSpeed).max
      ensures tokenSize == None ==> this.tokenSize == 3
      ensures delay == None ==> this.delay == 0.0
      ensures speed == None ==> this.speedMin == 10.0 && this.speedMax == 30.0
      ensures displayText == "" && !isTyping && !hasStarted && observing && pending == None
    {
      this.text := text;
      this.tokenSize := tokenSize.GetOr(3);
      this.delay := delay.GetOr(0.0);
      this.speedMin := speed.GetOr(DefaultSpeed).min;
      this.speedMax := speed.GetOr(DefaultSpeed).max;
      displayText := "";
      isTyping := false;
      hasStarted := false;
      observing := true;
      tokens := [];
      tokenIndex := 0;
      pending := None;
    }

    /** `streamNextToken`: show one more token and schedule the next step, or stop typing.
        `u` is the value `Math.random()` returns for the next delay. */
    method StreamNextToken(u: real)
      requires Streaming() && 0.0 <= u < 1.0
      modifies this
      ensures Valid() && hasStarted && tokens == old(tokens) && observing == old(observing)
      ensures if old(tokenIndex) < |tokens| then
                tokenIndex == old(tokenIndex) + 1 && isTyping &&
                displayText == text[..Min(tokenIndex * tokenSize, |text|)] &&
                pending == Some(Timeout(TokenDelay(u, speedMin, speedMax), StreamTimer))
              else
                tokenIndex == old(tokenIndex) && displayText == old(displayText) &&
                !isTyping && pending == None
    {
      if tokenIndex < |tokens| {
        displayText := Join(tokens[..tokenIndex + 1]);
        tokenIndex := tokenIndex + 1;
        pending := Some(Timeout(TokenDelay(u, speedMin, speedMax), StreamTimer));
        JoinedPrefix(text, tokenSize, tokenIndex);
      } else {
        isTyping := false;
      }
    }

    /** `startTyping`: chunk the text, then take the first streaming step at once. */
    method StartTyping(u: real)
      requires Starting() && 0.0 <= u < 1.0
      modifies this
      ensures Valid() && hasStarted && observing == old(observing)
      ensures tokens == Chunks(text, tokenSize) && tokenIndex == Min(1, |tokens|)
      ensures displayText == text[..Min(tokenSize, |text|)]
      ensures isTyping == (text != "")
      ensures pending == if text == "" then None else Some(Timeout(TokenDelay(u, speedMin, speedMax), StreamTimer))
    {
      tokens := Tokenize(text, tokenSize);
      tokenIndex := 0;
      ChunkCount(text, tokenSize);
      StreamNextToken(u);
    }

    /** The observer reports one entry. The first intersecting entry while connected starts
        the stream, after `delay` when it is positive and at once otherwise; every other entry
        changes nothing. `u` is the value `Math.random()` returns if a delay is drawn. */
    method OnEntry(isIntersecting: bool, u: real)
      requires Valid() && 0.0 <= u < 1.0
      modifies this
      ensures Valid()
      ensures hasStarted == (old(hasStarted) || (old(observing) && isIntersecting))
      ensures observing == old(observing)
      ensures old(hasStarted) || !old(observing) || !isIntersecting ==> unchanged(this)
      ensures !old(hasStarted) && old(observing) && isIntersecting ==>
                if delay > 0.0 then
                  isTyping && displayText == "" && pending == Some(Timeout(delay, StartTypingTimer))
                else
                  tokens == Chunks(text, tokenSize) && tokenIndex == Min(1, |tokens|) &&
                  displayText == text[..Min(tokenSize, |text|)] && isTyping == (text != "") &&
                  pending == if text == "" then None else Some(Timeout(TokenDelay(u, speedMin, speedMax), StreamTimer))
    {
      if observing && isIntersecting && !hasStarted {
        hasStarted := true;
        isTyping := true;
        if delay > 0.0 {
          pending := Some(Timeout(delay, StartTypingTimer));
        } else {
          StartTyping(u);
        }
      }
    }

    /** The pending timer, if any, fires: `startTyping` or `streamNextToken` runs. With no timer
        pending nothing happens. `u` is the value `Math.random()` returns for the next delay. */
    method Tick(u: real)
      requires Valid() && 0.0 <= u < 1.0
      modifies this
      ensures Valid()
      ensures old(pending) == None ==> unchanged(this)
      ensures old(pending).Some? ==>
                hasStarted && observing == old(observing) && tokens == Chunks(text, tokenSize)
      ensures old(pending).Some? ==>
                var emitted := if old(pending).value.callback == StartTypingTimer then 0 else old(tokenIndex);
                if emitted < |tokens| then
                  tokenIndex == emitted + 1 && isTyping &&
                  displayText == text[..Min(tokenIndex * tokenSize, |text|)] &&
                  pending == Some(Timeout(TokenDelay(u, speedMin, speedMax), StreamTimer))
                else
                  tokenIndex == emitted && displayText == old(displayText) &&
                  !isTyping && pending == None
    {
      match pending {
        case None =>
        case Some(t) =>
          pending := None;
          if t.callback == StartTypingTimer {
            StartTyping(u);
          } else {
            StreamNextToken(u);
          }
      }
    }

    /** Unmounting disconnects the observer; a pending timer is not cancelled. */
    method Unmount()
      requires Valid()
      modifies this`observing
      ensures Valid() && !observing
    {
      observing := false;
    }
  }

  // ---------------------------------------------------------------------------
  // What every reachable state guarantees
  // ---------------------------------------------------------------------------

  /** The shown text is the prefix of the text of length min(tokenIndex·tokenSize, |text|). */
  lemma DisplayIsPrefix(t: TypingText)
    requires t.Valid()
    ensures |t.displayText| == Min(t.tokenIndex * t.tokenSize, |t.text|)
    ensures t.displayText == t.text[..|t.displayText|]
  {
    if t.tokens != [] {
      JoinedPrefix(t.text, t.tokenSize, t.tokenIndex);
    }
  }

  /** The cursor shows exactly while typing with at least one and fewer than all tokens shown:
      never before the first token, never once the text is complete. */
  lemma CursorIffMidStream(t: TypingText)
    requires t.Valid()
    ensures ShowsCursor(t.isTyping, t.displayText, t.text) <==> t.isTyping && 0 < t.tokenIndex < |t.tokens|
  {
    DisplayIsPrefix(t);
    if t.tokens != [] {
      var c, k, size := |t.tokens|, t.tokenIndex, t.tokenSize;
      assert t.tokens == Chunks(t.text, size);
      ChunksFromCount(t.text, size, 0);
      if k < c {
        MulMonotone(k, c - 1, size);
      }
      if 0 < k {
        MulMonotone(1, k, size);
      }
    }
  }


  /** Once typing has stopped after starting, every token has been emitted, one per step, and the whole text shows. */
  lemma FinishedShowsAll(t: TypingText)
    requires t.Valid() && t.hasStarted && !t.isTyping
    ensures t.tokenIndex == |Chunks(t.text, t.tokenSize)| == (|t.text| + t.tokenSize - 1) / t.tokenSize
    ensures t.displayText == t.text && t.pending == None
  {
    ChunkCount(t.text, t.tokenSize);
    ChunksFromCount(t.text, t.tokenSize, 0);
    DisplayIsPrefix(t);
  }

  /** "hello world" in tokens of three, streamed without a start delay. */
  method StreamHelloWorld() {
    var t := new TypingText("hello world", None, None, Some(Speed(10.0, 30.0)));
    t.OnEntry(true, 0.5);
    assert t.displayText == "hel";
    t.Tick(0.5);
    assert t.displayText == "hello ";
    t.Tick(0.5);
    assert t.displayText == "hello wor";
    t.Tick(0.5);
    assert t.displayText == "hello world" && t.isTyping;
    t.Tick(0.5);
    assert t.displayText == "hello world" && !t.isTyping && t.pending == None;
  }
}
