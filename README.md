# Text-reveal and scroll-reveal components of a portfolio site, in Dafny

This project models the three components of the portfolio page that have behaviour worth stating:

- **TypingText** splits its text into tokens of `tokenSize` characters. When its element first intersects the viewport, it streams the tokens one per timer tick. After an optional start delay, the shown text (`displayText`) grows by one token per step. `isTyping` clears after the last token.
- **TypingHeader** builds a title from `title` and an optional `suffix`. On the first intersection it fades in its prefix. After a fixed 300 ms startup timer it types the title one character per tick.
- **ScrollReveal / StaggerReveal** keep a one-way `isVisible` latch. The first intersecting entry sets it and disconnects the observer. ScrollReveal picks a hidden or visible animation target from a four-direction table. StaggerReveal wraps each child and delays child `i` by `i · staggerDelay`.

Each component's state is a class. Its fields are the React state, the `hasStartedRef` latch, the variables captured by the timer closures, whether the observer is connected, and the one pending `setTimeout`. Browser events are method calls:

- `OnEntry(isIntersecting)` is an intersection entry.
- `Tick(u)` is the pending timer firing. With no timer pending it does nothing.
- `Unmount()` is the effect's final cleanup, when the component unmounts.

`u` is the value `Math.random()` returned for the next delay. It is an input with `0 <= u < 1`. Each class has a `Valid()` invariant stating what every reachable state satisfies. The lemmas after each class derive the component's promises from that invariant.

Files:

- `js.dfy`: `Js`, holding `String.prototype.slice`, `Array.prototype.join('')` and optional props.
- `typing_text.dfy`: `TypingText`.
- `typing_header.dfy`: `TypingHeader`.
- `scroll_reveal.dfy`: `ScrollReveal`.

Pending typing timers are not cancelled on unmount: the cleanup only disconnects the observer (TypingText.tsx:71, TypingHeader.tsx:57). `Unmount` leaves the pending timer in place, and a later `Tick` still runs it.

## Model

| member | source | states |
|---|---|---|
| `TypingText.ChunksFrom` | app/components/TypingText.tsx:35-38 | the tokens the loop pushes from counter `i` on: `text.slice(i, i + size)`, then those from `i + size` |
| `TypingText.Chunks` | app/components/TypingText.tsx:35-38 | the whole token list the loop builds, starting from counter 0 |
| `TypingText.ChunkSpan` | app/components/TypingText.tsx:37 | token `k` starts inside the text and is the text from `k·size` to `(k + 1)·size`, cut at the end |
| `TypingText.ShowsCursor` | app/components/TypingText.tsx:77 | the cursor is rendered while typing with a shown text that is non-empty and shorter than the text |
| `TypingText.Tokenize` | app/components/TypingText.tsx:35-38 | the chunking loop returns exactly the token list `Chunks(text, tokenSize)` |
| `TypingText.ChunksFromAt` | app/components/TypingText.tsx:37 | token `k` is `text.slice(k·size, k·size + size)` and starts inside the text |
| `TypingText.ChunksFromJoin` | app/components/TypingText.tsx:35-38 | the tokens pushed from loop counter `i` on concatenate to `text[i..]` |
| `TypingText.ChunksJoin` | app/components/TypingText.tsx:35-38 | joining all tokens in order gives back `text` exactly |
| `TypingText.ChunksFromCount` | app/components/TypingText.tsx:36 | the token count `c` from counter `i` is the least `c` with `c·size` covers the text from `i` on |
| `TypingText.ChunkCount` | app/components/TypingText.tsx:36 | there are ⌈length of text / tokenSize⌉ tokens, and none exactly when the text is empty |
| `TypingText.ChunkLengths` | app/components/TypingText.tsx:36-37 | every token is non-empty and at most `tokenSize` long; all but the last are exactly `tokenSize` long |
| `TypingText.JoinedPrefix` | app/components/TypingText.tsx:44 | the join of the first `k` tokens is the prefix of `text` of length min(k·tokenSize, length of text) |
| `TypingText.TokenDelay` | app/components/TypingText.tsx:47 | the next token's delay lies between `speed.min` and `speed.max`, short of `max` when `min < max` |
| `TypingText.Scale` | app/components/TypingText.tsx:47 | a random fraction of a span lies between 0 and the span |
| `TypingText.TypingText.constructor` | app/components/TypingText.tsx:13-23 | omitted props take their defaults (`tokenSize` 3, `delay` 0, `speed` 10 to 30 ms); a mounted component shows nothing, is not typing, has not started, and observes |
| `TypingText.TypingText.StreamNextToken` | app/components/TypingText.tsx:42-52 | while tokens remain: `tokenIndex` grows by exactly 1, the shown text becomes the next longer prefix, and the next step is scheduled with a delay in the speed range; otherwise `isTyping` clears and nothing is scheduled |
| `TypingText.TypingText.StartTyping` | app/components/TypingText.tsx:33-55 | tokenizes the text and takes the first step at once; for an empty text `isTyping` is false right away and nothing is shown |
| `TypingText.TypingText.OnEntry` | app/components/TypingText.tsx:27-62 | only the first intersecting entry starts the stream: at once when `delay ≤ 0`, otherwise by scheduling `startTyping` after `delay`; the observer stays connected either way; a non-intersecting entry, or any entry once started, changes nothing |
| `TypingText.TypingText.Tick` | app/components/TypingText.tsx:42-58 | a firing timer runs `startTyping` or `streamNextToken`, with the effects above; with no timer pending nothing changes |
| `TypingText.TypingText.Unmount` | app/components/TypingText.tsx:71 | cleanup disconnects the observer and leaves the rest of the state as it was, the pending timer included |
| `TypingText.DisplayIsPrefix` | app/components/TypingText.tsx:44 | in every reachable state the shown text is the prefix of `text` of length min(tokenIndex·tokenSize, length of text) |
| `TypingText.CursorIffMidStream` | app/components/TypingText.tsx:77 | the cursor shows iff typing and 0 < tokenIndex < number of tokens: never before the first token or after the last |
| `TypingText.FinishedShowsAll` | app/components/TypingText.tsx:43-51 | once typing has stopped after starting, exactly ⌈length of text / tokenSize⌉ tokens were emitted and the whole text shows |
| `Js.Slice` | app/components/TypingText.tsx:37 | `slice` clamps both bounds to the string and returns the characters between them |
| `Js.Join` | app/components/TypingText.tsx:44 | `join('')`: the parts concatenated in order |
| `Js.JoinAppend` | app/components/TypingText.tsx:44 | joining one more token appends it to the joined prefix |
| `TypingHeader.FullTitle` | app/components/TypingHeader.tsx:20 | the title is a prefix of the full title; the full title is longer exactly when a non-empty suffix is given, and then continues with a space and the suffix |
| `TypingHeader.StartupDelay` | app/components/TypingHeader.tsx:47 | the first character waits for a fixed 300 ms timer |
| `TypingHeader.ShowsCursor` | app/components/TypingHeader.tsx:74 | the cursor is rendered while typing with a typed text that is non-empty and shorter than the full title |
| `TypingHeader.CharDelay` | app/components/TypingHeader.tsx:39 | every per-character delay lies in [30, 80) ms |
| `TypingHeader.TypingHeader.constructor` | app/components/TypingHeader.tsx:14-20 | a mounted header has typed nothing, hides its prefix, is not typing, has not started, and observes |
| `TypingHeader.TypingHeader.OnEntry` | app/components/TypingHeader.tsx:23-48 | the first intersecting entry sets the latch, shows the prefix, sets typing and schedules the 300 ms startup timer, typing no character, and keeps the observer connected; every other entry changes nothing |
| `TypingHeader.TypingHeader.TypeNextChar` | app/components/TypingHeader.tsx:34-44 | while characters remain, the typed text grows by exactly one character to `fullTitle[..index]`, and the next step gets a delay in [30, 80); otherwise `isTyping` clears |
| `TypingHeader.TypingHeader.Tick` | app/components/TypingHeader.tsx:31-47 | the startup timer resets `index` and types the first character; a character timer types the next; `prefixVisible` never changes back |
| `TypingHeader.TypingHeader.Unmount` | app/components/TypingHeader.tsx:57 | cleanup disconnects the observer and leaves the pending timer in place |
| `TypingHeader.TypedIsPrefix` | app/components/TypingHeader.tsx:35-37 | in every reachable state the typed text is `fullTitle[..index]` |
| `TypingHeader.CursorIffMidTitle` | app/components/TypingHeader.tsx:74 | the cursor shows iff typing and 0 < index < length of fullTitle |
| `TypingHeader.FinishedShowsTitle` | app/components/TypingHeader.tsx:34-44 | once typing has stopped after starting, the whole title is typed after exactly one step per character |
| `TypingHeader.NothingBeforeStartup` | app/components/TypingHeader.tsx:25-31 | before the 300 ms startup timer fires nothing is typed and no cursor shows |
| `ScrollReveal.VariantsFor` | app/components/ScrollReveal.tsx:40-45 | every direction's visible target is opacity 1 at offset 0; its hidden target is opacity 0, 60 units off on the same axis (y for up/down, x for left/right) |
| `ScrollReveal.RevealTravel` | app/components/ScrollReveal.tsx:41-44 | the hidden offsets are y +60 (up), y -60 (down), x -60 (left), x +60 (right) |
| `ScrollReveal.Render` | app/components/ScrollReveal.tsx:16-53 | the direction defaults to up and the delay to 0; the content starts hidden, shows the visible target iff `isVisible`, and gets the delay unchanged |
| `ScrollReveal.InitiallyHidden` | app/components/ScrollReveal.tsx:50-51 | before the latch fires the content is transparent, and by default 60 units below its place |
| `ScrollReveal.StaggerChildren` | app/components/ScrollReveal.tsx:61-98 | `staggerDelay` defaults to 0.1; one wrapper per child, in the original order, keyed by index, hidden at {opacity 0, y 30} until visible at {opacity 1, y 0}, with delay i·staggerDelay |
| `ScrollReveal.StaggerCascade` | app/components/ScrollReveal.tsx:98 | the first child starts at once and each next child starts `staggerDelay` later |
| `ScrollReveal.RevealLatch.constructor` | app/components/ScrollReveal.tsx:19 | `isVisible` starts false, with the observer connected |
| `ScrollReveal.RevealLatch.OnEntry` | app/components/ScrollReveal.tsx:24-28 | an intersecting entry sets `isVisible` and disconnects; a non-intersecting entry leaves `isVisible` as it was; nothing sets it back to false |
| `ScrollReveal.RevealLatch.Unmount` | app/components/ScrollReveal.tsx:37 | cleanup disconnects the observer and keeps the flag |

## Left out

- The passage of time is not modelled. Each timer records its delay, and `Tick` fires the one pending timer whenever the environment chooses. At most one timer per component is ever pending in the source.
- The `Math.random()` generator is not modelled. Its result is the input `u`, bounded to [0, 1).
- IntersectionObserver thresholds (0.1 and 0.3) and the `-100px` bottom root margin are not modelled. An entry is only its `isIntersecting` flag. The source reads only the first entry of each batch.
- An effect re-subscribing when its dependencies change is not modelled. The effect re-runs whenever a dependency changes identity. An omitted `speed` is a new default object on every render (TypingText.tsx:17, a dependency at TypingText.tsx:72). So after each state update the observer is disconnected and a new one connected. Once `hasStartedRef` is set, the new observers' entries change nothing. The model keeps one observer per mount, and `Unmount` is the final cleanup. TypingHeader depends only on the string `fullTitle` (TypingHeader.tsx:58), and ScrollReveal and StaggerReveal have no dependencies, so for these there is one observer per mount.
- The case where `ref.current` is null and nothing is observed is not modelled.
- TypingText.TypingText.constructor: requires `tokenSize >= 1`. The source accepts any number, but its chunking loop never ends for `tokenSize <= 0` on a non-empty text. Fractional token sizes are not modelled.
- TokenDelay, CharDelay, StaggerCascade: JavaScript numbers are IEEE doubles, and the model uses exact reals. The delay bounds and the cascade hold of exact reals, not of double rounding. For example, `Math.random()` may return 1 − 2⁻⁵³, and then `Math.random() * 50 + 30` rounds to exactly 80. Likewise `6 * 0.1` differs from `5 * 0.1 + 0.1` in doubles.
- Strings are sequences of `char`. JavaScript's UTF-16 code units and surrogate pairs are not modelled.
- framer-motion animation is not modelled: durations are recorded, while easing curves and interpolation are not. The prefix fade is modelled only as `prefixVisible`.
- Rendering of children, class names and styling is not modelled. Children are opaque values of a type parameter.
- React's batching of state updates and re-render scheduling are not modelled. Each state setter takes effect at once.
- A timer that fires after unmount still updates the model's state. React would drop that update on an unmounted component.
