# Waitlist form and layout generators of the perfx-web landing page

The landing page (`app/page.tsx`) is mostly animation. Two parts of it have logic that can be stated and proved.

**The waitlist form** (module `Waitlist`, file `waitlist.dfy`). `Home` keeps four pieces of state: `email`, `isSubmitted`, `isSubmitting` and `error`. A keystroke writes `email`. Submitting does four things:

- it returns early when `email` is empty;
- otherwise it sets `isSubmitting` and clears `error`;
- it awaits an insert of `{ email }` into the remote `waitlist` table;
- on success it sets `isSubmitted` and clears `email`, on failure it shows `err.message || "Failed to join waitlist. Please try again."`, and in both cases it resets `isSubmitting`.

While `isSubmitting` is true the input and the button are disabled.

The model has three layers:

- Pure transition functions: `OnChange`, `StartAttempt`, `FinishAttempt`, and `HandleSubmit`, which composes the last two.
- The class `Home`. Its four fields are updated in place by the methods `Edit`, `Begin` (the handler up to the `await`) and `Complete` (the handler after it). Each method's postcondition ties the new fields to the matching transition function.
- A `Session`: a sequence of events (keystrokes, clicks, replies from the insert) together with the list of inserts issued. This layer proves the whole-session properties: single flight, `isSubmitted` never reset, `isSubmitted` only after an acknowledgement, and `isSubmitting` false after every reply.

The insert itself is replaced by an `Outcome`: `Ok`, or `Err(message)` where the message may be missing. `Begin` returns the row the insert is issued for, or `None` when the empty-email guard fires.

**The layout generators** (module `Visuals`, file `visuals.dfy`). `FloatingParticles` and `AnimatedLines` map every index `i` of `0..count-1` to integer fields computed from `i` with `%` by a constant. `RadialCircles` takes no count: it draws a fixed five rings, and ring `i` is `(i + 1) * 20` percent wide and pulses for `5 + i` seconds, with no `%`. The lemmas prove four kinds of fact about them:

- ranges and lengths;
- that a value depends only on its index;
- periodicity;
- that particle columns, particle rows and line offsets are distinct within any 100 consecutive indices.

The distinctness holds because 7, 13 and 17 are invertible modulo 100; for the hero section it follows that the 40 particles share no column or row. Separately, because orientation follows the parity of the index, the hero section's 10 lines split into five horizontal and five vertical.

Two consequences of `app/page.tsx` that the model keeps:

- After a success the form stays usable: the user can type a new address and submit again. Only an immediate resubmit is blocked, by the empty-email guard, because `email` was cleared (app/page.tsx:64, app/page.tsx:79).
- A failure leaves `isSubmitted` unchanged (app/page.tsx:80-84), so it can be true after an earlier success, and both feedback paragraphs can then show at once.

React applies state setters after the handler yields, not at once. The handler never reads a field after setting it; it uses only the `email` captured when the click happened. So applying each setter immediately, as the methods do, gives the same final state.

## Model

| member | source | states |
|---|---|---|
| Waitlist.FailureMessage | app/page.tsx:82 | the shown failure text is never empty: it is the error's own message when that is present and non-empty, otherwise the fixed fallback (JavaScript's or-operator treats `""` as false) |
| Waitlist.OnChange | app/page.tsx:385 | a keystroke sets `email` to the typed text and leaves the other three fields unchanged; it keeps the state invariant |
| Waitlist.StartAttempt | app/page.tsx:62-67 | with an empty email, nothing changes and no insert is issued; otherwise `isSubmitting` is set, `error` is cleared, `email` and `isSubmitted` are kept, and exactly one insert of the current email is issued |
| Waitlist.FinishAttempt | app/page.tsx:69-85 | afterwards `isSubmitting` is false whatever the outcome; `isSubmitted` becomes true exactly on success; success clears `email`; failure keeps `email` and sets a non-empty error message |
| Waitlist.HandleSubmit | app/page.tsx:62-86 | one whole click: an empty email changes no field; success ends in `("", submitted, not submitting, no error)`; failure with message M ends with error M, or with the fallback when M is missing or empty, and keeps `email` and `isSubmitted` |
| Waitlist.Messages | app/page.tsx:406-429 | the feedback shows the thank-you line exactly while `isSubmitted` and the error exactly while it is truthy, thank-you first |
| Waitlist.Home.constructor | app/page.tsx:34-37 | the four fields start at `""`, `false`, `false` and `null` |
| Waitlist.Home.Edit | app/page.tsx:385-387 | the enabled input's `onChange` updates the field in place as `OnChange` says |
| Waitlist.Home.Begin | app/page.tsx:62-67 | the enabled button's handler, up to the `await`, updates the fields and returns the insert as `StartAttempt` says |
| Waitlist.Home.Complete | app/page.tsx:69-85 | the handler after the insert reports back updates the fields as `FinishAttempt` says, keeping the invariant |
| Waitlist.AcknowledgedScenario | app/page.tsx:75-79 | type "a@b.com", submit, the store acknowledges: that row was sent, only the thank-you line shows, and the input is empty |
| Waitlist.RejectedScenario | app/page.tsx:80-84 | type "bad", submit, the store rejects with "duplicate email": only that message shows, the input still holds "bad", and the attempt is over |
| Waitlist.EmptyScenario | app/page.tsx:64 | submitting an empty field sends nothing and leaves every field at its initial value |
| Waitlist.Step | app/page.tsx:385-392 | a keystroke or click while the controls are disabled changes nothing; a reply with no insert in flight changes nothing; a reply to the insert in flight is counted and ends the attempt; only an enabled click on a non-empty field issues an insert, of that field's email, and the list of inserts otherwise stays as it was |
| Waitlist.StepKeepsInvariant | app/page.tsx:62-86 | every event preserves the session invariant |
| Waitlist.RunKeepsInvariant | app/page.tsx:62-86 | any sequence of events preserves the session invariant: consistent state, at most one unanswered insert and only while `isSubmitting`, the unanswered insert is for the email still in the field, no insert for an empty email |
| Waitlist.SingleFlight | app/page.tsx:387-392 | from a fresh page, at most one insert is ever awaiting its reply, and one is awaiting exactly while `isSubmitting` |
| Waitlist.SubmittedNeverReset | app/page.tsx:78 | once `isSubmitted` is true, no sequence of edits, clicks and replies makes it false |
| Waitlist.SubmittedOnlyAfterAck | app/page.tsx:75-78 | `isSubmitted` goes from false to true only if some acknowledgement in the sequence arrived while `isSubmitting`, with exactly one insert then awaiting its reply: the store acknowledged an insert that was issued |
| Waitlist.SettledAfterReply | app/page.tsx:83-85 | after any reply, success or failure, `isSubmitting` is false |
| Waitlist.RetryClearsError | app/page.tsx:66-67 | clicking again after a failure clears the old error at once and starts a new attempt, before that attempt's outcome is known |
| Visuals.ParticleAt | app/page.tsx:765-772 | a particle's start column and row are in [0, 100) and its duration is one of 20, 25, 30, 35 |
| Visuals.DriftOf | app/page.tsx:780-783 | each of the four drift offsets is in [-50, 50) |
| Visuals.FloatingParticles | app/page.tsx:762-774 | exactly `count` particles, the i-th computed from i alone |
| Visuals.ParticlesPrefix | app/page.tsx:763-764 | the particles for a smaller count are a prefix of those for a larger one: a value depends on its index, not on the count |
| Visuals.ParticleDurationCycle | app/page.tsx:769 | the duration is 20 + 5 * (i mod 4) |
| Visuals.ParticlePeriod | app/page.tsx:767-783 | particle i + 100 has the same start, duration and drift as particle i |
| Visuals.ParticleStartDeterminesIndex | app/page.tsx:767-768 | the start column times 43 and the start row times 77 give back the index modulo 100 |
| Visuals.ParticleStartsDistinct | app/page.tsx:767-768 | within any 100 consecutive indices, no two particles share a start column or a start row |
| Visuals.HeroParticlesSpread | app/page.tsx:117 | among the 40 particles of the hero section, starts are pairwise distinct in column and in row |
| Visuals.LineAt | app/page.tsx:820-822 | a line is horizontal exactly at even indices; its offset is in [0, 100) and its duration is in [15, 30), one of 15, 18, 21, 24, 27 |
| Visuals.AnimatedLines | app/page.tsx:817-828 | exactly `count` lines, the i-th computed from i alone |
| Visuals.LinesPrefix | app/page.tsx:816-818 | the lines for a smaller count are a prefix of those for a larger one: a value depends on its index, not on the count |
| Visuals.LinesAlternate | app/page.tsx:820 | neighbouring lines have opposite orientations |
| Visuals.LinePositionsDistinct | app/page.tsx:821 | within any 100 consecutive indices, no two lines share an offset |
| Visuals.HorizontalHalf | app/page.tsx:820 | of `count` lines, exactly (count + 1) / 2 are horizontal |
| Visuals.HeroLinesBalanced | app/page.tsx:110 | of the hero section's 10 lines, five are horizontal and five vertical |
| Visuals.RingAt | app/page.tsx:870-878 | every ring size is a multiple of 20 percent and at least 20, every pulse at least 5 seconds; the five drawn rings stay within 100 percent and under 10 seconds; a ring's size is 20 percentage points per second of pulse beyond 4 |
| Visuals.RingsGrow | app/page.tsx:870-878 | each ring is larger and pulses more slowly than the one inside it |
| Visuals.RadialCircles | app/page.tsx:865-878 | five rings, 20 to 100 percent, all multiples of 20, strictly increasing in size and in duration |
| Visuals.RingsEvenlySpaced | app/page.tsx:870-871 | consecutive rings differ by 20 percentage points |

## Left out

- The remote insert (`app/page.tsx:71-73`) and the whole client module `utils/supabase.ts`. That module reads environment variables, logs a warning when they are missing and calls `createClient`. All of this is foreign library code and I/O. The insert appears only as the `Outcome` passed to `Complete`.
- The `console.error` call in the catch block (`app/page.tsx:81`): logging only.
- A thrown value that is not an object with a `message` property. For `null` or `undefined`, reading `err.message` would itself throw inside the catch. The store reports failures as error objects, so `Err(None)` covers "no message".
- Real concurrency around the `await`. The only guard is the disabled input and button. It appears as the `ControlsEnabled` precondition of `Edit` and `Begin`, and as events that `Step` ignores; there is no lock.
- Email format checking: it is the browser's `type="email" required` validation (`app/page.tsx:382`, `app/page.tsx:386`), not code on this page.
- JSX rendering, framer-motion props, `AnimatePresence`, the scroll spring, the mouse-move listener, `ClientOnly` mount gating and `MonochromeFeatureCard` hover state. These are presentation with no logic to state. The two feedback paragraphs are the exception: they are modelled by `Messages`.
- `MonochromeTradingVisualization`: it is driven by `Math.random` and floating-point prices.
- The floating-point generator fields: particle `size` and `opacity`, line `delay` and `size`, ring `delay` and the `RevealText` delays. These are float arithmetic.
- The default arguments `count = 20` of `FloatingParticles` (app/page.tsx:760) and `count = 5` of `AnimatedLines` (app/page.tsx:815): every call site passes an explicit count (app/page.tsx:110, app/page.tsx:117), so the defaults are never used.
- `e.preventDefault()` (app/page.tsx:63): it stops the browser's own form navigation and touches none of the four fields.
- Integer width: indices are unbounded integers here. JavaScript computes `i * 29` exactly only below 2^53, far beyond any count the page uses.
