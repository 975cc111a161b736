# LoveConfession: a verified model of the interaction state machine

The repository's only logic is the `LoveConfession` React component. It shows a
question with a "Yes" button and a "No" button. The "No" button evades the user
over a fixed run of stages:

- `initial`
- `chase`
- `first-click`
- `second-click`
- `third-click`
- `final-takeover`
- `happy-ending`

The stages come with timed effects: glitch, wink, background flash and
confetti. Two classes on the document body are switched on in the last stage
before the takeover and off again.

This project models that component in Dafny.

- `types.dfy` (`Types`): the stage enum, the "No" button record
  `{id, x, y, size, text, isReal}`, confetti pieces (the id only), and the
  timeouts the component schedules.
- `buttons.dfy` (`Buttons`): the button layouts of each stage. It has the
  five-button decoy scatter and the loop that builds it, `find` by id, and the
  `filter` a decoy click applies, with their lemmas.
- `effects.dfy` (`Effects`): the effect durations (500, 1500, 3000 and 100 ms)
  and the 50-piece confetti loop.
- `machine.dfy` (`Machine`):
  - the component's state as a value;
  - one pure function per handler;
  - the flash effect keyed on the stage;
  - a routed button click and a timeout firing;
  - the invariant `Valid` and the lemmas that every event preserves it. It
    says which buttons fit each stage (one in 'initial', 'chase',
    'first-click' and 'third-click', one to five in 'second-click', none at
    the end), that exactly one of them is real whenever there is any, that
    ids are distinct, and that every effect flag that is on has the timeout
    that clears it pending;
  - the lemmas that state each transition.
- `views.dfy` (`Views`): the character image, the heading (as an opaque
  token), the heading class (with JavaScript's `trim` written out) and the
  background class.
- `component.dfy` (`Component`): the class `LoveConfession`. Its fields are the
  component's state. It has one method per handler, and each method is proved
  to perform its `Machine` transition. Walk-throughs of a fresh component end
  the file.

Random positions come from an injected oracle. `Hover` takes one `Position`.
`NoClick` takes `draw: nat -> Position`, where `draw(i)` is the `i`-th position
the handler asks for. A timeout firing is an explicit event, `Expire(k)`, on
the list of timeouts still pending. The body classes are the booleans `tilt`
and `corruptedCursor`. The background flash is the boolean `flashed`.

Notes on what the code does, which the model follows:
- The flash fires when the stage becomes `second-click`, not when it becomes
  `third-click`.
- Hover moves the button only once, from `initial` to `chase`. In `chase` and
  later stages, hovering does nothing.
- The decoy filter (`handleFakeButtonClick`) removes every button with the
  given id, with no check of `isReal`. A real button is never removed only
  because of the routing at line 268, which sends real buttons to
  `handleNoButtonClick`. `Machine.DecoyClick` proves this for routed clicks.
- Timeouts are raw timers, not restarted when an effect fires again. A second
  "Yes" click has its confetti cleared by the first click's timeout, shown by
  `Machine.StaleConfettiClear`.
- Positions are not clamped. Nothing in the model bounds them.
- "Yes" is rendered in every stage, `final-takeover` included, and it leads to
  `happy-ending` from every stage.

## Model

| member | source | states |
|---|---|---|
| Buttons.Find | src/components/LoveConfession.tsx:78 | a found button is in the list and carries the id; nothing is found exactly when no button has the id |
| Buttons.FindFirst | src/components/LoveConfession.tsx:78 | the lookup returns the first button with the id |
| Buttons.FindUnique | src/components/LoveConfession.tsx:78 | with distinct ids the lookup returns the one button with that id |
| Buttons.RemoveId | src/components/LoveConfession.tsx:148 | the filter keeps exactly the buttons whose id differs; an id no button has leaves the list unchanged |
| Buttons.RemoveIdAppend | src/components/LoveConfession.tsx:148 | the filter distributes over concatenation, so kept buttons stay in order |
| Buttons.RemoveIdAt | src/components/LoveConfession.tsx:148 | with distinct ids, removing button k's id removes exactly button k and keeps the rest in order |
| Buttons.RemoveIdIdempotent | src/components/LoveConfession.tsx:148 | filtering twice by the same id is filtering once |
| Buttons.RemoveIdRealCount | src/components/LoveConfession.tsx:148 | the filter never adds a real button, and keeps the real count when the id names no real button |
| Buttons.RemoveIdDistinct | src/components/LoveConfession.tsx:148 | the filter keeps ids distinct |
| Buttons.DecoyIdNamesNoReal | src/components/LoveConfession.tsx:268 | when ids are distinct, the id of a rendered decoy is the id of no real button, so the decoy route never reaches a real button |
| Buttons.FakeIdInjective | src/components/LoveConfession.tsx:105 | the decoy ids fake-i are pairwise distinct and never "main" |
| Buttons.RealCountSingle | src/components/LoveConfession.tsx:110 | a list whose only real button is at one index has exactly one real button |
| Buttons.RealCountAtMostOne | src/components/LoveConfession.tsx:110 | with at most one real button, any two real buttons are at the same index |
| Buttons.ScatterShape | src/components/LoveConfession.tsx:102-112 | the scatter has five buttons fake-0 to fake-4 at the drawn positions, all size 50 and "Really?"; exactly one is real, the one at index 2 (fake-2); ids distinct and none is "main" |
| Buttons.BuildScatter | src/components/LoveConfession.tsx:101-112 | the push loop builds the scatter: five buttons, one real at index 2, distinct ids |
| Effects.GenerateConfetti | src/components/LoveConfession.tsx:48-58 | the push loop yields exactly 50 pieces with ids 0 to 49 |
| Machine.StartValid | src/components/LoveConfession.tsx:20-26 | the mount state is 'initial' with the one real "main" button and satisfies the invariant |
| Machine.OnHoverValid | src/components/LoveConfession.tsx:62-75 | hover preserves the invariant (exactly one real button whenever any exist, the per-stage button counts, distinct ids, buttons fitting the stage, body classes on exactly in 'third-click', confetti only at the happy ending, every flag's clear timeout pending) |
| Machine.ValidShape | src/components/LoveConfession.tsx:77-138 | a valid state has exactly one real button whenever it has any; one button, real, in 'initial', 'chase', 'first-click' and 'third-click'; one to five in 'second-click'; none exactly in the end stages |
| Machine.OnNoClickValid | src/components/LoveConfession.tsx:77-138 | a click on a "No" button preserves the invariant, including the glitch, wink and flash clears it schedules |
| Machine.OnYesClickValid | src/components/LoveConfession.tsx:140-145 | "Yes" preserves the invariant, the confetti clear included |
| Machine.FakeClickValid | src/components/LoveConfession.tsx:147-149 | a decoy click whose id names no real button (what the only caller, line 268, guarantees) preserves the invariant, and outside 'second-click' changes nothing |
| Machine.OnButtonClickValid | src/components/LoveConfession.tsx:268 | a routed click on any rendered button preserves the invariant, so the per-stage button counts and the timers hold afterwards, and the new list has exactly one real button whenever it is not empty |
| Machine.OnTimeoutValid | src/components/LoveConfession.tsx:38-60 | a timeout firing preserves the invariant: a flag it leaves on still has its own clear pending |
| Machine.HoverTransition | src/components/LoveConfession.tsx:62-75 | in 'initial' hover goes to 'chase' with one real "main" button of size 100 labelled "No" at the drawn position; in any other stage it changes nothing |
| Machine.GuardedClick | src/components/LoveConfession.tsx:77-79 | a click whose id is absent, or whose first match is not real, changes nothing |
| Machine.EndStageClickIgnored | src/components/LoveConfession.tsx:131-145 | in 'final-takeover' and 'happy-ending' the button list is empty and every "No" click changes nothing |
| Machine.FirstRealClick | src/components/LoveConfession.tsx:82-96 | a real click in 'initial' or 'chase' goes to 'first-click' with one real "main" button of size 50 labelled "Really?" at the first button's position; wink and glitch on, their clears (1500 and 500 ms) pending; body classes, flash and confetti untouched |
| Machine.SecondRealClick | src/components/LoveConfession.tsx:98-114 | a real click in 'first-click' goes to 'second-click' with the five-button scatter, real only at index 2 (fake-2); the background flash turns on with its 100 ms clear pending, and no other field changes |
| Machine.FlashOnlyEnteringSecondClick | src/components/LoveConfession.tsx:152-158 | the flash changes on a click only when that click moves 'first-click' to 'second-click'; hover never changes the flash at any position, and "Yes" never flashes |
| Machine.ThirdRealClick | src/components/LoveConfession.tsx:116-129 | a real click in 'second-click' goes to 'third-click' with one real "main" button of size 50 labelled "Last chance..." at the drawn position; tilt and corrupted cursor on; nothing else changes |
| Machine.FourthRealClick | src/components/LoveConfession.tsx:131-136 | a real click in 'third-click' goes to 'final-takeover' with no button; tilt and corrupted cursor off; nothing else changes |
| Machine.FakeClickTransition | src/components/LoveConfession.tsx:147-149 | a decoy click changes only the button list, removing exactly the buttons with that id; repeating it changes nothing; the real count is kept when the id names no real button |
| Machine.DecoyClick | src/components/LoveConfession.tsx:268 | a routed click on decoy j removes button j only, keeps the order of the rest, the stage and the real button |
| Machine.RealButtonRoute | src/components/LoveConfession.tsx:268 | a routed click on a real button passes the click handler's guard |
| Machine.RealButtonClick | src/components/LoveConfession.tsx:77-138 | a routed click on a real button always moves to the next stage |
| Machine.YesFromAnyStage | src/components/LoveConfession.tsx:140-145 | from every stage "Yes" goes to 'happy-ending' with no "No" button, both body classes off, 50 confetti pieces with ids 0 to 49 and their 3000 ms clear pending |
| Machine.TimeoutClears | src/components/LoveConfession.tsx:38-60 | a firing timeout clears only its own flag or batch and leaves stage and buttons alone |
| Machine.StaleConfettiClear | src/components/LoveConfession.tsx:48-60 | after two "Yes" clicks, the first click's timeout empties the second click's batch (raw timers, no restart) |
| Views.CharacterImageCases | src/components/LoveConfession.tsx:161-173 | happy image exactly in 'happy-ending', sad image exactly in 'second-click', 'third-click' and 'final-takeover', hopeful otherwise |
| Views.HeadingTextCases | src/components/LoveConfession.tsx:175-184 | the corrupted heading exactly in 'final-takeover', the happy heading exactly in 'happy-ending', the question otherwise |
| Views.TrimTrailingSpace | src/components/LoveConfession.tsx:189 | trim drops the trailing space of a string that starts and ends with a non-space |
| Views.HeadingClassValue | src/components/LoveConfession.tsx:186-190 | the heading class is "heading-corrupted" in 'final-takeover' and "heading-sweet" otherwise, followed by " glitch" exactly while glitching |
| Views.HeadingClassCases | src/components/LoveConfession.tsx:186-190 | the class starts with "heading-corrupted" if and only if the stage is 'final-takeover', and ends in " glitch" if and only if glitching |
| Views.BackgroundClassCases | src/components/LoveConfession.tsx:192-194 | "background-corrupted" exactly in 'final-takeover', "background-sweet" otherwise |
| Component.LoveConfession.constructor | src/components/LoveConfession.tsx:20-26 | a new component is in the mount state, which is valid |
| Component.LoveConfession.TriggerGlitch | src/components/LoveConfession.tsx:38-41 | glitch on and a 500 ms clear scheduled; nothing else changes |
| Component.LoveConfession.ShowKuromiWinkEffect | src/components/LoveConfession.tsx:43-46 | wink on and a 1500 ms clear scheduled; nothing else changes |
| Component.LoveConfession.RunBackgroundFlash | src/components/LoveConfession.tsx:152-159 | the object's new state is the flash effect applied to its old state |
| Component.LoveConfession.Hover | src/components/LoveConfession.tsx:62-75 | the object's new state is the hover transition of its old state; the invariant is kept |
| Component.LoveConfession.NoClick | src/components/LoveConfession.tsx:77-138 | the object's new state is the click transition (with the flash effect) of its old state; the invariant is kept |
| Component.LoveConfession.YesClick | src/components/LoveConfession.tsx:140-145 | the object's new state is the "Yes" transition of its old state; the invariant is kept |
| Component.LoveConfession.FakeClick | src/components/LoveConfession.tsx:147-149 | called with an id that names no real button, as at line 268, the object's new state is its old state with the button list filtered; the invariant is kept |
| Component.LoveConfession.ClickButton | src/components/LoveConfession.tsx:268 | a click on rendered button j is routed by its isReal flag; the new state is the routed transition |
| Component.LoveConfession.Expire | src/components/LoveConfession.tsx:38-60 | pending timeout k fires: its flag or batch is cleared and it leaves the pending list |
| Component.Escalation | src/components/LoveConfession.tsx:62-136 | hover then four real clicks pass through 'chase', 'first-click', 'second-click', 'third-click', 'final-takeover' with 1, 1, 5, 1, 0 buttons |
| Component.ClickAllDecoys | src/components/LoveConfession.tsx:147-149 | clicking the four decoys of a fresh scatter leaves 4, 3, 2, 1 buttons, keeps 'second-click' and leaves only the real fake-2 |
| Component.ClearDecoys | src/components/LoveConfession.tsx:98-129 | from a fresh component, after the decoys are gone the remaining button is the real fake-2 and clicking it reaches 'third-click' |
| Component.YesAfterTakeover | src/components/LoveConfession.tsx:140-145 | after the takeover "Yes" still reaches 'happy-ending' with no button, no tilt and 50 confetti pieces keyed 0 to 49 |

## Left out

- Markup, styling, assets and the `Button` component (lines 1-6, 196-286): these are presentation and a foreign library. The class names chosen in the markup (`btn-no-small`, `btn-yes-final`, `pulse-heart`) are not modelled.
- `getRandomPosition` (lines 28-36): `Math.random` and the window size are replaced by the injected position oracle. Coordinates are opaque reals. There are no bounds, and the code does no clamping.
- Confetti payload (lines 53-55): each piece's random x, delay and emoji are not modelled. Only the count and the ids are.
- Timer durations as time: a timeout carries its delay in milliseconds, but there is no clock. `Expire(k)` lets any pending timeout fire, so the model allows more firing orders than real time does.
- The document body (lines 128, 135, 144, 154, 156): the direct DOM mutation is represented only by the booleans `tilt`, `corruptedCursor` and `flashed`.
- React mechanics: `useState`, `useCallback`, `useEffect` batching and stale closures are not modelled. Each handler is one atomic method. The flash effect runs right after the handler that changed the stage.
- Heading strings (lines 178, 180): the literal texts are represented by the opaque tokens of `Views.Heading` and are not reproduced.
- Buttons.FakeId: this is the template `fake-${i}` only for single-digit `i`. The scatter uses indices 0 to 4.
- Views.IsSpace: covers the white-space code points of JavaScript's `trim`. The component's class strings contain only ASCII spaces.
