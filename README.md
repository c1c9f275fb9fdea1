# Portfolio site logic in Dafny

This project models the parts of a Next.js portfolio site that contain actual logic, and proves properties of them:

- **Heading animator** (`useHeadingAnimation`):
  - splits a heading into one span per UTF-16 code unit, with no-break spaces in place of spaces;
  - builds one paused animation timeline per span;
  - paints a span, and after a delay its neighbours, on hover, and unpaints them on leave;
  - on cleanup, kills the timelines and swaps the spans for listener-free clones.
- **Navigation terminal**:
  - a draggable window with a five-command language (`help`, `ls`, `cd`, `clear`, `exit`);
  - an output log and a recall list walked with the arrow keys;
  - Ctrl+L clears the log.
- **Contact endpoint**: a POST handler that checks, in order, the API key, the body, the four fields and the email's shape, then hands one email to the mail service.
- **Contact form**: four controlled fields, a submitting flag and a status. The two timers of the simulated submission are modelled as explicit events.
- **Project cards**:
  - the camelCase metric label;
  - the two-digit project number;
  - the alternating column order.

## How it is modelled

- **One module per source file:** `HeadingAnimation`, `Terminal`, `ContactRoute`, `ContactForm`, `ProjectCards`.
- **Two shared modules:**
  - `Optional`, an option type;
  - `JsStrings`, which holds the JavaScript string operations the sources rely on: `trim`, `split` on one character, `join`, `repeat` and ASCII `toLowerCase`.
- **Code that updates state step by step** (the animator, the terminal, the contact form):
  - is a class whose fields are the component's state and refs;
  - each handler is a method, and its postcondition ties the new state to a pure transition function of the old state (`Snapshot() == Entered(old(Snapshot()), index)`);
  - the properties are proved about those transition functions, and about runs of events (`Replay`).
- **Timers and delayed calls** are pending events. Any pending one may fire next.
- **The contact endpoint** is a function of:
  - the environment;
  - the parsed body;
  - the mail service's answer.
- **The project-card expressions** are functions.
- **Whitespace** is the set JavaScript's `trim` and `\s` use.
- **Integers and units:**
  - durations and the stagger are integer milliseconds;
  - scale is in thousandths;
  - animation step lengths are tenths of the duration.

## Model

| member | source | states |
|---|---|---|
| JsStrings.TextStart | src/components/Terminal.tsx:87 | the first non-whitespace position from `i`; everything skipped is whitespace |
| JsStrings.TextEnd | src/components/Terminal.tsx:87 | the end of the text before trailing whitespace; everything after it is whitespace |
| JsStrings.Trim | src/components/Terminal.tsx:87 | `trim()` is empty exactly for all-whitespace strings; otherwise it is the slice between the first and last non-whitespace characters, and everything cut is whitespace |
| JsStrings.TrimIdempotent | src/components/Terminal.tsx:87 | trimming twice is trimming once |
| JsStrings.TrimOfUntrimmable | src/components/Terminal.tsx:87 | a string with non-whitespace at both ends is its own trim |
| JsStrings.IndexOf | src/components/Terminal.tsx:90 | the position of the first occurrence of a character, or the length when there is none |
| JsStrings.Split | src/components/Terminal.tsx:90 | `split(' ')` yields at least one piece and no piece contains the separator |
| JsStrings.JoinSplit | src/components/Terminal.tsx:90 | joining the pieces of a split with the separator gives back the string |
| JsStrings.SplitJoin | src/components/Terminal.tsx:90 | splitting a join of separator-free pieces gives back the pieces |
| JsStrings.Repeat | src/app/projects/page.tsx:171 | `n` copies of the fill character |
| JsStrings.ToLowerAscii | src/components/Terminal.tsx:51 | same length, each character lowered |
| ProjectCards.SpaceBeforeCapitals | src/app/projects/page.tsx:216 | the `replace` step never shortens the key and is empty only for the empty key |
| ProjectCards.CapitalsFollowSpaces | src/app/projects/page.tsx:216 | after the `replace` step every capital letter has a space before it |
| ProjectCards.SpacedDeleteSpaces | src/app/projects/page.tsx:216 | the `replace` step inserts spaces and nothing else |
| ProjectCards.SpacedWhitespace | src/app/projects/page.tsx:216 | for a key without whitespace the only whitespace after the `replace` step is plain spaces |
| ProjectCards.SpacesOnlyBeforeCapitals | src/app/projects/page.tsx:216 | for a key without whitespace, every space the `replace` step leaves has a capital letter right after it |
| ProjectCards.MetricLabel | src/app/projects/page.tsx:216 | the label never starts or ends with whitespace; every capital except a leading one has a space before it; for a key without whitespace, every space is followed by a capital and deleting the spaces gives the key back, which together fix the label (`timeSaved` shows as `time Saved`) |
| ProjectCards.LabelFacts | src/app/projects/page.tsx:216 | the capital-spacing and round-trip facts of the trimmed `replace` result |
| ProjectCards.LabelRoundTrip | src/app/projects/page.tsx:216 | trimming only removes spaces the `replace` step added, so deleting spaces from the label restores a whitespace-free key |
| ProjectCards.LabelOfUncapitalisedKey | src/app/projects/page.tsx:216 | a key without capitals is only trimmed, and is shown unchanged when it has no surrounding whitespace |
| ProjectCards.UncapitalisedUnchanged | src/app/projects/page.tsx:216 | the `replace` step leaves a key without capitals alone |
| ProjectCards.Decimal | src/app/projects/page.tsx:171 | `String(n)` is a numeral of value `n` with no leading zero except for 0, and has two or more digits exactly from 10 |
| ProjectCards.PadStart | src/app/projects/page.tsx:171 | `padStart` keeps the string as a suffix, reaches the width, and fills only with the fill character |
| ProjectCards.LeadingZeros | src/app/projects/page.tsx:171 | zeros in front of a numeral do not change its value |
| ProjectCards.ProjectNumber | src/app/projects/page.tsx:171 | the card number has at least two digits and denotes `idx + 1`: `0` and the digit below ten, the plain numeral from ten |
| ProjectCards.ColumnsAlternate | src/app/projects/page.tsx:158-190 | even cards put the image first at the large breakpoint, odd cards the content, and neighbouring cards differ |
| HeadingAnimation.Segment | src/hooks/useHeadingAnimation.tsx:91-92 | one unit per code unit in order, each space a no-break space, every other unit kept, no space left |
| HeadingAnimation.SegmentIdempotent | src/hooks/useHeadingAnimation.tsx:92 | segmenting segmented units changes nothing |
| HeadingAnimation.SegmentOnlyReplacesSpaces | src/hooks/useHeadingAnimation.tsx:92 | two texts with the same segmentation differ only by space versus no-break space |
| HeadingAnimation.WithDefaults | src/hooks/useHeadingAnimation.tsx:66-75 | each absent option takes its documented default (bounce, 500 ms, `elastic.out(1, 0.3)`, 1.2, squish on, no colour, no glow, 50 ms); a given animation, hover colour, glow or stagger is kept |
| HeadingAnimation.PresetHover | src/hooks/useHeadingAnimation.tsx:442-507 | only `gsapStyle` and `varied` paint on hover, only `energetic` and `varied` glow, and every preset but `gsapStyle` has a positive stagger |
| HeadingAnimation.VariedCycle | src/hooks/useHeadingAnimation.tsx:227-231 | the varied family is `families[index % 6]`: period six, neighbours differ |
| HeadingAnimation.StepsCoverDuration | src/hooks/useHeadingAnimation.tsx:131-346 | every non-empty step list spans the whole duration, and the random mode builds nothing exactly for flip, elastic and squeeze |
| HeadingAnimation.AnimationNamed | src/hooks/useHeadingAnimation.tsx:131-227 | the option string selects the `switch` arm of the same name; exactly the strings without an arm fall through to the default arm |
| HeadingAnimation.NamedFamily | src/hooks/useHeadingAnimation.tsx:131-193 | each family's name selects that family's arm |
| HeadingAnimation.TimelineFor | src/hooks/useHeadingAnimation.tsx:127-353 | a paused, never-restarted timeline whose family follows the mode; it is empty exactly when the random draw is flip, elastic or squeeze |
| HeadingAnimation.Restarted | src/hooks/useHeadingAnimation.tsx:360 | a restart is counted and plays a live timeline; whether a killed timeline plays again is a parameter (`revive`) |
| HeadingAnimation.Initial | src/hooks/useHeadingAnimation.tsx:77-79 | before the first mount nothing is mounted or pending and the heading holds its raw text |
| HeadingAnimation.Mounted | src/hooks/useHeadingAnimation.tsx:90-128 | the content becomes its segmentation, with one fresh listening span and one paused timeline per unit, the `k`-th built for index `k`; pending calls survive |
| HeadingAnimation.Lit | src/hooks/useHeadingAnimation.tsx:362-371 | hover sets the colour when a hover colour is given and the glow when asked, and keeps the glyph |
| HeadingAnimation.Unlit | src/hooks/useHeadingAnimation.tsx:394-403 | leave sets the colour to `white` only when a hover colour is given and clears the glow only when glow is on |
| HeadingAnimation.NeighbourCallTargets | src/hooks/useHeadingAnimation.tsx:373-391 | a hover schedules exactly as many calls as there are existing neighbours, one for each, none for any other index, none unless the stagger is positive, each carrying the mount's options |
| HeadingAnimation.Entered | src/hooks/useHeadingAnimation.tsx:358-392 | enter restarts (and so plays) and paints only the hovered span and queues the neighbour calls; outside a mount or out of range nothing changes |
| HeadingAnimation.Left | src/hooks/useHeadingAnimation.tsx:394-422 | leave unpaints the span and, with a positive stagger, its existing neighbours; timelines and pending calls are untouched |
| HeadingAnimation.LeftSpans | src/hooks/useHeadingAnimation.tsx:394-422 | exactly the spans leave resets are unlit; the rest are kept |
| HeadingAnimation.LeaveInSequence | src/hooks/useHeadingAnimation.tsx:394-422 | the handler's three successive updates give `LeftSpans` |
| HeadingAnimation.Fired | src/hooks/useHeadingAnimation.tsx:375-390 | a delayed call restarts and paints whatever span the refs hold at its index, with the options it captured; the call leaves the queue and nothing else is scheduled; a target the refs no longer have only removes the call; while unmounted nothing on screen changes, but the target's killed timeline is still restarted |
| HeadingAnimation.TornDown | src/hooks/useHeadingAnimation.tsx:429-435 | cleanup kills every timeline and shows a listener-free clone of every span; pending calls and the refs stay |
| HeadingAnimation.LeaveUndoesEnter | src/hooks/useHeadingAnimation.tsx:358-422 | entering and then leaving leaves the span white when a hover colour is set, unglowed when glow is on, and its timeline restarted once |
| HeadingAnimation.LateCallRepaints | src/hooks/useHeadingAnimation.tsx:375-422 | a neighbour call scheduled on enter still repaints the neighbour after leave |
| HeadingAnimation.NoStaggerNoCalls | src/hooks/useHeadingAnimation.tsx:373 | with a stagger of zero or less, hovering schedules nothing |
| HeadingAnimation.GsapStyleStaysLocal | src/hooks/useHeadingAnimation.tsx:487-496 | the `gsapStyle` preset paints the hovered span `#88CE02` and schedules no neighbour calls |
| HeadingAnimation.Step | src/hooks/useHeadingAnimation.tsx:358-435 | every mouse event or delayed call keeps the state consistent (no timeline is killed while mounted), the content unchanged and the mount status unchanged |
| HeadingAnimation.Replay | src/hooks/useHeadingAnimation.tsx:358-435 | the same along any run of events |
| HeadingAnimation.UnmountedIgnoresMouse | src/hooks/useHeadingAnimation.tsx:429-435 | once unmounted, enter and leave change nothing, since the clones carry no listeners |
| HeadingAnimation.UnmountedStep | src/hooks/useHeadingAnimation.tsx:375-435 | one event after cleanup leaves the screen as it is and only removes calls from the queue; with nothing queued it changes nothing |
| HeadingAnimation.TeardownFreezes | src/hooks/useHeadingAnimation.tsx:375-435 | after cleanup no event changes what is on screen and no new call is scheduled; with nothing pending, the whole state, killed timelines included, stays as it is |
| HeadingAnimation.AfterTeardown | src/hooks/useHeadingAnimation.tsx:375-435 | after cleanup the screen is frozen whatever happens, only calls pending at cleanup remain, and if none were pending every timeline stays killed |
| HeadingAnimation.LateCallRestartsKilled | src/hooks/useHeadingAnimation.tsx:383-390 | a neighbour call scheduled by a hover just before cleanup still fires afterwards and restarts the right neighbour's killed timeline (which plays again exactly when the library revives killed timelines), without changing the screen |
| HeadingAnimation.RemountKeepsText | src/hooks/useHeadingAnimation.tsx:429-436 | a cleanup and a remount, as on an option change, rebuild the same units and as many timelines |
| HeadingAnimation.AnimatedHeading.constructor | src/hooks/useHeadingAnimation.tsx:77-79 | the heading starts as `Initial` says |
| HeadingAnimation.AnimatedHeading.Mount | src/hooks/useHeadingAnimation.tsx:81-128 | the effect body fills both refs as `Mounted` says |
| HeadingAnimation.AnimatedHeading.Enter | src/hooks/useHeadingAnimation.tsx:358-392 | the enter handler updates the spans and the scheduler as `Entered` says |
| HeadingAnimation.AnimatedHeading.Leave | src/hooks/useHeadingAnimation.tsx:394-422 | the leave handler updates the spans as `Left` says |
| HeadingAnimation.AnimatedHeading.Fire | src/hooks/useHeadingAnimation.tsx:375-390 | a delayed call runs as `Fired` says |
| HeadingAnimation.AnimatedHeading.Teardown | src/hooks/useHeadingAnimation.tsx:429-435 | the cleanup updates the heading as `TornDown` says |
| Terminal.LineColor | src/components/Terminal.tsx:209-220 | command is cyan, error red, success green, and only output gray |
| Terminal.Route | src/components/Terminal.tsx:63 | home routes to `/`, any other page to `/<page>` |
| Terminal.Cd | src/components/Terminal.tsx:50-72 | a missing or empty argument is a usage error; the lower-cased argument must be a page, else a not-found error; a page sets the path `~/<page>` and schedules navigation to its route |
| Terminal.Run | src/components/Terminal.tsx:29-84 | the lookup is case-sensitive; only `clear` empties the log, only `cd` moves the path, only `cd` and `exit` (with a close callback) start timers; `exit` replies with the goodbye line and starts exactly one close timer when a close callback is given, none otherwise; `clear` adds no lines; an unknown name gets exactly the two not-found lines |
| Terminal.Initial | src/components/Terminal.tsx:13-21 | empty log, path `~`, recall index -1 |
| Terminal.Words | src/components/Terminal.tsx:87-90 | the trimmed line splits into at least one word |
| Terminal.Applied | src/components/Terminal.tsx:92-99 | the queued updates in order: the recall entry, the index reset, the echo with the old path, then the command's lines, or only those for `clear`; input, window position, drag state and offset stay |
| Terminal.Executed | src/components/Terminal.tsx:86-107 | a blank line changes nothing; any other line joins the recall list trimmed and resets the index |
| Terminal.ExecutedWords | src/components/Terminal.tsx:86-99 | a non-blank line runs its first word on the remaining words |
| Terminal.EchoUsesOldPath | src/components/Terminal.tsx:95 | after any command but `clear` the log keeps its old lines, followed by the echo with the path from before the command |
| Terminal.UnknownCommand | src/components/Terminal.tsx:100-105 | an unknown name appends the echo and exactly the two not-found lines, and moves no path |
| Terminal.ClearEmptiesLog | src/components/Terminal.tsx:74-77 | after `clear` the log is empty, its own echo included |
| Terminal.WordsOfTwo | src/components/Terminal.tsx:90 | `name arg` with one space splits into exactly those two words |
| Terminal.CdLine | src/components/Terminal.tsx:50-72 | `cd arg` runs `cd` on `[arg]` |
| Terminal.CdToKnownPage | src/components/Terminal.tsx:50-72 | `cd` to a page in any ASCII letter case moves the path, schedules the route and logs the echo and one success line |
| Terminal.CdToUnknownPage | src/components/Terminal.tsx:56-59 | `cd` to anything else keeps the path, schedules nothing and logs one not-found line |
| Terminal.CdWithTwoSpaces | src/components/Terminal.tsx:51-54 | `cd  page` with two spaces is a usage error, even for a real page |
| Terminal.KeyPressed | src/components/Terminal.tsx:109-135 | keys keep the recall index in range. ArrowUp moves the index one older unless it is at the oldest entry; ArrowDown moves it one newer and from the newest to -1, and does nothing at -1; an arrow that moves the index shows the entry it points at and changes nothing else, and one that does not changes nothing. Enter runs the line as `Executed` says and empties the input. Any key other than the arrows, Enter and Ctrl+L changes nothing |
| Terminal.CtrlLClearsLog | src/components/Terminal.tsx:131-134 | Ctrl+L empties the log and changes nothing else |
| Terminal.Typed | src/components/Terminal.tsx:321 | typing replaces the input only |
| Terminal.UpStopsAtOldest | src/components/Terminal.tsx:110-116 | `n` ArrowUp presses move the index up `n` but not past the oldest entry, and show that entry |
| Terminal.DownUndoesUp | src/components/Terminal.tsx:110-126 | ArrowDown after an ArrowUp that moved restores the index and the shown input |
| Terminal.Clamp | src/components/Terminal.tsx:151-152 | `Math.max(0, Math.min(high, v))`: the value itself in range, the bound above it, and 0 below 0 or when the bound is negative |
| Terminal.MouseDown | src/components/Terminal.tsx:137-145 | a press on the title bar starts a drag and records the cursor's offset from the window, and changes nothing else; elsewhere nothing changes |
| Terminal.MouseMoved | src/components/Terminal.tsx:148-155 | while dragging the window stays at non-negative coordinates, inside a viewport at least its size, and exactly under the cursor when that fits; the new position is the clamped cursor position, and nothing else changes |
| Terminal.MouseUp | src/components/Terminal.tsx:157-159 | releasing ends the drag where the window is, and changes nothing else |
| Terminal.GrabWithoutJump | src/components/Terminal.tsx:137-155 | grabbing an on-screen window and moving nowhere leaves it in place |
| Terminal.TerminalWindow.constructor | src/components/Terminal.tsx:13-21 | the initial state |
| Terminal.TerminalWindow.ExecuteCommand | src/components/Terminal.tsx:86-107 | running a line updates the state as `Executed` says |
| Terminal.TerminalWindow.Apply | src/components/Terminal.tsx:92-99 | the queued updates in order give `Applied` |
| Terminal.TerminalWindow.KeyDown | src/components/Terminal.tsx:109-135 | the key handler updates the state as `KeyPressed` says |
| Terminal.TerminalWindow.Change | src/components/Terminal.tsx:321 | the input change handler |
| Terminal.TerminalWindow.PressMouse | src/components/Terminal.tsx:137-145 | the mouse-down handler |
| Terminal.TerminalWindow.MoveMouse | src/components/Terminal.tsx:148-155 | the mouse-move handler |
| Terminal.TerminalWindow.ReleaseMouse | src/components/Terminal.tsx:157-159 | the mouse-up handler |
| ContactRoute.EmailAccepted | src/app/api/contact/route.ts:31 | an accepted email has no whitespace and contains `@` |
| ContactRoute.AcceptedMatches | src/app/api/contact/route.ts:31 | everything the validator accepts matches `^[^\s@]+@[^\s@]+\.[^\s@]+$` |
| ContactRoute.MatchesAccepted | src/app/api/contact/route.ts:31 | everything the pattern matches is accepted |
| ContactRoute.EmailAcceptedIffMatches | src/app/api/contact/route.ts:31 | the validator accepts exactly the pattern's matches |
| ContactRoute.Recipient | src/app/api/contact/route.ts:40 | `CONTACT_EMAIL` when set and non-empty, else the default address |
| ContactRoute.Post | src/app/api/contact/route.ts:4-117 | the status is always 200, 400 or 500. No key gives 500 whatever the body; an unreadable body gives 500 with the internal-error reply; a falsy field gives 400 before the email is looked at; a malformed email gives 400. An email is sent exactly when every check passes, to the recipient, with the submitter as reply-to and the prefixed subject. 200 exactly on delivery, with the id; a send error or exception gives 500 |
| ContactRoute.MissingFieldBeforeEmail | src/app/api/contact/route.ts:23-37 | an empty name gives "All fields are required" whatever the email |
| ContactRoute.TextEmailChecked | src/app/api/contact/route.ts:31-37 | with all fields present, a string email is sent exactly when it matches the pattern, else the reply is "Invalid email format" |
| ContactForm.Set | src/app/contact/page.tsx:61-66 | the named field takes the value and the others keep theirs |
| ContactForm.Initial | src/app/contact/page.tsx:14-21 | empty fields, not submitting, idle |
| ContactForm.Changed | src/app/contact/page.tsx:61-66 | a change touches only the named field |
| ContactForm.Submitted | src/app/contact/page.tsx:68-73 | submit raises the flag and schedules one result timer, and leaves the fields and status alone |
| ContactForm.Fired | src/app/contact/page.tsx:73-81 | the result timer lowers the flag, shows success, empties every field and schedules the reset; the reset sets the status back to idle |
| ContactForm.Step | src/app/contact/page.tsx:61-81 | every event keeps a result timer pending while submitting and a reset pending while the banner shows, and never introduces `'error'` |
| ContactForm.Replay | src/app/contact/page.tsx:61-81 | the same along any run of events |
| ContactForm.NeverError | src/app/contact/page.tsx:21 | no run of events sets the status to `'error'` |
| ContactForm.ErrorUnreachable | src/app/contact/page.tsx:21 | nor does any run from the first render |
| ContactForm.NoDoubleSubmit | src/app/contact/page.tsx:277 | while submitting, the disabled button sends nothing |
| ContactForm.SubmitCycle | src/app/contact/page.tsx:68-81 | submit, the result timer and the reset timer go disabled, then banner with empty fields, then back to idle |
| ContactForm.StaysDisabled | src/app/contact/page.tsx:68-81 | while submitting, every event but a result timer firing keeps the button disabled |
| ContactForm.DisabledUntilResult | src/app/contact/page.tsx:277 | along any run in which no result timer fires, including runs where a reset timer from an earlier submission fires, the button stays disabled |
| ContactForm.ResetDuringSubmission | src/app/contact/page.tsx:68-81 | a submit while the success banner shows leaves the old reset timer pending; when it fires the status goes back to idle while the button stays disabled |
| ContactForm.ContactPage.constructor | src/app/contact/page.tsx:14-21 | the initial state |
| ContactForm.ContactPage.HandleChange | src/app/contact/page.tsx:61-66 | `handleChange` as `Changed` says |
| ContactForm.ContactPage.HandleSubmit | src/app/contact/page.tsx:68-73 | `handleSubmit` as `Submitted` says |
| ContactForm.ContactPage.FireTimer | src/app/contact/page.tsx:73-81 | a timer callback as `Fired` says |

## Left out

- **GSAP.** Easing, tween interpolation, the frame clock and float durations are not modelled. A timeline is its family, its step lengths in tenths, a play state and a restart count; the scale, ease and squish options are carried but animate nothing.
- **`Math.random`** in the random mode is a caller-supplied `draw` function.
- **Styles copied from the heading** (computed letter spacing and line height), and the spans' fixed inline layout styles, are presentation.
- HeadingAnimation.Restarted: what GSAP does when `restart()` is called on a killed timeline is not modelled. The `revive` parameter chooses, and the teardown lemmas hold for both choices. So the model does not promise that cleanup stops every animation: a delayed call scheduled before cleanup can still restart a killed timeline (`LateCallRestartsKilled`).
- HeadingAnimation.Fired: pending delayed calls may fire in any order. The scheduler's real order, by due time, is a special case.
- HeadingAnimation.Fired: the source guards only the timeline lookup of a delayed call with `?.`. With a hover colour or glow set, a call whose target span is gone throws a TypeError on its style write. The model records only the effect on state: the call is gone and nothing else changes. The uncaught error is not modelled. No mount reaches this case, because every mount rebuilds as many spans as before.
- **`cloneNode(true)`** is a span with the same glyph and inline paint and no listeners. DOM identity and parent lookups are not modelled, and the heading element is taken to be present.
- **Terminal side effects:**
  - navigation through `onNavigate` / `router.push`, and the call to `onClose`, are recorded as pending timers but never run;
  - the entrance and exit animations, scroll-to-bottom, the welcome-message timer and the initial centring are not modelled;
  - the window size is the fixed 700 x 450 the component never changes.
- Terminal.Run: the lookup on the command object would also accept inherited keys such as `toString`. Only the five named commands are modelled, and every other name is unknown.
- JsStrings.ToLowerAscii: lowercases ASCII letters only. JavaScript's `toLowerCase` also maps other letters, such as the Kelvin sign to `k`.
- Terminal.Cd: follows from the line above. In JavaScript, `cd S\u212AILLS` (with a Kelvin sign) lowers to `skills` and navigates; the model answers that the page was not found.
- **Terminal text is `seq<char>`**, so an emoji is one character rather than two UTF-16 units. This affects no modelled property.
- **Contact endpoint I/O:**
  - the Resend client, the environment reads, `request.json()` and logging are inputs and outputs of `Post`;
  - the HTML and text bodies of the email are omitted;
  - a body whose parsing or destructuring throws is `Unreadable`;
  - a non-string field is given as its truthiness and its `String(...)` form.
- **The contact form's `focusedField`** is set but never read. The GSAP entrance animations are presentation.
- **The browser's own checks of the form** (`required`, `type="email"`) are not modelled. A submit event is modelled whenever the button is enabled.
- ContactForm.Step: the two timers may fire in any order. The real order, by due time, is a special case.
