# Repertório Fácil: live mode, view router and login form in Dafny

This project models the three pieces of the setlist organizer that have real
state-machine logic. Everything else in the application renders markup or
calls the hosted backend.

- **Live mode** (`src/components/LiveMode.jsx`). This is the full-screen
  performance view over a fixed list of songs (`musicas`). It has a song
  cursor with bounded previous/next and an auto-scroll timer. Each tick
  advances `scrollSpeed / 10` pixels and clamps at the end of the content.
  Any change of song resets the scroll and stops auto-scroll. Four keys are
  mapped to actions.
  - `LiveSession` (`live_session.dfy`) is the state as a value. It has one
    transition function per handler, effect and tick, and lemmas about whole
    runs of events.
  - `LiveMode.Controller` (`live_mode.dfy`) is the component as an object
    with the four state fields. Each method is proved to perform its
    `LiveSession` transition and to keep the invariant.
- **View router** (`src/App.jsx`). There are three views (`dashboard`,
  `repertorio`, `live`), the selected repertoire, the list of songs handed to
  live mode, four handlers and the render decision.
  - `Router` (`router.dfy`) holds the values, the transitions, the render
    decision and an invariant over every sequence of handler calls the
    rendered screens can make.
  - `App.AppContent` (`app.dfy`) is the object version.
- **Login screen** (`src/components/LoginScreen.jsx`). This covers the two
  submit handlers: login, and registration with two ordered password checks.
  - `LoginForm` (`login_form.dfy`) gives the handlers as functions. They take
    the form inputs and the outcome of the awaited `login`/`register` call,
    and return the final loading flag, the error message and the external
    call made.
  - `LoginScreen.Form` (`login_screen.dfy`) is the step-by-step object
    version, with the same early returns as the source.
- `Types` (`types.dfy`) holds the shared entities: repertoire, song and user.

The caller supplies everything the source gets from the outside:
- `maxScroll`, the content's `scrollHeight - clientHeight`, is a parameter
  of each tick. The DOM never makes it negative.
- The outcome of `login`/`register` is a parameter.
- The signed-in user and the auth `loading` flag are parameters of the
  render decision.

Behaviour of the code worth noting:
- The auto-scroll flag can be on with no timer running. With an empty song
  list the keyboard listener is still registered, so the space bar flips
  `isAutoScrolling`, but no content element exists and no interval is
  created (`LiveSession.EmptyListNeverScrolls`).
- All login failures produce one message, `Email ou senha incorretos`. The
  code does not tell bad credentials apart from other failures.
- The password-length check uses JavaScript's `length`, which counts UTF-16
  code units. So a password of three characters outside the Basic
  Multilingual Plane passes the six-character check
  (`LoginForm.AstralPasswordPasses`).

## Model

| member | source | states |
|---|---|---|
| `LiveSession.ScrollStep` | src/components/LiveMode.jsx:20 | for every slider value (10 to 100 in steps of 10) the per-tick step is an integer from 1 to 10, and step × 10 equals the speed, so the source's floating-point division is exact |
| `LiveSession.ChangeSong` | src/components/LiveMode.jsx:56-60 | moving to another song puts the cursor on it, sets the scroll position to 0 and stops auto-scroll, whatever their values were; the speed is kept |
| `LiveSession.Previous` | src/components/LiveMode.jsx:62-66 | the cursor drops by one exactly when it is above 0; if it moved, the scroll is at 0 and auto-scroll is off; otherwise the state is unchanged |
| `LiveSession.Next` | src/components/LiveMode.jsx:68-72 | the cursor rises by one exactly when it is below length − 1; if it moved, the scroll is reset and auto-scroll is off; otherwise the state is unchanged |
| `LiveSession.Toggle` | src/components/LiveMode.jsx:74-76 | flips the auto-scroll flag and leaves the cursor, the speed and the position alone |
| `LiveSession.Reset` | src/components/LiveMode.jsx:78-81 | position 0 and auto-scroll off, on the same song and at the same speed |
| `LiveSession.SetSpeed` | src/components/LiveMode.jsx:235-242 | only the speed changes, and it stays a slider value |
| `LiveSession.Tick` | src/components/LiveMode.jsx:18-47 | a tick changes nothing unless auto-scroll is on and the content element exists; otherwise, if position + step ≥ maxScroll the position becomes exactly maxScroll and auto-scroll stops, else the position grows by exactly the step and auto-scroll stays on; an active tick never leaves the position above maxScroll; the cursor and the speed never change |
| `LiveSession.KeyAction` | src/components/LiveMode.jsx:83-99 | each of the four keys maps to its own action, in both directions: ArrowLeft to previous, ArrowRight to next, space to toggle and `r` to reset; every other key maps to none of them |
| `LiveSession.PreventsDefault` | src/components/LiveMode.jsx:91-93 | the browser default is suppressed for exactly the space key |
| `LiveSession.HandleKey` | src/components/LiveMode.jsx:83-99 | the key handler performs the handler its key names, and any other key leaves the state unchanged |
| `LiveSession.Apply` | src/components/LiveMode.jsx:18-99 | every event of the mounted view keeps the speed a slider value |
| `LiveSession.ApplyPreservesValid` | src/components/LiveMode.jsx:8-99 | every event keeps the invariant: the cursor is a valid index (0 for an empty list), the speed is a slider value and the position is not negative |
| `LiveSession.IndexChangeResets` | src/components/LiveMode.jsx:56-72 | any event that changes the cursor moves it by exactly one, puts the scroll at 0 and stops auto-scroll, for every prior position and flag |
| `LiveSession.EmptyListNavigationIsNoOp` | src/components/LiveMode.jsx:62-72 | with no songs, previous and next change nothing |
| `LiveSession.EmptyListNeverScrolls` | src/components/LiveMode.jsx:15-19 | with no songs no tick changes the state, even after auto-scroll has been toggled on |
| `LiveSession.ToggleTwice` | src/components/LiveMode.jsx:74-76 | two toggles restore the state |
| `LiveSession.ResetIdempotent` | src/components/LiveMode.jsx:78-81 | resetting twice equals resetting once |
| `LiveSession.OtherKeysIgnored` | src/components/LiveMode.jsx:83-99 | any key other than ArrowLeft, ArrowRight, space and `r` (upper-case `R` among them) changes nothing and does not suppress the default |
| `LiveSession.RunPreservesValid` | src/components/LiveMode.jsx:8-99 | every run of events from a valid session ends in a valid session |
| `LiveSession.CursorStaysInBounds` | src/components/LiveMode.jsx:62-72 | for a non-empty list, every run from the initial state keeps 0 ≤ currentIndex ≤ length − 1 |
| `LiveSession.RunMovesCursorSlowly` | src/components/LiveMode.jsx:62-72 | over n events the cursor moves by at most n songs |
| `LiveSession.TicksProgress` | src/components/LiveMode.jsx:22-33 | during k ticks at a fixed maxScroll the position never passes maxScroll; while auto-scroll is still on it is exactly start + k × step; once auto-scroll has stopped it is exactly maxScroll |
| `LiveSession.StoppedTicksChangeNothing` | src/components/LiveMode.jsx:35-40 | with auto-scroll off, any number of ticks changes nothing |
| `LiveSession.TicksReachEnd` | src/components/LiveMode.jsx:22-33 | from any position up to maxScroll, (maxScroll − position) / step + 1 ticks end exactly at maxScroll with auto-scroll stopped |
| `LiveSession.ThreeSongScenario` | src/components/LiveMode.jsx:68-72 | with three songs, ArrowRight twice reaches index 2 and a third press stays at 2 |
| `LiveSession.ClampScenario` | src/components/LiveMode.jsx:20-30 | speed 50 gives a step of 5; from 98 with maxScroll 100 a tick ends at 100 with auto-scroll stopped |
| `LiveMode.Controller.constructor` | src/components/LiveMode.jsx:8-11 | the view mounts at index 0, not auto-scrolling, speed 50, position 0, which satisfies the invariant |
| `LiveMode.Controller.CurrentMusica` | src/components/LiveMode.jsx:106-118 | the current song exists exactly when the cursor is inside the list and is `musicas[currentIndex]`; under the invariant it is missing exactly when the list is empty |
| `LiveMode.Controller.ResetOnSongChange` | src/components/LiveMode.jsx:56-60 | the song-change effect zeroes the position and stops auto-scroll, keeping cursor and speed |
| `LiveMode.Controller.GoToPrevious` | src/components/LiveMode.jsx:62-66 | performs `LiveSession.Previous` on the fields and keeps the invariant |
| `LiveMode.Controller.GoToNext` | src/components/LiveMode.jsx:68-72 | performs `LiveSession.Next` on the fields and keeps the invariant |
| `LiveMode.Controller.ToggleAutoScroll` | src/components/LiveMode.jsx:74-76 | performs `LiveSession.Toggle` and keeps the invariant |
| `LiveMode.Controller.ResetScroll` | src/components/LiveMode.jsx:78-81 | performs `LiveSession.Reset` and keeps the invariant |
| `LiveMode.Controller.SetScrollSpeed` | src/components/LiveMode.jsx:235-242 | performs `LiveSession.SetSpeed` and keeps the invariant |
| `LiveMode.Controller.Tick` | src/components/LiveMode.jsx:18-47 | performs `LiveSession.Tick` for the measured maxScroll, keeps the invariant, and an active tick leaves the position at or below maxScroll |
| `LiveMode.Controller.HandleKeyPress` | src/components/LiveMode.jsx:83-99 | performs `LiveSession.HandleKey` and reports a suppressed default exactly for the space key |
| `Router.SelectRepertorio` | src/App.jsx:15-18 | selects the repertoire, shows the manager view and keeps the live list |
| `Router.BackToDashboard` | src/App.jsx:20-23 | clears the selection, shows the dashboard and keeps the live list |
| `Router.StartLiveMode` | src/App.jsx:25-29 | the whole new state is the given repertoire, the given songs and the live view |
| `Router.BackFromLive` | src/App.jsx:31-34 | shows the manager view, empties the live list and keeps the selection |
| `Router.ViewScreen` | src/App.jsx:51-72 | the view `repertorio` renders the manager with the selection, `live` renders live mode with the selection and the live list, and any other value renders the dashboard (each in both directions) |
| `Router.Render` | src/App.jsx:36-72 | while loading, the spinner, whatever the user and view; otherwise with no user, the login screen, whatever the view; otherwise the view's own screen |
| `Router.InitialValid` | src/App.jsx:11-13 | the router starts on the dashboard with nothing selected and an empty live list, which satisfies the invariant |
| `Router.StepPreservesValid` | src/App.jsx:15-34 | each handler called from the screen that offers it keeps the invariant: a known view, a selection away from the dashboard, and a non-empty live list exactly in the live view |
| `Router.RunPreservesValid` | src/App.jsx:15-72 | every sequence of offered handler calls keeps the invariant |
| `Router.LiveViewHasSongs` | src/components/RepertorioManager.jsx:136-141 | from the initial state, live mode is only ever rendered with a selected repertoire and a non-empty song list |
| `Router.LiveRoundTrip` | src/App.jsx:25-34 | entering live mode from the manager and leaving it restores the manager state exactly |
| `App.AppContent.constructor` | src/App.jsx:11-13 | starts at `dashboard`, with no selection and an empty live list |
| `App.AppContent.HandleSelectRepertorio` | src/App.jsx:15-18 | sets the selection and the view, keeps `liveMusicas`, and equals `Router.SelectRepertorio` |
| `App.AppContent.HandleBackToDashboard` | src/App.jsx:20-23 | clears the selection, sets the view, keeps `liveMusicas`, and equals `Router.BackToDashboard` |
| `App.AppContent.HandleStartLiveMode` | src/App.jsx:25-29 | sets the selection, the live list and the view, and equals `Router.StartLiveMode` |
| `App.AppContent.HandleBackFromLive` | src/App.jsx:31-34 | sets the view, empties the live list, keeps the selection, and equals `Router.BackFromLive` |
| `LoginForm.Utf16Length` | src/components/LoginScreen.jsx:54 | the JavaScript length of a string lies between its number of characters and twice that |
| `LoginForm.Utf16LengthOfBmp` | src/components/LoginScreen.jsx:54 | for text without astral characters the JavaScript length is the number of characters |
| `LoginForm.SubmitLogin` | src/components/LoginScreen.jsx:29-41 | `login(email, password)` is always called; the error is empty exactly when it succeeds and is `Email ou senha incorretos` when it fails; loading ends off |
| `LoginForm.RegisterCheck` | src/components/LoginScreen.jsx:48-58 | both checks pass exactly when the confirmation matches and the length is at least 6; a mismatch reports `As senhas não coincidem` whatever the length; a matching but short password reports `A senha deve ter pelo menos 6 caracteres` |
| `LoginForm.SubmitRegister` | src/components/LoginScreen.jsx:43-67 | `register` is called exactly when both checks pass, with (email, password, nome) in that order; a failed check shows its message; after the call the error is empty exactly on success and is `Erro ao criar conta. Tente novamente.` on failure; loading always ends off |
| `LoginForm.MessagesDistinct` | src/components/LoginScreen.jsx:37-63 | the four error messages are non-empty and pairwise different |
| `LoginForm.RejectedRegistrationIgnoresOutcome` | src/components/LoginScreen.jsx:48-60 | when validation fails, the result does not depend on what `register` would have returned |
| `LoginForm.MismatchTakesPrecedence` | src/components/LoginScreen.jsx:48-58 | a short password that differs from its confirmation gets the mismatch message, no call, loading off |
| `LoginForm.RegisterScenarios` | src/components/LoginScreen.jsx:48-60 | "abc"/"abd" gives the mismatch message; "abc"/"abc" gives the length message; "abcdef" leads to `register("a@b.c", "abcdef", "Ana")` |
| `LoginForm.AstralPasswordPasses` | src/components/LoginScreen.jsx:54-58 | a three-character password of astral characters has JavaScript length 6 and passes both checks |
| `LoginScreen.Form.constructor` | src/components/LoginScreen.jsx:12-13 | the form starts not loading, with no error |
| `LoginScreen.Form.HandleLogin` | src/components/LoginScreen.jsx:29-41 | sets loading, clears the error, calls login, and ends in exactly the state `LoginForm.SubmitLogin` describes, whatever error was shown before |
| `LoginScreen.Form.HandleRegister` | src/components/LoginScreen.jsx:43-67 | the step-by-step handler with its early returns ends in exactly the state and call `LoginForm.SubmitRegister` describes |

## Left out

- The timer's mechanics are not modelled: `setInterval`/`clearInterval`, the 100 ms period and effect cleanup. One explicit `Tick` stands for one firing of the interval, and it fires only while the source would have a live interval.
- React's scheduling is not modelled. The model treats a song change and its reset effect as one atomic step, so a timer firing between a re-render and the effect it triggers is not covered.
- DOM measurement and writes are left out: `scrollHeight`, `clientHeight`, `scrollTop`. The caller supplies `maxScroll` (at least 0), and the model does not cover the browser clamping or smoothing `scrollTop`, or the user scrolling by hand.
- Keydown listener registration and removal, and `preventDefault` on form submission, are event plumbing. They are left out, except that the model reports whether the key handler suppresses the default.
- The awaited `login`/`register`/`logout` functions are external calls into the authentication service. They become an outcome parameter. `src/hooks/useAuth.jsx` and `src/lib/firebase.js` are not part of this model.
- Repertoire and song CRUD against the hosted database is not part of this model: `src/components/Dashboard.jsx`, `src/components/RepertorioManager.jsx` and `src/components/MonteSuaBanda.jsx`. Two facts are used from there: the live-mode button appears only for a non-empty song list, and the manager calls `onStartLiveMode` with its own `repertorio` prop (`RepertorioManager.jsx:136-141`). The router invariant, `Router.LiveViewHasSongs` and `Router.LiveRoundTrip` rest on both.
- JSX rendering, dialogs, `confirm`/`alert` and date formatting are presentation only.
