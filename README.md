# Guide and subject screens: a Dafny model

This project models the logic of two screens of an Android app and of the
response envelope their service calls return.

- **GuideActivity** is the splash screen. It reads the cached subject
  selection (key SUBJECT_SELECT). It hands a usable selection to the
  application object. It requests an advertisement carrying that
  selection's specialty id, or `""` when there is none. When the ad
  arrives it shows it and starts a five-second countdown. Each tick with
  index `pLong` shows `preTime - pLong` seconds while that is positive. The
  tick that shows `1s` jumps, and so does any tick with nothing left.
  `jump()` disposes the countdown, opens exactly one screen and then
  finishes. The screen is subject selection when no usable selection was
  cached, else home when logged in, else login. Teardown disposes only a
  live countdown. A click on the ad does nothing. A click on the countdown
  jumps.
- **SubjectActivity** is the subject list. It starts empty. A cached
  SUBJECT_LIST is appended and nothing is fetched. Without one, a single
  SUBJECT request goes out. A SUBJECT response is appended and the whole
  list is written back to the cache. `onStop` always stores the
  application's selection under SUBJECT_SELECT.
- **BaseInfo** is the envelope `errNo / exeTime / msg / result`. A call
  succeeded exactly when `errNo == 0`. `IsSuccess` is a predicate on an
  immutable value, so it cannot change any field.

Timers, storage, networking and the platform become explicit inputs and
outputs:

- Ticks are method calls that take the tick index.
- The key/value store is a `Store` object with two optional fields.
- The application object is an `App`.
- The screen's size is a pair of parameters.
- On the guide screen, the ad request, image loads, text updates,
  disposal, `startActivity` and `finish` are recorded in order in an
  effects log.
- On the subject screen, requests are recorded in a request list and
  `finish` sets a `finished` flag.
- A ghost count of SUBJECT requests sent and not yet answered ties each
  SUBJECT response to a request the screen sent.
- `mSubscribe` is a three-state field: `Unsubscribed` (null), `Active`, `Disposed`.

Files:

- `wrappers.dfy`: `Option`.
- `envelope.dfy`: `BaseInfo` and its lemmas.
- `app_context.dfy`: the shared application object, the store, and the
  selection and list-entry types.
- `guide.dfy`: the route and request-id functions, the tick handler's
  effects, and the `GuideActivity` class.
- `countdown.dfy`: whole countdown runs. `Deliver` gives the effects of
  handing tick indices to a live subscription until one disposes it. Lemmas
  state what a full or partial run shows and that a run opens at most one
  screen. `RunCountdown` drives a `GuideActivity` object through those
  ticks and proves that its log equals `Deliver`.
- `subjects.dfy`: the `SubjectActivity` class, what a freshly opened
  screen holds, and a scenario that opens the screen twice over one store.

Points of the code's behaviour that are easy to miss:

- A cached selection whose specialty id is null or empty counts as no
  selection, both for the request and for the route.
- Tick indices start at 0. The screen shows 5s, 4s, 3s, 2s and 1s, and it
  jumps on the fifth tick (index 4), right after showing 1s.
- The cache test is "not null", so a cached empty list also suppresses the
  fetch.
- Both the cached and the fetched list are appended to `mListData`
  rather than assigned to it. A fresh screen starts empty, and it either
  takes the cached list with no request out or sends the one request
  whose answer it lists. So on a fresh screen the list holds exactly one
  of the two (`OpenScreen`, `FetchOnOpen`).

## Model

| member | source | states |
|---|---|---|
| `Envelope.BaseInfo.IsSuccess` | data/src/main/java/com/cl/data/BaseInfo.java:15-17 | the verdict is true exactly when `errNo == 0` |
| `Envelope.OnlyZeroCodeSucceeds` | data/src/main/java/com/cl/data/BaseInfo.java:15-17 | setting an envelope's `errNo` to any `int` other than 0 makes `isSuccess` false |
| `Envelope.NonzeroCodeFails` | data/src/main/java/com/cl/data/BaseInfo.java:16 | any nonzero code, negative or positive, is not a success |
| `Envelope.SuccessReadsOnlyErrNo` | data/src/main/java/com/cl/data/BaseInfo.java:10-17 | replacing `exeTime`, `msg` and `result` never changes `isSuccess` |
| `Envelope.SuccessAgreesOnErrNo` | data/src/main/java/com/cl/data/BaseInfo.java:10-17 | two envelopes with equal `errNo` get the same verdict |
| `Guide.RequestId` | app/src/main/java/com/cl/the_projext/GuideActivity.java:47-54 | the ad request carries `""` iff there is no cached selection with a non-empty specialty id; otherwise it carries that id |
| `Guide.Route` | app/src/main/java/com/cl/the_projext/GuideActivity.java:83 | subject screen iff no usable selection, whatever the login state; with a usable one, home iff logged in and login iff not |
| `Guide.RouteAgreesWithRequest` | app/src/main/java/com/cl/the_projext/GuideActivity.java:49-83 | the jump goes to subject selection exactly when the ad request carried an empty id |
| `Guide.JumpEffects` | app/src/main/java/com/cl/the_projext/GuideActivity.java:81-85 | `jump()` disposes the countdown first, finishes last, and opens exactly one screen, the routed one, in between |
| `Guide.TickEffects` | app/src/main/java/com/cl/the_projext/GuideActivity.java:69-78 | a tick with time left first shows exactly `preTime - pLong`; with more than one second left that is all it does; with one second left it shows `1s` and then jumps; with none left it only jumps; it opens a screen, exactly once, iff `preTime - pLong <= 1`, and a jumping tick shows no value but `1s` |
| `Guide.GuideActivity.constructor` | app/src/main/java/com/cl/the_projext/GuideActivity.java:30-32 | a new screen has no selection, no ad, a null subscription and has done nothing |
| `Guide.GuideActivity.SetUpData` | app/src/main/java/com/cl/the_projext/GuideActivity.java:46-55 | the selection is read from SUBJECT_SELECT; the application's selection changes only when that one is usable; exactly one ad request goes out, carrying `RequestId` and the screen size |
| `Guide.GuideActivity.NetSuccess` | app/src/main/java/com/cl/the_projext/GuideActivity.java:58-63 | the ad is kept, its image is loaded, the countdown is made visible and started |
| `Guide.GuideActivity.GoTime` | app/src/main/java/com/cl/the_projext/GuideActivity.java:67-68 | called once the ad is kept, it makes the countdown subscription live, so the screen invariant "countdown set iff ad arrived" holds |
| `Guide.GuideActivity.OnTick` | app/src/main/java/com/cl/the_projext/GuideActivity.java:69-78 | a tick appends the tick handler's effects for the current route, and leaves the subscription disposed iff the tick jumps |
| `Guide.GuideActivity.Jump` | app/src/main/java/com/cl/the_projext/GuideActivity.java:81-85 | requires a set subscription; disposes it, then opens exactly the routed screen, then finishes, in that order |
| `Guide.GuideActivity.OnDestroy` | app/src/main/java/com/cl/the_projext/GuideActivity.java:88-91 | a live countdown is disposed; a null or disposed one is left as it is and nothing is recorded; afterwards none is live |
| `Guide.GuideActivity.OnViewClicked` | app/src/main/java/com/cl/the_projext/GuideActivity.java:93-105 | a click on the ad changes nothing; a click on the countdown, which is visible only once the ad arrived, performs the jump |
| `Countdown.TickIndices` | app/src/main/java/com/cl/the_projext/GuideActivity.java:68 | the timer's tick indices run consecutively from their start |
| `Countdown.Shows` | app/src/main/java/com/cl/the_projext/GuideActivity.java:71 | the countdown text counts down by one from k to 1 |
| `Countdown.Deliver` | app/src/main/java/com/cl/the_projext/GuideActivity.java:68-78 | the ticks handed to a live subscription, up to the one that disposes it; a run ends by finishing the screen exactly when one of its ticks jumps |
| `Countdown.DeliverShowsEach` | app/src/main/java/com/cl/the_projext/GuideActivity.java:69-74 | a run in which no tick jumps shows each tick's time left, in order, and nothing else |
| `Countdown.NoJumpBeforeLastSecond` | app/src/main/java/com/cl/the_projext/GuideActivity.java:70-77 | no tick index before the last second jumps |
| `Countdown.NavigatesAtMostOnce` | app/src/main/java/com/cl/the_projext/GuideActivity.java:68-85 | any run of ticks opens one screen if one of its ticks jumps and none otherwise, never two |
| `Countdown.FullCountdown` | app/src/main/java/com/cl/the_projext/GuideActivity.java:65-78 | enough consecutive ticks show every second from `preTime - start` down to 1 and then perform the jump |
| `Countdown.PartialCountdown` | app/src/main/java/com/cl/the_projext/GuideActivity.java:65-74 | a run that ends before the last second shows a prefix of that countdown and opens nothing |
| `Countdown.GuideCountdown` | app/src/main/java/com/cl/the_projext/GuideActivity.java:65-85 | with five seconds: 5s, 4s, 3s, 2s, 1s, dispose, navigate, finish; fewer than five ticks open nothing |
| `Countdown.RunCountdown` | app/src/main/java/com/cl/the_projext/GuideActivity.java:67-79 | feeding ticks 0, 1, … to the screen while its subscription is live records exactly `Deliver`'s effects; the subscription stays live if fewer than five ticks came and ends disposed otherwise; the ad is kept |
| `Subjects.SubjectActivity.constructor` | app/src/main/java/com/cl/the_projext/SubjectActivity.java:25 | the list starts empty, no request has gone out and none is outstanding |
| `Subjects.SubjectActivity.SetUpData` | app/src/main/java/com/cl/the_projext/SubjectActivity.java:51-57 | a cached list, even an empty one, is appended and nothing is fetched; without one the list is unchanged, exactly one SUBJECT request goes out and one more answer is outstanding |
| `Subjects.SubjectActivity.NetSuccess` | app/src/main/java/com/cl/the_projext/SubjectActivity.java:60-69 | a SUBJECT response answers an outstanding request; it is appended in order after the existing entries and SUBJECT_LIST then holds exactly the list; any other tag changes neither |
| `Subjects.SubjectActivity.OnStop` | app/src/main/java/com/cl/the_projext/SubjectActivity.java:72-75 | SUBJECT_SELECT always receives the application's current selection |
| `Subjects.SubjectActivity.OnViewClicked` | app/src/main/java/com/cl/the_projext/SubjectActivity.java:78-80 | the back arrow sets the `finished` flag and changes nothing else |
| `Subjects.OpenScreen` | app/src/main/java/com/cl/the_projext/SubjectActivity.java:51-57 | a fresh screen holds exactly the cached list with no request out, or an empty list with exactly one SUBJECT request out; never both |
| `Subjects.FetchOnOpen` | app/src/main/java/com/cl/the_projext/SubjectActivity.java:51-69 | on a fresh screen with nothing cached, the one SUBJECT answer leaves exactly the fetched entries in the list and in SUBJECT_LIST, and no answer is left outstanding; SUBJECT_SELECT is untouched |
| `Subjects.ReopenAfterFetch` | app/src/main/java/com/cl/the_projext/SubjectActivity.java:51-75 | with nothing cached the first opening fetches once and caches the answer; a second opening lists the same entries without fetching |

## Left out

- The network layer (frame/src/main/java/com/cl/frame/NetManager.java) is not part of this model. That covers HTTP client construction, the interceptors, background/foreground thread switching and the singleton. Responses arrive as `NetSuccess` calls, and the failure path is not modelled.
- The one-second timer is not modelled. Ticks are calls to `OnTick` with their index. `RunCountdown` hands over indices 0, 1, 2, … while the subscription is live, which is what the interval timer does.
- Guide.GuideActivity.OnTick: requires a live subscription, because a disposed one receives no ticks.
- Subjects.SubjectActivity.NetSuccess: requires a SUBJECT request to be outstanding, because the presenter delivers a SUBJECT response only for a request the screen sent.
- Tick indices are unbounded integers. Java's `long` overflow cannot occur for interval ticks.
- Guide.GuideActivity.NetSuccess: does not record that a second ad response would start a second timer and lose the handle of the first. The screen issues one request, and the three-state field holds a single subscription.
- The countdown text is recorded as the number of seconds. The `"s"` suffix and the string conversion are left out.
- Null payloads are not modelled: a null `result` would throw before anything is recorded. That throw comes after `mInfo` is assigned (GuideActivity.java:59-60), so the screen would hold an ad with no countdown, which breaks `Valid()`. Only the ad image URL is modelled of the ad payload. The jump URL appears only in commented-out code.
- The store's serialization format is not modelled. Storing a list keeps a copy, which `seq` values give.
- UI calls are reduced to recorded effects or left out: window flags, device set-up, image loading, view binding, the adapter and its notifications.
- `mPresenter.getData` becomes a recorded request. The model objects behind it are not part of this model.
- The model does not capture the adapter sharing `mListData` with the screen (aliasing).
