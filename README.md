# nsworkspace-rs, modelled in Dafny

`nsworkspace` is a small Rust crate for macOS that watches the workspace
notification center. A `Monitor` owns an Objective-C delegate
(`AppDelegate`) and the receiving half of an `mpsc` channel. `subscribe`
takes a bitmask of `NotificationListener` kinds. For every kind in the mask,
in declaration order, it registers the delegate as an observer for one
workspace notification name, through one callback selector. When a
notification arrives, the matching callback sends an `Event` down the
channel. The six application callbacks first read the application's
identifier out of the notification's user info. They send an
`Event::Error` when a parsing stage fails. The five power and screen
callbacks send a fixed event.

The model has six modules, one per file:

- `Wrappers` (`wrappers.dfy`): `Option` and `Result`.
- `Lib` (`lib.dfy`): the crate's error enum.
- `Events` (`events.dfy`): `Event` and the `NotificationListener` bitmask.
  The mask is a 64-bit word (`usize`) whose declared variants are the bits
  `1 << 0` to `1 << 10`. `flags()` is the table of those eleven
  (name, value) pairs, and `|` and `contains` follow the crate's
  definitions.
- `Parse` (`parse.dfy`): the two identifier readers. They work on value
  models of `NSNotification`, its user-info dictionary and
  `NSRunningApplication`.
- `Mpsc` (`channel.dfy`): the sending half of the channel, as a class. Its
  state is the sequence of events sent so far and whether a receiver is
  still alive.
- `Monitor` (`monitor.dfy`):
  - the `notification_handler` table;
  - the `AppDelegate` class with its eleven callbacks, `send_event` and
    `send_app_event`;
  - the `Monitor` class. Its `subscribe` loop is a `while` loop that
    appends registrations to `center`, the list of observers added so far.

To state end-to-end properties, `Observers` and `Deliveries` model how the
notification center dispatches. `Observers` gives the selectors
registered for a name, in order. `Deliveries` gives the events the
delegate sends through them. `Emitted` is the delegate's method table as
a function. The postcondition of each of the eleven callback methods
states that it sends exactly the event `Emitted` gives for its selector.

Three facts about the code shape the model:

- `subscribe` is not idempotent. It adds one observer per contained kind
  on every call (src/monitor.rs:246-264), so a second call with the same
  mask registers every kind again. `Monitor.SubscribeTwiceRegistersTwice`
  proves that each contained kind is then registered twice, and
  `Monitor.SubscribeTwiceDeliversTwice` that its notification reaches the
  delegate twice.
- `get_active_application` calls `unwrap()` on the frontmost application
  (src/monitor.rs:116), so it panics when there is none.
  `Monitor.GetActiveApplication` requires a frontmost application.
- `get_active_application` returns the bundle identifier only, through
  `running_application_identifier` (src/parse.rs:7-11), with no fallback.
  The notification parser falls back to the localized name.
  `Parse.IdentifierReadersAgree` states where the two readers agree and
  where they differ.

## Model

| member | source | states |
|---|---|---|
| Events.Event.Index | src/events.rs:5-29 | Each variant's position in the declaration: `Error` is last (11), and exactly the first six variants carry an application identifier |
| Events.EventPayloads | src/events.rs:5-29 | An event is one of the five power and screen events (positions 6-10) if and only if it has a listener kind and carries no application identifier |
| Events.ContainsIffAbsorbs | src/monitor.rs:252 | `m.contains(f)` holds if and only if or-ing `f` into `m` leaves `m` unchanged: every bit of `f` is set in `m` |
| Events.NotificationListener.Or | src/events.rs:34-36 | The bitwise or `a.Or(b)` contains both `a` and `b` |
| Events.OrIsLeast | src/events.rs:34-36 | Any mask that contains both `a` and `b` contains `a.Or(b)`, so bitwise or is the least upper bound under `contains` |
| Events.OrContainsFlag | src/events.rs:34-36 | For a single-bit kind `f`: `a.Or(b)` contains `f` if and only if `a` or `b` does |
| Events.FlagCases | src/events.rs:34-57 | Every value `flags()` yields is one of the eleven declared variants |
| Events.Flags | src/events.rs:34-57 | `flags()` has one entry per declared variant: eleven |
| Events.FlagsAreDistinctSingleBits | src/events.rs:34-57 | Each entry of `flags()` is a single bit, no two entries share a bit, and their names are distinct |
| Events.FlagsYieldEachKindOnce | src/events.rs:34-57 | No declared variant appears at two positions of `flags()` |
| Events.FlagsMirrorEvents | src/events.rs:5-57 | Every non-`Error` event has a listener kind with the same name at the same position of `flags()`; `Error` has no kind |
| Events.FoldOrContains | examples/listen.rs:20-24 | Folding bitwise-or assignment over entries of `flags()` gives a mask that contains the seed and every folded entry |
| Events.FoldAllFlagsContainsEveryKind | examples/listen.rs:20-24 | The example's "all kinds" mask, built by bitwise-or assignment over all of `flags()` from any seed, contains every declared kind |
| Parse.RunningApplicationIdentifier | src/parse.rs:7-11 | The result is present if and only if the bundle identifier is, and then equals it; there is no fallback |
| Parse.AppIdentifierFromNotification | src/parse.rs:13-34 | A success means the notification holds a running application under the application key, and the result is its bundle identifier, or its localized name when it has no bundle identifier |
| Parse.MissingUserInfo | src/parse.rs:17-19 | A notification without user info yields `GetUserInfo` |
| Parse.MissingOrForeignApplication | src/parse.rs:20-26 | User info without the application key, or holding an object of another class under it, yields `GetApplicationKey` |
| Parse.BundleIdentifierFirst | src/parse.rs:27-32 | A present bundle identifier is returned, whatever the localized name is |
| Parse.LocalizedNameFallback | src/parse.rs:27-32 | Without a bundle identifier, the localized name is returned |
| Parse.NoIdentifier | src/parse.rs:27-30 | With neither identifier, the result is `GetBundleIdentifier` |
| Parse.ErrorStages | src/parse.rs:13-34 | Each error occurs if and only if its stage is the first to fail, and success occurs if and only if an application is present and has a bundle identifier or a localized name |
| Parse.IdentifierReadersAgree | src/parse.rs:7-34 | When the application has a bundle identifier, both readers return it; without one, only the notification parser can succeed, and it does exactly when there is a localized name |
| Monitor.ActivationHandlers | src/monitor.rs:147-155 | The selector and notification name for the two activation kinds |
| Monitor.LifecycleHandlers | src/monitor.rs:157-165 | The selector and notification name for launch and terminate |
| Monitor.VisibilityHandlers | src/monitor.rs:167-175 | The selector and notification name for hide and unhide |
| Monitor.PowerHandlers | src/monitor.rs:177-186 | Sleep and power-off are observed through the "Will" notifications, and wake through `NSWorkspaceDidWakeNotification` |
| Monitor.ScreenHandlers | src/monitor.rs:188-195 | The selector and notification name for screen sleep and screen wake |
| Monitor.NotificationHandler | src/monitor.rs:143-199 | For every declared kind, the notification name it returns is that kind's own: the "Will" sleep and power-off notifications belong to `DidSleep` and `DidPowerOff`, the "ScreensDid" ones to the screen kinds |
| Monitor.HandlersDistinct | src/monitor.rs:143-199 | Different kinds get different selectors and different notification names |
| Monitor.CallbackMatchesHandler | src/monitor.rs:47-100 | The selector registered for a kind names a delegate method, and that method sends either the event of the same name and kind or an `Error` |
| Monitor.AppCallbacksParse | src/monitor.rs:47-75 | The six application callbacks send their kind's event carrying the parsed identifier, or `Error` with the parser's error |
| Monitor.PowerCallbacksFixed | src/monitor.rs:77-100 | The five power and screen callbacks send their kind's event, never `Error` and never an identifier |
| Monitor.PowerCallbacksIgnoreNotification | src/monitor.rs:77-100 | The power and screen callbacks do not read the notification: any two notifications give the same event |
| Monitor.RegistrationsPrefix | src/monitor.rs:251-262 | The registrations made over a shorter prefix of `flags()` are a prefix of those made over a longer one |
| Monitor.RegistrationsExactlyOnce | src/monitor.rs:251-262 | Each contained kind is registered exactly once, and a kind the mask does not contain is not registered |
| Monitor.RegistrationsOnlyContained | src/monitor.rs:251-262 | Every registration made belongs to a kind the mask contains |
| Monitor.RegistrationsInFlagsOrder | src/monitor.rs:251-262 | Registrations are made in `flags()` order |
| Monitor.RegistrationsNone | src/monitor.rs:251-254 | A mask that contains no declared kind registers nothing |
| Monitor.SubscribedObservers | src/monitor.rs:246-264 | After subscribing, a kind's notification reaches the delegate once, through that kind's selector, if the mask contains the kind, and otherwise not at all |
| Monitor.SubscribeTwiceRegistersTwice | src/monitor.rs:246-264 | Subscribing the same mask twice registers each contained kind twice |
| Monitor.SubscribeTwiceDeliversTwice | src/monitor.rs:246-264 | After subscribing the same mask twice, each contained kind's notification reaches the delegate twice, both times through that kind's selector |
| Monitor.TerminationIgnored | src/monitor.rs:246-264 | With any mask that does not contain termination, a termination notification sends no event |
| Monitor.ActivationDelivered | src/monitor.rs:246-264 | With any mask that contains activation, activating an application with bundle identifier `id` sends exactly one event: `DidActivateApplication(id)` |
| Monitor.ActivationOnlyIgnoresTermination | src/monitor.rs:246-264 | With only activation subscribed, a termination notification sends no event |
| Monitor.ActivationOnlyDeliversActivation | src/monitor.rs:246-264 | With only activation subscribed, activating an application with any bundle identifier `id` sends exactly one event: `DidActivateApplication(id)` |
| Monitor.GetActiveApplication | src/monitor.rs:113-119 | Returns the frontmost application's bundle identifier: present if and only if it has one, and then the same value the notification parser would return for that application |
| Monitor.AppEvent | src/monitor.rs:127-131 | The event is the mapper applied to the identifier when parsing succeeded, and `Error` with the parser's error when it failed |
| Monitor.AppEventErrorExactlyOnFailure | src/monitor.rs:121-134 | For a mapper that builds application events, the event is `Error` if and only if parsing failed, and an application event if and only if it succeeded |
| Monitor.AppDelegate.constructor | src/monitor.rs:104-111 | The delegate holds the given sending half of the channel |
| Monitor.AppDelegate.SendEvent | src/monitor.rs:136-140 | The event is appended to the channel's events, and nothing else is sent |
| Monitor.AppDelegate.SendAppEvent | src/monitor.rs:121-134 | Exactly one event is sent: the mapped identifier, or `Error` with the parser's error |
| Monitor.AppDelegate.DidActivateApplication | src/monitor.rs:47-50 | Sends exactly the event the method table gives for `didActivateApplication:` |
| Monitor.AppDelegate.DidDeactivateApplication | src/monitor.rs:52-55 | Sends exactly the event the method table gives for `didDeactivateApplication:` |
| Monitor.AppDelegate.DidHideApplication | src/monitor.rs:57-60 | Sends exactly the event the method table gives for `didHideApplication:` |
| Monitor.AppDelegate.DidUnhideApplication | src/monitor.rs:62-65 | Sends exactly the event the method table gives for `didUnhideApplication:` |
| Monitor.AppDelegate.DidLaunchApplication | src/monitor.rs:67-70 | Sends exactly the event the method table gives for `didLaunchApplication:` |
| Monitor.AppDelegate.DidTerminateApplication | src/monitor.rs:72-75 | Sends exactly the event the method table gives for `didTerminateApplication:` |
| Monitor.AppDelegate.DidSleep | src/monitor.rs:77-80 | Sends exactly `DidSleep` |
| Monitor.AppDelegate.DidWake | src/monitor.rs:82-85 | Sends exactly `DidWake` |
| Monitor.AppDelegate.DidPowerOff | src/monitor.rs:87-90 | Sends exactly `DidPowerOff` |
| Monitor.AppDelegate.DidScreenSleep | src/monitor.rs:92-95 | Sends exactly `DidScreenSleep` |
| Monitor.AppDelegate.DidScreenWake | src/monitor.rs:97-100 | Sends exactly `DidScreenWake` |
| Monitor.Monitor.constructor | src/monitor.rs:204-207 | A monitor owns its delegate and starts with no registrations |
| Monitor.Monitor.New | src/monitor.rs:210-218 | Succeeds if and only if called on the main thread; it then returns a fresh monitor with no registrations, whose delegate sends into a fresh, empty channel that the caller receives from |
| Monitor.Monitor.Subscribe | src/monitor.rs:246-264 | Appends, after the existing registrations, one registration per entry of `flags()` that the mask contains, in `flags()` order |
| Mpsc.Channel.constructor | src/monitor.rs:212 | A new channel has sent nothing and has a live receiver |
| Mpsc.Channel.Send | src/monitor.rs:137 | With a live receiver, the event is appended and `Ok` is returned; otherwise the event comes back in `Err` and nothing is sent |
| Mpsc.Channel.DropReceiver | src/monitor.rs:137-139 | Once the receiver is dropped, the channel has no live receiver and keeps what was sent |
| Mpsc.Channel.DropThenSend | src/monitor.rs:137-139 | A send after the receiver is dropped returns the event in `Err` and sends nothing: the case in which `send_event` panics |

## Left out

- `Monitor::run` and `Monitor::stop` (src/monitor.rs:220-238) are not modelled. They hand control to the AppKit application run loop, or post `terminate:` to it, and change no state the model represents.
- `MainThreadMarker` becomes the boolean `onMainThread` that `Monitor.Monitor.New` receives. The `mtm` field of `Monitor` is not kept.
- Objective-C allocation and `init` in `AppDelegate::new` are not modelled. `Retained` reference counting is not modelled either.
- The `unsafe impl Send`/`Sync` for `Event` (src/events.rs:31-32) are not modelled, because nothing here is concurrent. The channel is a sequence of sent events. The receiving thread, blocking and interleavings are not modelled.
- The text of each `NSWorkspaceError` (src/lib.rs:17-22) is not modelled. Only which error occurs is modelled.
- Strings are `seq<char>`. Conversion between `NSString` and `String` is the identity here.
- The notification-name statics are a Dafny enum. Only their identity matters, not their contents.
- In `subscribe`, the observer is the monitor's delegate and the object is the shared workspace in every call, so a `Registration` keeps only the selector and the name.
- `Observers` and `Deliveries` are not code from the crate. They are the model's picture of how the notification center dispatches.
- Monitor.GetActiveApplication: requires a frontmost application. With none, the source panics in `unwrap()` instead of returning nothing.
- Monitor.AppDelegate.SendEvent: requires a live receiver. So do `SendAppEvent` and the eleven callbacks. With the receiver dropped, the source panics in `send_event`, and that panic is not modelled.
- `notification_handler`'s `unreachable!()` arm (src/monitor.rs:196-198) is ruled out by the precondition `IsFlag(flag)`. `subscribe` only passes values yielded by `flags()`.
- The `bitmask_enum` operators the core does not use are not modelled. These include `&`, `!`, `^`, `all`, `none` and the `is_*` helpers.
- The examples are context only. examples/stop.rs destructures three values from `Monitor::new`, which returns two, and it is not part of this model.
