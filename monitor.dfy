/** The delegate that turns workspace notifications into events, the table
    from subscription kinds to notification names and callback selectors,
    and the monitor that registers the delegate (src/monitor.rs). */
module Monitor {
  import opened Wrappers
  import opened Lib
  import opened Events
  import opened Parse
  import opened Mpsc

  /** An Objective-C selector, by name (`sel!(didSleep:)`). */
  datatype Sel = Sel(name: string)

  /** The AppKit notification-name constants the delegate is registered
      for. They are foreign statics; the model only needs them distinct. */
  datatype NotificationName =
    | NSWorkspaceDidActivateApplicationNotification
    | NSWorkspaceDidDeactivateApplicationNotification
    | NSWorkspaceDidLaunchApplicationNotification
    | NSWorkspaceDidTerminateApplicationNotification
    | NSWorkspaceDidHideApplicationNotification
    | NSWorkspaceDidUnhideApplicationNotification
    | NSWorkspaceWillSleepNotification
    | NSWorkspaceDidWakeNotification
    | NSWorkspaceWillPowerOffNotification
    | NSWorkspaceScreensDidSleepNotification
    | NSWorkspaceScreensDidWakeNotification

  /** One `addObserver:selector:name:object:` call on the workspace's
      notification center: the delegate observes `name` through `selector`. */
  datatype Registration = Registration(selector: Sel, name: NotificationName)

  /** The kind whose notification `name` is: the inverse of the name half
      of `notification_handler`. */
  function KindOfName(name: NotificationName): NotificationListener
  {
    match name
    case NSWorkspaceDidActivateApplicationNotification => NotificationListener.DidActivateApplication
    case NSWorkspaceDidDeactivateApplicationNotification => NotificationListener.DidDeactivateApplication
    case NSWorkspaceDidLaunchApplicationNotification => NotificationListener.DidLaunchApplication
    case NSWorkspaceDidTerminateApplicationNotification => NotificationListener.DidTerminateApplication
    case NSWorkspaceDidHideApplicationNotification => NotificationListener.DidHideApplication
    case NSWorkspaceDidUnhideApplicationNotification => NotificationListener.DidUnhideApplication
    case NSWorkspaceWillSleepNotification => NotificationListener.DidSleep
    case NSWorkspaceDidWakeNotification => NotificationListener.DidWake
    case NSWorkspaceWillPowerOffNotification => NotificationListener.DidPowerOff
    case NSWorkspaceScreensDidSleepNotification => NotificationListener.DidScreenSleep
    case NSWorkspaceScreensDidWakeNotification => NotificationListener.DidScreenWake
  }

  /** `notification_handler`: the callback selector and the workspace
      notification name for one declared kind. Any other mask hits
      `unreachable!()` in the source, which the requires rules out. */
  function NotificationHandler(flag: NotificationListener): (r: (Sel, NotificationName))
    requires IsFlag(flag)
    ensures KindOfName(r.1) == flag
  {
    FlagCases(flag);
    // Activation/focus
    if flag == NotificationListener.DidActivateApplication then
      (Sel("didActivateApplication:"), NSWorkspaceDidActivateApplicationNotification)
    else if flag == NotificationListener.DidDeactivateApplication then
      (Sel("didDeactivateApplication:"), NSWorkspaceDidDeactivateApplicationNotification)
    // Application lifecycle
    else if flag == NotificationListener.DidLaunchApplication then
      (Sel("didLaunchApplication:"), NSWorkspaceDidLaunchApplicationNotification)
    else if flag == NotificationListener.DidTerminateApplication then
      (Sel("didTerminateApplication:"), NSWorkspaceDidTerminateApplicationNotification)
    // Visibility
    else if flag == NotificationListener.DidHideApplication then
      (Sel("didHideApplication:"), NSWorkspaceDidHideApplicationNotification)
    else if flag == NotificationListener.DidUnhideApplication then
      (Sel("didUnhideApplication:"), NSWorkspaceDidUnhideApplicationNotification)
    // Power
    else if flag == NotificationListener.DidSleep then
      (Sel("didSleep:"), NSWorkspaceWillSleepNotification)
    else if flag == NotificationListener.DidWake then
      (Sel("didWake:"), NSWorkspaceDidWakeNotification)
    else if flag == NotificationListener.DidPowerOff then
      (Sel("didPowerOff:"), NSWorkspaceWillPowerOffNotification)
    // Screens
    else if flag == NotificationListener.DidScreenSleep then
      (Sel("didScreenSleep:"), NSWorkspaceScreensDidSleepNotification)
    else if flag == NotificationListener.DidScreenWake then
      (Sel("didScreenWake:"), NSWorkspaceScreensDidWakeNotification)
    else
      assert false; (Sel(""), NSWorkspaceDidActivateApplicationNotification)
  }

  /** The registration `subscribe` makes for the `i`-th entry of `flags()`. */
  function RegistrationOf(i: nat): Registration
    requires i < |Flags()|
  {
    var (selector, name) := NotificationHandler(Flags()[i].1);
    Registration(selector, name)
  }

  /** The registrations `subscribe(listeners)` has appended after looking at
      the first `k` entries of `flags()`. */
  function Registrations(listeners: NotificationListener, k: nat): seq<Registration>
    requires k <= |Flags()|
  {
    if k == 0 then []
    else Registrations(listeners, k - 1) +
         (if listeners.Contains(Flags()[k - 1].1) then [RegistrationOf(k - 1)] else [])
  }

  /** The selectors through which a notification named `name` reaches the
      delegate, in registration order. */
  function Observers(center: seq<Registration>, name: NotificationName): seq<Sel>
  {
    if center == [] then []
    else Observers(center[..|center| - 1], name) +
         (if center[|center| - 1].name == name then [center[|center| - 1].selector] else [])
  }

  /** The event choice in `send_app_event`: the mapped identifier, or the
      parser's error as an `Error` event. */
  function AppEvent(identifier: Result<string, NSWorkspaceError>, mapper: string -> Event): (e: Event)
    ensures identifier.Ok? ==> e == mapper(identifier.value)
    ensures identifier.Err? ==> e == Event.Error(identifier.error)
  {
    match identifier
    case Ok(id) => mapper(id)
    case Err(e) => Event.Error(e)
  }

  /** With a mapper that only builds application events, as every caller
      of `send_app_event` passes, the event is an `Error` exactly when the
      identifier could not be read, and an application event otherwise. */
  lemma AppEventErrorExactlyOnFailure(identifier: Result<string, NSWorkspaceError>, mapper: string -> Event)
    requires forall id :: mapper(id).IsAppEvent()
    ensures AppEvent(identifier, mapper).Error? <==> identifier.Err?
    ensures AppEvent(identifier, mapper).IsAppEvent() <==> identifier.Ok?
  {
    var e := AppEvent(identifier, mapper);
    if identifier.Ok? {
      assert e == mapper(identifier.value);
      assert e.IsAppEvent();
    }
  }

  /** The delegate's method table: the event its method for `selector`
      sends on receiving `notification`, or `None` for a selector it does
      not implement. */
  function Emitted(selector: Sel, notification: Notification): Option<Event>
  {
    if selector == Sel("didActivateApplication:") then
      Some(AppEvent(AppIdentifierFromNotification(notification), id => Event.DidActivateApplication(id)))
    else if selector == Sel("didDeactivateApplication:") then
      Some(AppEvent(AppIdentifierFromNotification(notification), id => Event.DidDeactivateApplication(id)))
    else if selector == Sel("didHideApplication:") then
      Some(AppEvent(AppIdentifierFromNotification(notification), id => Event.DidHideApplication(id)))
    else if selector == Sel("didUnhideApplication:") then
      Some(AppEvent(AppIdentifierFromNotification(notification), id => Event.DidUnhideApplication(id)))
    else if selector == Sel("didLaunchApplication:") then
      Some(AppEvent(AppIdentifierFromNotification(notification), id => Event.DidLaunchApplication(id)))
    else if selector == Sel("didTerminateApplication:") then
      Some(AppEvent(AppIdentifierFromNotification(notification), id => Event.DidTerminateApplication(id)))
    else if selector == Sel("didSleep:") then Some(Event.DidSleep)
    else if selector == Sel("didWake:") then Some(Event.DidWake)
    else if selector == Sel("didPowerOff:") then Some(Event.DidPowerOff)
    else if selector == Sel("didScreenSleep:") then Some(Event.DidScreenSleep)
    else if selector == Sel("didScreenWake:") then Some(Event.DidScreenWake)
    else None
  }

  /** The events the delegate sends when one notification reaches it through
      each of `selectors` in turn. */
  function Deliveries(selectors: seq<Sel>, notification: Notification): seq<Option<Event>>
  {
    if selectors == [] then []
    else Deliveries(selectors[..|selectors| - 1], notification) +
         [Emitted(selectors[|selectors| - 1], notification)]
  }

  /** The rows of `notification_handler` for the activation/focus kinds. */
  lemma ActivationHandlers()
    ensures RegistrationOf(0) == Registration(Sel("didActivateApplication:"), NSWorkspaceDidActivateApplicationNotification)
    ensures RegistrationOf(1) == Registration(Sel("didDeactivateApplication:"), NSWorkspaceDidDeactivateApplicationNotification)
  {
  }

  /** The rows of `notification_handler` for the application lifecycle kinds. */
  lemma LifecycleHandlers()
    ensures RegistrationOf(2) == Registration(Sel("didLaunchApplication:"), NSWorkspaceDidLaunchApplicationNotification)
    ensures RegistrationOf(3) == Registration(Sel("didTerminateApplication:"), NSWorkspaceDidTerminateApplicationNotification)
  {
  }

  /** The rows of `notification_handler` for the visibility kinds. */
  lemma VisibilityHandlers()
    ensures RegistrationOf(4) == Registration(Sel("didHideApplication:"), NSWorkspaceDidHideApplicationNotification)
    ensures RegistrationOf(5) == Registration(Sel("didUnhideApplication:"), NSWorkspaceDidUnhideApplicationNotification)
  {
  }

  /** The rows of `notification_handler` for the power kinds: sleep and power-off are observed through the
      "Will" notifications, wake through a "Did" one. */
  lemma PowerHandlers()
    ensures RegistrationOf(6) == Registration(Sel("didSleep:"), NSWorkspaceWillSleepNotification)
    ensures RegistrationOf(7) == Registration(Sel("didWake:"), NSWorkspaceDidWakeNotification)
    ensures RegistrationOf(8) == Registration(Sel("didPowerOff:"), NSWorkspaceWillPowerOffNotification)
  {
  }

  /** The rows of `notification_handler` for the screen kinds. */
  lemma ScreenHandlers()
    ensures RegistrationOf(9) == Registration(Sel("didScreenSleep:"), NSWorkspaceScreensDidSleepNotification)
    ensures RegistrationOf(10) == Registration(Sel("didScreenWake:"), NSWorkspaceScreensDidWakeNotification)
  {
  }

  /** `notification_handler` is injective: the eleven kinds have eleven
      distinct selectors and eleven distinct notification names. */
  lemma HandlersDistinct(i: nat, j: nat)
    requires i < j < |Flags()|
    ensures RegistrationOf(i).selector != RegistrationOf(j).selector
    ensures RegistrationOf(i).name != RegistrationOf(j).name
  {
    ActivationHandlers();
    LifecycleHandlers();
    VisibilityHandlers();
    PowerHandlers();
    ScreenHandlers();
  }

  /** The selector registered for a kind names a delegate method, and that
      method sends the event variant of the same name, or an `Error`. */
  lemma CallbackMatchesHandler(i: nat, notification: Notification)
    requires i < |Flags()|
    ensures Emitted(RegistrationOf(i).selector, notification).Some?
    ensures var e := Emitted(RegistrationOf(i).selector, notification).value;
      e.Error? || (ListenerOf(e) == Some(Flags()[i].1) && e.Name() == Flags()[i].0)
  {
    var e := Emitted(RegistrationOf(i).selector, notification).value;
    if i < 6 {
      AppCallbacksParse(i, notification);
    } else {
      PowerCallbacksFixed(i, notification);
    }
    FlagsMirrorEvents(e);
  }

  /** The six application callbacks parse the notification: they send the
      kind's event carrying the parsed identifier, or `Error` with the
      parser's error. */
  lemma AppCallbacksParse(i: nat, notification: Notification)
    requires i < 6
    ensures match Emitted(RegistrationOf(i).selector, notification)
      case Some(e) =>
        (match AppIdentifierFromNotification(notification)
         case Ok(id) => e.IsAppEvent() && e.app == id && e.Index() == i
         case Err(err) => e == Event.Error(err))
      case None => false
  {
    ActivationHandlers();
    LifecycleHandlers();
    VisibilityHandlers();
    if i == 0 {} else if i == 1 {} else if i == 2 {} else if i == 3 {} else if i == 4 {} else {}
  }

  /** The five power and screen callbacks send their kind's fixed,
      payload-free event, never an `Error`. */
  lemma PowerCallbacksFixed(i: nat, notification: Notification)
    requires 6 <= i < |Flags()|
    ensures match Emitted(RegistrationOf(i).selector, notification)
      case Some(e) => !e.Error? && !e.IsAppEvent() && e.Index() == i
      case None => false
  {
    PowerHandlers();
    ScreenHandlers();
    if i == 6 {} else if i == 7 {} else if i == 8 {} else if i == 9 {} else {}
  }

  /** The five power and screen callbacks ignore the notification: any two
      notifications produce the same event. */
  lemma PowerCallbacksIgnoreNotification(i: nat, n1: Notification, n2: Notification)
    requires 6 <= i < |Flags()|
    ensures Emitted(RegistrationOf(i).selector, n1) == Emitted(RegistrationOf(i).selector, n2)
  {
    PowerCallbacksFixed(i, n1);
    PowerCallbacksFixed(i, n2);
    var e1 := Emitted(RegistrationOf(i).selector, n1).value;
    var e2 := Emitted(RegistrationOf(i).selector, n2).value;
    if i == 6 {
      assert e1 == Event.DidSleep == e2;
    } else if i == 7 {
      assert e1 == Event.DidWake == e2;
    } else if i == 8 {
      assert e1 == Event.DidPowerOff == e2;
    } else if i == 9 {
      assert e1 == Event.DidScreenSleep == e2;
    } else {
      assert e1 == Event.DidScreenWake == e2;
    }
  }

  /** Registrations for a longer prefix of `flags()` extend those for a
      shorter one. */
  lemma {:induction false} RegistrationsPrefix(listeners: NotificationListener, j: nat, k: nat)
    requires j <= k <= |Flags()|
    ensures Registrations(listeners, j) <= Registrations(listeners, k)
    decreases k
  {
    if j < k {
      RegistrationsPrefix(listeners, j, k - 1);
    }
  }

  /** Subscribing registers each contained kind exactly once and nothing for
      a kind the mask does not contain. */
  lemma RegistrationsExactlyOnce(listeners: NotificationListener, k: nat, j: nat)
    requires k <= |Flags()| && j < |Flags()|
    ensures multiset(Registrations(listeners, k))[RegistrationOf(j)] ==
              if j < k && listeners.Contains(Flags()[j].1) then 1 else 0
  {
    RegistrationsAreChosen(listeners, k);
    HandlerNamesDistinct();
    ChosenCount(Mask(listeners), HandlerRows(), k, j);
  }

  /** Every registration made is the one for a kind the mask contains. */
  lemma {:induction false} RegistrationsOnlyContained(listeners: NotificationListener, k: nat, r: Registration)
    requires k <= |Flags()|
    requires r in Registrations(listeners, k)
    ensures exists j :: 0 <= j < k && listeners.Contains(Flags()[j].1) && r == RegistrationOf(j)
    decreases k
  {
    var rest := Registrations(listeners, k - 1);
    if r in rest {
      RegistrationsOnlyContained(listeners, k - 1, r);
    } else {
      assert r == RegistrationOf(k - 1);
    }
  }

  /** Registrations are made in `flags()` order. */
  lemma RegistrationsInFlagsOrder(listeners: NotificationListener, i: nat, j: nat)
    requires i < j < |Flags()|
    requires listeners.Contains(Flags()[i].1) && listeners.Contains(Flags()[j].1)
    ensures var rs := Registrations(listeners, |Flags()|);
      exists p, q :: 0 <= p < q < |rs| && rs[p] == RegistrationOf(i) && rs[q] == RegistrationOf(j)
  {
    var before := Registrations(listeners, j);
    var upToJ := Registrations(listeners, j + 1);
    var rs := Registrations(listeners, |Flags()|);
    RegistrationsExactlyOnce(listeners, j, i);
    assert RegistrationOf(i) in multiset(before);
    var p :| 0 <= p < |before| && before[p] == RegistrationOf(i);
    assert upToJ == before + [RegistrationOf(j)];
    RegistrationsPrefix(listeners, j + 1, |Flags()|);
    assert upToJ <= rs;
    assert rs[p] == upToJ[p] == RegistrationOf(i);
    assert rs[|before|] == upToJ[|before|] == RegistrationOf(j);
  }

  /** A mask containing no declared kind registers nothing. */
  lemma {:induction false} RegistrationsNone(listeners: NotificationListener, k: nat)
    requires k <= |Flags()|
    requires forall i | 0 <= i < |Flags()| :: !listeners.Contains(Flags()[i].1)
    ensures Registrations(listeners, k) == []
    decreases k
  {
    if k > 0 {
      RegistrationsNone(listeners, k - 1);
    }
  }

  lemma {:induction false} ObserversAppend(a: seq<Registration>, b: seq<Registration>, name: NotificationName)
    ensures Observers(a + b, name) == Observers(a, name) + Observers(b, name)
    decreases |b|
  {
    if b == [] {
      assert a + b == a;
    } else {
      var b' := b[..|b| - 1];
      assert (a + b)[..|a + b| - 1] == a + b';
      ObserversAppend(a, b', name);
    }
  }

  /** After subscribing, the notification of a kind reaches the delegate
      through that kind's selector once if the mask contains the kind, and
      not at all otherwise. */
  lemma SubscribedObservers(listeners: NotificationListener, k: nat, j: nat)
    requires k <= |Flags()| && j < |Flags()|
    ensures Observers(Registrations(listeners, k), RegistrationOf(j).name) ==
              if j < k && listeners.Contains(Flags()[j].1) then [RegistrationOf(j).selector] else []
  {
    RegistrationsAreChosen(listeners, k);
    HandlerNamesDistinct();
    ChosenObservers(Mask(listeners), HandlerRows(), k, j);
  }

  /** Subscribing the same mask twice is not idempotent: each contained
      kind is registered twice. */
  lemma SubscribeTwiceRegistersTwice(listeners: NotificationListener, j: nat)
    requires j < |Flags()| && listeners.Contains(Flags()[j].1)
    ensures var rs := Registrations(listeners, |Flags()|);
      multiset(rs + rs)[RegistrationOf(j)] == 2
  {
    var rs := Registrations(listeners, |Flags()|);
    RegistrationsExactlyOnce(listeners, |Flags()|, j);
    assert multiset(rs + rs) == multiset(rs) + multiset(rs);
  }

  /** After subscribing the same mask twice, the notification of each
      contained kind reaches the delegate twice, through its selector. */
  lemma SubscribeTwiceDeliversTwice(listeners: NotificationListener, j: nat)
    requires j < |Flags()| && listeners.Contains(Flags()[j].1)
    ensures var rs := Registrations(listeners, |Flags()|);
      Observers(rs + rs, RegistrationOf(j).name) == [RegistrationOf(j).selector, RegistrationOf(j).selector]
  {
    var rs := Registrations(listeners, |Flags()|);
    var name := RegistrationOf(j).name;
    SubscribedObservers(listeners, |Flags()|, j);
    assert Observers(rs, name) == [RegistrationOf(j).selector];
    ObserversAppend(rs, rs, name);
  }

  lemma ObserversSingle(r: Registration, name: NotificationName)
    ensures Observers([r], name) == if r.name == name then [r.selector] else []
  {
    assert [r][..0] == [];
  }

  /** The rows of `table` among its first `k` that `keep` selects, in
      order: the shape of the `subscribe` loop, apart from the handler
      table it reads. */
  function Chosen(keep: seq<bool>, table: seq<Registration>, k: nat): seq<Registration>
    requires k <= |keep| == |table|
  {
    if k == 0 then [] else Chosen(keep, table, k - 1) + (if keep[k - 1] then [table[k - 1]] else [])
  }

  /** Which entries of `flags()` the mask contains. */
  function Mask(listeners: NotificationListener): seq<bool>
  {
    seq(|Flags()|, i requires 0 <= i < |Flags()| => listeners.Contains(Flags()[i].1))
  }

  /** The registration for every entry of `flags()`, in order. */
  function HandlerRows(): seq<Registration>
  {
    seq(|Flags()|, i requires 0 <= i < |Flags()| => RegistrationOf(i))
  }

  /** No two rows of `table` observe the same notification. */
  predicate NamesDistinct(table: seq<Registration>)
  {
    forall i, j | 0 <= i < j < |table| :: table[i].name != table[j].name
  }

  /** The registrations of `subscribe` are the handler rows its mask keeps. */
  lemma {:induction false} RegistrationsAreChosen(listeners: NotificationListener, k: nat)
    requires k <= |Flags()|
    ensures Registrations(listeners, k) == Chosen(Mask(listeners), HandlerRows(), k)
  {
    if k > 0 {
      RegistrationsAreChosen(listeners, k - 1);
    }
  }

  /** The handler table observes eleven different notifications. */
  lemma HandlerNamesDistinct()
    ensures NamesDistinct(HandlerRows())
  {
    forall i, j | 0 <= i < j < |HandlerRows()|
      ensures HandlerRows()[i].name != HandlerRows()[j].name
    {
      HandlersDistinct(i, j);
    }
  }

  /** With distinct names, each kept row is chosen once and any other row
      never. */
  lemma {:induction false} ChosenCount(keep: seq<bool>, table: seq<Registration>, k: nat, j: nat)
    requires k <= |keep| == |table| && j < |table| && NamesDistinct(table)
    ensures multiset(Chosen(keep, table, k))[table[j]] == if j < k && keep[j] then 1 else 0
  {
    if k > 0 {
      ChosenCount(keep, table, k - 1, j);
      ChosenCountStep(keep, table, k, j);
    }
  }

  /** One step of `ChosenCount`: row `k - 1` adds an occurrence of row `j`
      exactly when it is row `j` and kept. */
  lemma ChosenCountStep(keep: seq<bool>, table: seq<Registration>, k: nat, j: nat)
    requires 0 < k <= |keep| == |table| && j < |table| && NamesDistinct(table)
    requires multiset(Chosen(keep, table, k - 1))[table[j]] == if j < k - 1 && keep[j] then 1 else 0
    ensures multiset(Chosen(keep, table, k))[table[j]] == if j < k && keep[j] then 1 else 0
  {
    var before := Chosen(keep, table, k - 1);
    var y := table[j];
    if !keep[k - 1] {
      assert Chosen(keep, table, k) == before;
    } else {
      var x := table[k - 1];
      assert Chosen(keep, table, k) == before + [x];
      if j == k - 1 {
        CountAppend(before, x, y);
        assert multiset(before + [x])[y] == 1;
      } else {
        assert x != y by {
          if j < k - 1 {
            assert table[j].name != x.name;
          } else {
            assert x.name != table[j].name;
          }
        }
        CountAppend(before, x, y);
        assert multiset(before + [x])[y] == multiset(before)[y];
      }
    }
  }

  /** Appending `x` adds one occurrence of `x` and none of anything else. */
  lemma CountAppend(rs: seq<Registration>, x: Registration, y: Registration)
    ensures multiset(rs + [x])[y] == multiset(rs)[y] + if x == y then 1 else 0
  {
    assert multiset(rs + [x]) == multiset(rs) + multiset{x};
  }

  /** With distinct names, a row's notification reaches only that row's
      selector, once, and only when the row is kept. */
  lemma {:induction false} ChosenObservers(keep: seq<bool>, table: seq<Registration>, k: nat, j: nat)
    requires k <= |keep| == |table| && j < |table| && NamesDistinct(table)
    ensures Observers(Chosen(keep, table, k), table[j].name) ==
              if j < k && keep[j] then [table[j].selector] else []
  {
    if k > 0 {
      ChosenObservers(keep, table, k - 1, j);
      ChosenObserversStep(keep, table, k, j);
    }
  }

  /** One step of `ChosenObservers`: row `k - 1` adds an observer for row
      `j`'s notification exactly when it is row `j` and kept. */
  lemma ChosenObserversStep(keep: seq<bool>, table: seq<Registration>, k: nat, j: nat)
    requires 0 < k <= |keep| == |table| && j < |table| && NamesDistinct(table)
    requires Observers(Chosen(keep, table, k - 1), table[j].name) ==
               if j < k - 1 && keep[j] then [table[j].selector] else []
    ensures Observers(Chosen(keep, table, k), table[j].name) ==
              if j < k && keep[j] then [table[j].selector] else []
  {
    var name := table[j].name;
    var before := Chosen(keep, table, k - 1);
    if !keep[k - 1] {
      assert Chosen(keep, table, k) == before;
    } else {
      var x := table[k - 1];
      assert Chosen(keep, table, k) == before + [x];
      ObserversAppendOne(before, x, name);
      if j == k - 1 {
        assert Observers(before + [x], name) == [x.selector];
      } else {
        assert x.name != name by {
          if j < k - 1 {
            assert table[j].name != x.name;
          } else {
            assert x.name != table[j].name;
          }
        }
        assert Observers(before + [x], name) == Observers(before, name);
      }
    }
  }

  /** Registering `x` last adds its selector to the observers of its own
      name and changes no other name's observers. */
  lemma ObserversAppendOne(rs: seq<Registration>, x: Registration, name: NotificationName)
    ensures Observers(rs + [x], name) == Observers(rs, name) + if x.name == name then [x.selector] else []
  {
    assert (rs + [x])[..|rs|] == rs;
  }

  /** A mask without application termination: a termination notification
      reaches no observer, so it sends nothing. */
  lemma TerminationIgnored(listeners: NotificationListener, n: Notification)
    requires !listeners.Contains(NotificationListener.DidTerminateApplication)
    ensures var center := Registrations(listeners, |Flags()|);
      Deliveries(Observers(center, NSWorkspaceDidTerminateApplicationNotification), n) == []
  {
    SubscribedObservers(listeners, |Flags()|, 3);
    LifecycleHandlers();
  }

  /** A mask with application activation: the activation of an application
      with bundle identifier `id` sends exactly one `DidActivateApplication`
      event carrying `id`. */
  lemma ActivationDelivered(listeners: NotificationListener, id: string, name: Option<string>, others: map<string, Obj>)
    requires listeners.Contains(NotificationListener.DidActivateApplication)
    ensures var center := Registrations(listeners, |Flags()|);
      var n := NotificationFor(RunningApplication(Some(id), name), others);
      Deliveries(Observers(center, NSWorkspaceDidActivateApplicationNotification), n) ==
        [Some(Event.DidActivateApplication(id))]
  {
    var sel := Sel("didActivateApplication:");
    var n := NotificationFor(RunningApplication(Some(id), name), others);
    SubscribedObservers(listeners, |Flags()|, 0);
    ActivationHandlers();
    assert Observers(Registrations(listeners, |Flags()|), NSWorkspaceDidActivateApplicationNotification) == [sel];
    BundleIdentifierFirst(RunningApplication(Some(id), name), others);
    assert Emitted(sel, n) == Some(Event.DidActivateApplication(id));
    assert [sel][..0] == [];
  }

  /** Subscribing to application activation only: a termination
      notification reaches no observer, so it sends nothing. */
  lemma ActivationOnlyIgnoresTermination(n: Notification)
    ensures var center := Registrations(NotificationListener.DidActivateApplication, |Flags()|);
      Deliveries(Observers(center, NSWorkspaceDidTerminateApplicationNotification), n) == []
  {
    TerminationIgnored(NotificationListener.DidActivateApplication, n);
  }

  /** Subscribing to application activation only: the activation of an
      application with bundle identifier `id` sends exactly one
      `DidActivateApplication` event carrying `id`. */
  lemma ActivationOnlyDeliversActivation(id: string, name: Option<string>, others: map<string, Obj>)
    ensures var center := Registrations(NotificationListener.DidActivateApplication, |Flags()|);
      var n := NotificationFor(RunningApplication(Some(id), name), others);
      Deliveries(Observers(center, NSWorkspaceDidActivateApplicationNotification), n) ==
        [Some(Event.DidActivateApplication(id))]
  {
    ActivationDelivered(NotificationListener.DidActivateApplication, id, name, others);
  }

  /** `get_active_application` on the frontmost application: its bundle
      identifier only. The source unwraps the frontmost application, so
      with none it panics; the requires rules that out. */
  function GetActiveApplication(frontmost: Option<RunningApplication>): (r: Option<string>)
    requires frontmost.Some?
    ensures r.Some? <==> frontmost.value.bundleIdentifier.Some?
    ensures r.Some? ==>
      AppIdentifierFromNotification(NotificationFor(frontmost.value, map[])) == Ok(r.value)
  {
    RunningApplicationIdentifier(frontmost.value)
  }

  /** The Objective-C object registered as observer; it owns the sending
      half of the event channel. */
  class AppDelegate {
    const events: Channel

    constructor (events: Channel)
      ensures this.events == events
    {
      this.events := events;
    }

    /** `send_event`: the event goes to the tail of the channel. A send on a
        channel whose receiver is gone panics; the requires rules it out. */
    method SendEvent(event: Event)
      requires events.receiverAlive
      modifies events
      ensures events.receiverAlive
      ensures events.sent == old(events.sent) + [event]
    {
      var sendResult := events.Send(event);
    }

    /** `send_app_event`: parse the notification and send exactly one event,
        the mapped identifier or the parse error. */
    method SendAppEvent(notification: Notification, mapper: string -> Event)
      requires events.receiverAlive
      modifies events
      ensures events.receiverAlive
      ensures events.sent == old(events.sent) + [AppEvent(AppIdentifierFromNotification(notification), mapper)]
    {
      var identifierResult := AppIdentifierFromNotification(notification);
      var event := match identifierResult
        case Ok(identifier) => mapper(identifier)
        case Err(e) => Event.Error(e);
      SendEvent(event);
    }

    // Activation/focus

    method DidActivateApplication(notification: Notification)
      requires events.receiverAlive
      modifies events
      ensures events.receiverAlive
      ensures events.sent == old(events.sent) + [Emitted(Sel("didActivateApplication:"), notification).value]
    {
      SendAppEvent(notification, id => Event.DidActivateApplication(id));
    }

    method DidDeactivateApplication(notification: Notification)
      requires events.receiverAlive
      modifies events
      ensures events.receiverAlive
      ensures events.sent == old(events.sent) + [Emitted(Sel("didDeactivateApplication:"), notification).value]
    {
      SendAppEvent(notification, id => Event.DidDeactivateApplication(id));
    }

    // Visibility

    method DidHideApplication(notification: Notification)
      requires events.receiverAlive
      modifies events
      ensures events.receiverAlive
      ensures events.sent == old(events.sent) + [Emitted(Sel("didHideApplication:"), notification).value]
    {
      SendAppEvent(notification, id => Event.DidHideApplication(id));
    }

    method DidUnhideApplication(notification: Notification)
      requires events.receiverAlive
      modifies events
      ensures events.receiverAlive
      ensures events.sent == old(events.sent) + [Emitted(Sel("didUnhideApplication:"), notification).value]
    {
      SendAppEvent(notification, id => Event.DidUnhideApplication(id));
    }

    // Application lifecycle

    method DidLaunchApplication(notification: Notification)
      requires events.receiverAlive
      modifies events
      ensures events.receiverAlive
      ensures events.sent == old(events.sent) + [Emitted(Sel("didLaunchApplication:"), notification).value]
    {
      SendAppEvent(notification, id => Event.DidLaunchApplication(id));
    }

    method DidTerminateApplication(notification: Notification)
      requires events.receiverAlive
      modifies events
      ensures events.receiverAlive
      ensures events.sent == old(events.sent) + [Emitted(Sel("didTerminateApplication:"), notification).value]
    {
      SendAppEvent(notification, id => Event.DidTerminateApplication(id));
    }

    // Power: the notification is not read

    method DidSleep(notification: Notification)
      requires events.receiverAlive
      modifies events
      ensures events.receiverAlive
      ensures events.sent == old(events.sent) + [Event.DidSleep]
      ensures events.sent == old(events.sent) + [Emitted(Sel("didSleep:"), notification).value]
    {
      SendEvent(Event.DidSleep);
    }

    method DidWake(notification: Notification)
      requires events.receiverAlive
      modifies events
      ensures events.receiverAlive
      ensures events.sent == old(events.sent) + [Event.DidWake]
      ensures events.sent == old(events.sent) + [Emitted(Sel("didWake:"), notification).value]
    {
      SendEvent(Event.DidWake);
    }

    method DidPowerOff(notification: Notification)
      requires events.receiverAlive
      modifies events
      ensures events.receiverAlive
      ensures events.sent == old(events.sent) + [Event.DidPowerOff]
      ensures events.sent == old(events.sent) + [Emitted(Sel("didPowerOff:"), notification).value]
    {
      SendEvent(Event.DidPowerOff);
    }

    // Screens: the notification is not read

    method DidScreenSleep(notification: Notification)
      requires events.receiverAlive
      modifies events
      ensures events.receiverAlive
      ensures events.sent == old(events.sent) + [Event.DidScreenSleep]
      ensures events.sent == old(events.sent) + [Emitted(Sel("didScreenSleep:"), notification).value]
    {
      SendEvent(Event.DidScreenSleep);
    }

    method DidScreenWake(notification: Notification)
      requires events.receiverAlive
      modifies events
      ensures events.receiverAlive
      ensures events.sent == old(events.sent) + [Event.DidScreenWake]
      ensures events.sent == old(events.sent) + [Emitted(Sel("didScreenWake:"), notification).value]
    {
      SendEvent(Event.DidScreenWake);
    }
  }

  /** Owns the delegate and the registrations it has made with the
      workspace's notification center. */
  class Monitor {
    const delegate: AppDelegate
    /** The observers this monitor has added, in the order added. */
    var center: seq<Registration>

    constructor (delegate: AppDelegate)
      ensures this.delegate == delegate && center == []
    {
      this.delegate := delegate;
      center := [];
    }

    /** `Monitor::new`: fails unless called on the main thread; otherwise a
        monitor with no registrations whose delegate sends into a fresh
        channel, returned as the receiving end. */
    static method New(onMainThread: bool) returns (r: Option<(Monitor, Channel)>)
      ensures r.Some? <==> onMainThread
      ensures r.Some? ==> var (monitor, receiver) := r.value;
        && fresh(monitor) && fresh(monitor.delegate) && fresh(receiver)
        && monitor.center == [] && monitor.delegate.events == receiver
        && receiver.sent == [] && receiver.receiverAlive
    {
      var events := new Channel();
      if !onMainThread {
        return None;
      }
      var delegate := new AppDelegate(events);
      var monitor := new Monitor(delegate);
      r := Some((monitor, events));
    }

    /** `Monitor::subscribe`: one registration per entry of `flags()` that
        `listeners` contains, in `flags()` order, after the existing ones. */
    method Subscribe(listeners: NotificationListener)
      modifies this
      ensures center == old(center) + Registrations(listeners, |Flags()|)
    {
      var flags := Flags();
      var i := 0;
      while i < |flags|
        invariant 0 <= i <= |flags|
        invariant center == old(center) + Registrations(listeners, i)
      {
        var (_, flag) := flags[i];
        if !listeners.Contains(flag) {
          i := i + 1;
          continue;
        }
        var (selector, name) := NotificationHandler(flag);
        center := center + [Registration(selector, name)];
        i := i + 1;
      }
    }
  }
}
