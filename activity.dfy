/** MainActivity: the method-channel handler that serves the Flutter side's
    commands out of the database, the preferences mirror of the enabled apps it
    rewrites after every enable or disable, and the event channel's sink. */
module Activity {
  import opened Values
  import opened Store
  import opened Prefs

  /** Every method name listed by the handler's `when`. Five of them
      (isNotificationListenerEnabled, openNotificationListenerSettings,
      checkPermissions, requestPermissions, getInstalledApps) are platform calls
      that this model does not cover. */
  const ListedMethods: set<string> := {
    "getNotifications", "deleteNotification", "clearAllNotifications",
    "getEnabledApps", "enableApp", "disableApp",
    "isNotificationListenerEnabled", "openNotificationListenerSettings",
    "checkPermissions", "requestPermissions", "getInstalledApps"
  }

  /** A method name that falls through to the `else` branch. */
  type UnlistedMethod = m: string | m !in ListedMethods witness ""

  /** A method call with its arguments; an argument the caller did not send (or
      sent as null) is None. */
  datatype MethodCall =
    | GetNotifications(limit: Option<int>)
    | DeleteNotification(id: Option<int>)
    | ClearAllNotifications
    | GetEnabledApps
    | EnableApp(packageName: Option<string>, appName: Option<string>)
    | DisableApp(packageName: Option<string>)
    | Unlisted(name: UnlistedMethod)

  /** What `result.success(...)` carries. */
  datatype Reply =
    | Notifications(rows: seq<Row>)
    | Apps(apps: seq<EnabledApp>)
    | Done(flag: bool)

  /** The three ways the handler answers: `result.success`, `result.error` and
      `result.notImplemented`. */
  datatype MethodResult =
    | Success(reply: Reply)
    | Error(code: string, message: string)
    | NotImplemented

  const InvalidArgument: string := "INVALID_ARGUMENT"

  /** The error code Flutter's MethodChannel replies with when the handler throws
      a RuntimeException; the message is the exception's own. */
  const UncaughtError: string := "error"

  /** `call.argument<Int>("limit") ?: 100`. */
  function LimitArgument(limit: Option<int>): (r: int)
    ensures limit.None? ==> r == DefaultLimit
    ensures limit.Some? ==> r == limit.value
  {
    match limit
    case None => DefaultLimit
    case Some(n) => n
  }

  // ---------------------------------------------------------------------------
  // The event channel's sink

  /** An opaque handle to one Flutter subscriber. */
  type EventSink = nat

  /** What the event channel's StreamHandler is told: onListen or onCancel. */
  datatype StreamEvent = Listen(sink: EventSink) | Cancel

  /** The companion's `eventSink` after one event: onListen stores the new sink in
      place of any earlier one, onCancel clears it. */
  function SinkAfter(sink: Option<EventSink>, e: StreamEvent): Option<EventSink>
  {
    match e
    case Listen(s) => Some(s)
    case Cancel => None
  }

  function SinkAfterAll(sink: Option<EventSink>, events: seq<StreamEvent>): Option<EventSink>
    decreases |events|
  {
    if events == [] then sink else SinkAfterAll(SinkAfter(sink, events[0]), events[1..])
  }

  /** After any non-empty run of onListen/onCancel calls the sink is decided by
      the last call alone: no earlier subscriber survives a later onListen, and
      after onCancel there is none. */
  lemma {:induction false} LastStreamEventDecides(sink: Option<EventSink>, events: seq<StreamEvent>)
    requires events != []
    ensures SinkAfterAll(sink, events) == SinkAfter(None, events[|events| - 1])
    decreases |events|
  {
    if |events| > 1 {
      LastStreamEventDecides(SinkAfter(sink, events[0]), events[1..]);
    }
  }

  /** A sink that has been replaced or cancelled is held again only if it
      attaches again. */
  lemma ReplacedSinkStaysGone(sink: Option<EventSink>, events: seq<StreamEvent>, s: EventSink)
    requires events != []
    requires forall i :: 0 <= i < |events| ==> events[i] != Listen(s)
    ensures SinkAfterAll(sink, events) != Some(s)
  {
    LastStreamEventDecides(sink, events);
  }

  // ---------------------------------------------------------------------------
  // The activity

  class MainActivity {
    const db: NotificationDatabaseHelper
    const prefs: SharedPreferences
    /** The companion object's `eventSink`: at most one subscriber at a time. */
    var eventSink: Option<EventSink>

    constructor (db: NotificationDatabaseHelper, prefs: SharedPreferences)
      ensures this.db == db && this.prefs == prefs && eventSink == None
    {
      this.db := db;
      this.prefs := prefs;
      eventSink := None;
    }

    /** Mirrors the enabled package names of the database into the preferences,
        where the listener looks them up. */
    method UpdateEnabledAppsPrefs()
      modifies prefs
      ensures prefs.enabledApps == Some(EnabledPackages(db.enabledApps))
    {
      var enabledApps := db.GetEnabledApps();
      var packageNames := set i | 0 <= i < |enabledApps| :: enabledApps[i].packageName;
      prefs.PutEnabledApps(packageNames);
    }

    /** The method-channel handler. */
    method OnMethodCall(call: MethodCall) returns (result: MethodResult)
      requires db.Valid()
      modifies db, prefs
      ensures db.Valid()
      ensures call.GetNotifications? ==>
        && unchanged(db, prefs)
        && if LimitArgument(call.limit) >= 0 then
             && result.Success? && result.reply.Notifications?
             && IsNewestFirstPage(db.notifications.rows, LimitArgument(call.limit), result.reply.rows)
           else
             result == Error(UncaughtError, InvalidLimitMessage(LimitArgument(call.limit)))
      ensures call.DeleteNotification? ==>
        if call.id.Some? then
          && result == Success(Done(true))
          && db.notifications == Deleted(old(db.notifications), call.id.value)
          && db.enabledApps == old(db.enabledApps)
          && unchanged(prefs)
        else
          && result == Error(InvalidArgument, "ID é obrigatório")
          && unchanged(db, prefs)
      ensures call.ClearAllNotifications? ==>
        && result == Success(Done(true))
        && db.notifications == Cleared(old(db.notifications))
        && db.enabledApps == old(db.enabledApps)
        && unchanged(prefs)
      ensures call.GetEnabledApps? ==>
        && result.Success? && result.reply.Apps?
        && IsEnabledListing(db.enabledApps, result.reply.apps)
        && unchanged(db, prefs)
      ensures call.EnableApp? ==>
        if call.packageName.Some? && call.appName.Some? then
          && result == Success(Done(true))
          && db.enabledApps == Upserted(old(db.enabledApps), call.packageName.value, call.appName.value)
          && db.notifications == old(db.notifications)
          && prefs.enabledApps == Some(EnabledPackages(db.enabledApps))
        else
          && result == Error(InvalidArgument, "packageName e appName são obrigatórios")
          && unchanged(db, prefs)
      ensures call.DisableApp? ==>
        if call.packageName.Some? then
          && result == Success(Done(true))
          && db.enabledApps == old(db.enabledApps) - {call.packageName.value}
          && db.notifications == old(db.notifications)
          && prefs.enabledApps == Some(EnabledPackages(db.enabledApps))
        else
          && result == Error(InvalidArgument, "packageName é obrigatório")
          && unchanged(db, prefs)
      ensures call.Unlisted? ==> result == NotImplemented && unchanged(db, prefs)
    {
      match call
      case GetNotifications(limitArg) =>
        var limit := LimitArgument(limitArg);
        var notifications := db.GetNotifications(limit);
        if notifications.Page? {
          result := Success(Notifications(notifications.rows));
        } else {
          // the IllegalArgumentException escapes the handler
          result := Error(UncaughtError, notifications.message);
        }
      case DeleteNotification(id) =>
        if id.Some? {
          db.DeleteNotification(id.value);
          result := Success(Done(true));
        } else {
          result := Error(InvalidArgument, "ID é obrigatório");
        }
      case ClearAllNotifications =>
        db.ClearAllNotifications();
        result := Success(Done(true));
      case GetEnabledApps =>
        var apps := db.GetEnabledApps();
        result := Success(Apps(apps));
      case EnableApp(packageName, appName) =>
        if packageName.Some? && appName.Some? {
          db.AddEnabledApp(packageName.value, appName.value);
          UpdateEnabledAppsPrefs();
          result := Success(Done(true));
        } else {
          result := Error(InvalidArgument, "packageName e appName são obrigatórios");
        }
      case DisableApp(packageName) =>
        if packageName.Some? {
          db.RemoveEnabledApp(packageName.value);
          UpdateEnabledAppsPrefs();
          result := Success(Done(true));
        } else {
          result := Error(InvalidArgument, "packageName é obrigatório");
        }
      case Unlisted(_) =>
        result := NotImplemented;
    }

    method OnListen(sink: EventSink)
      modifies this
      ensures eventSink == SinkAfter(old(eventSink), Listen(sink))
      ensures eventSink == Some(sink)
    {
      eventSink := Some(sink);
    }

    method OnCancel()
      modifies this
      ensures eventSink == SinkAfter(old(eventSink), Cancel)
      ensures eventSink == None
    {
      eventSink := None;
    }
  }
}
