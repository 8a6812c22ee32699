/** NotificationListener: the capture path. Each posted or removed status-bar
    notification is checked against the enabled-apps preference, turned into a
    record, saved to the database and broadcast to the app, in that order. */
module Listener {
  import opened Values
  import opened Store
  import opened Prefs

  /** The Bundle keys android.app.Notification defines for the texts read here. */
  const TitleExtra: string := "android.title"
  const TextExtra: string := "android.text"
  const SubTextExtra: string := "android.subText"
  const BigTextExtra: string := "android.bigText"

  /** The part of android.app.Notification read here: its `extras` Bundle, None
      when the field is null. */
  datatype Notification = Notification(extras: Option<map<string, Value>>)

  /** The part of a StatusBarNotification read here. */
  datatype StatusBarNotification = StatusBarNotification(
    packageName: string,
    id: int,
    key: string,
    postTime: int,
    notification: Notification)

  /** The body shared by extractTitle, extractText, extractSubText and
      extractBigText: `notification.extras.getString(key, "")`, and "" when that
      throws (a null Bundle). Bundle.getString answers its default for a key that
      is absent, bound to null, or bound to something other than a String, such
      as a styled CharSequence. */
  function ExtractExtra(notification: Notification, key: string): (r: string)
    ensures notification.extras.Some? && key in notification.extras.value && notification.extras.value[key].Str? ==>
      r == notification.extras.value[key].s
    ensures r != "" ==>
      notification.extras.Some? && key in notification.extras.value && notification.extras.value[key] == Str(r)
  {
    match notification.extras
    case None => ""
    case Some(bundle) => StringOr(bundle, key, "")
  }

  function ExtractTitle(notification: Notification): string { ExtractExtra(notification, TitleExtra) }
  function ExtractText(notification: Notification): string { ExtractExtra(notification, TextExtra) }
  function ExtractSubText(notification: Notification): string { ExtractExtra(notification, SubTextExtra) }
  function ExtractBigText(notification: Notification): string { ExtractExtra(notification, BigTextExtra) }

  /** isAppEnabled: the package is in the stored "enabled_apps" set; while the
      key has never been written no package is accepted. */
  function IsAppEnabled(stored: Option<set<string>>, packageName: string): (r: bool)
    ensures r <==> stored.Some? && packageName in stored.value
  {
    packageName in StoredSet(stored)
  }

  /** The keys of the JSONObject that handleNotification builds. */
  const RecordKeys: set<string> := {
    "packageName", "title", "text", "subText", "bigText",
    "key", "postTime", "timestamp", "action", "id"
  }

  /** The JSONObject `notificationData`, with the runtime class of each value:
      the texts are Strings, postTime and timestamp Longs, id an Integer. */
  function NotificationData(packageName: string, title: string, text: string, subText: string,
                            bigText: string, key: string, postTime: int, timestamp: int,
                            action: string, id: int): (r: map<string, Value>)
    ensures r.Keys == RecordKeys
  {
    map[
      "packageName" := Str(packageName),
      "title" := Str(title),
      "text" := Str(text),
      "subText" := Str(subText),
      "bigText" := Str(bigText),
      "key" := Str(key),
      "postTime" := Int64(postTime),
      "timestamp" := Int64(timestamp),
      "action" := Str(action),
      "id" := Int32(id)
    ]
  }

  /** What handleNotification builds for one callback, or None when the filter
      drops it. `now` is the value System.currentTimeMillis() returns. */
  function Capture(stored: Option<set<string>>, sbn: StatusBarNotification, action: string, now: int): (r: Option<map<string, Value>>)
    ensures r.None? <==> !IsAppEnabled(stored, sbn.packageName)
    ensures r.Some? ==>
      && r.value.Keys == RecordKeys
      && r.value["packageName"] == Str(sbn.packageName)
      && r.value["title"] == Str(ExtractTitle(sbn.notification))
      && r.value["text"] == Str(ExtractText(sbn.notification))
      && r.value["subText"] == Str(ExtractSubText(sbn.notification))
      && r.value["bigText"] == Str(ExtractBigText(sbn.notification))
      && r.value["key"] == Str(sbn.key)
      && r.value["postTime"] == Int64(sbn.postTime)
      && r.value["timestamp"] == Int64(now)
      && r.value["action"] == Str(action)
      && r.value["id"] == Int32(sbn.id)
  {
    if !IsAppEnabled(stored, sbn.packageName) then None
    else
      var n := sbn.notification;
      Some(NotificationData(sbn.packageName, ExtractTitle(n), ExtractText(n), ExtractSubText(n),
                            ExtractBigText(n), sbn.key, sbn.postTime, now, action, sbn.id))
  }

  /** The row a captured record becomes: none of insertNotification's defaults
      applies, the timestamp is the capture clock, and subText, bigText, key,
      postTime and the source's own notification id are not stored. */
  lemma CapturedRowKeepsFields(stored: Option<set<string>>, sbn: StatusBarNotification, action: string,
                               now: int, id: int, clock: int)
    requires IsAppEnabled(stored, sbn.packageName)
    ensures RowFromValues(id, Capture(stored, sbn, action, now).value, clock)
         == Row(id, sbn.packageName, ExtractTitle(sbn.notification), ExtractText(sbn.notification),
                now, action, 1)
  {
  }

  /** Enabling a package through the store makes the listener accept it once the
      preferences mirror the store; disabling it makes the listener drop it. */
  lemma MirrorFollowsEnableAndDisable(apps: map<string, AppRow>, p: string, n: string)
    ensures IsAppEnabled(Some(EnabledPackages(Upserted(apps, p, n))), p)
    ensures !IsAppEnabled(Some(EnabledPackages(apps - {p})), p)
  {
  }

  // ---------------------------------------------------------------------------
  // The effect of one callback and of a run of callbacks

  /** The callbacks' outcome: the notifications table and the broadcasts sent. */
  datatype Effects = Effects(table: NotificationTable, broadcasts: seq<map<string, Value>>)

  /** One handleNotification call. A dropped callback changes nothing; an accepted
      one is inserted once (the insert may fail, which is swallowed) and, whatever
      became of the insert, broadcast once when the broadcast can be sent. */
  function Handle(e: Effects, stored: Option<set<string>>, sbn: StatusBarNotification, action: string,
                  now: int, writable: bool, deliverable: bool): (e': Effects)
    requires TableValid(e.table)
    ensures TableValid(e'.table)
    ensures !IsAppEnabled(stored, sbn.packageName) ==> e' == e
    ensures IsAppEnabled(stored, sbn.packageName) ==>
      && e'.table == Inserted(e.table, Capture(stored, sbn, action, now).value, now, writable)
      && e'.broadcasts == e.broadcasts + (if deliverable then [Capture(stored, sbn, action, now).value] else [])
  {
    match Capture(stored, sbn, action, now)
    case None => e
    case Some(record) =>
      Effects(Inserted(e.table, record, now, writable),
              e.broadcasts + if deliverable then [record] else [])
  }

  /** The insert and the broadcast do not depend on each other: a failed insert
      does not hold back the broadcast, and a failed broadcast does not hold back
      the insert. */
  lemma StoreAndBroadcastAreIndependent(e: Effects, stored: Option<set<string>>, sbn: StatusBarNotification,
                                        action: string, now: int, w1: bool, w2: bool, d1: bool, d2: bool)
    requires TableValid(e.table)
    ensures Handle(e, stored, sbn, action, now, w1, d1).table == Handle(e, stored, sbn, action, now, w1, d2).table
    ensures Handle(e, stored, sbn, action, now, w1, d1).broadcasts == Handle(e, stored, sbn, action, now, w2, d1).broadcasts
  {
  }

  /** One listener callback as the platform delivers it, with the clock reading
      and whether the database and the broadcast work at that moment. */
  datatype Delivery = Delivery(sbn: StatusBarNotification, action: string, now: int,
                               writable: bool, deliverable: bool)

  function HandleAll(e: Effects, stored: Option<set<string>>, ds: seq<Delivery>): (e': Effects)
    requires TableValid(e.table)
    ensures TableValid(e'.table)
    decreases |ds|
  {
    if ds == [] then e
    else
      var d := ds[0];
      HandleAll(Handle(e, stored, d.sbn, d.action, d.now, d.writable, d.deliverable), stored, ds[1..])
  }

  function Accepted(stored: Option<set<string>>, ds: seq<Delivery>): nat
    decreases |ds|
  {
    if ds == [] then 0
    else (if IsAppEnabled(stored, ds[0].sbn.packageName) then 1 else 0) + Accepted(stored, ds[1..])
  }

  function AcceptedDeliverable(stored: Option<set<string>>, ds: seq<Delivery>): nat
    decreases |ds|
  {
    if ds == [] then 0
    else (if IsAppEnabled(stored, ds[0].sbn.packageName) && ds[0].deliverable then 1 else 0)
         + AcceptedDeliverable(stored, ds[1..])
  }

  /** Callbacks from packages outside the enabled set leave no row and no
      broadcast behind. */
  lemma {:induction false} UnlistedLeaveNoTrace(e: Effects, stored: Option<set<string>>, ds: seq<Delivery>)
    requires TableValid(e.table)
    requires forall i :: 0 <= i < |ds| ==> !IsAppEnabled(stored, ds[i].sbn.packageName)
    ensures HandleAll(e, stored, ds) == e
    decreases |ds|
  {
    if ds != [] {
      UnlistedLeaveNoTrace(e, stored, ds[1..]);
    }
  }

  /** Every accepted callback is broadcast exactly once when the broadcast can be
      sent, whether or not its insert succeeded. */
  lemma {:induction false} AcceptedAreBroadcastOnce(e: Effects, stored: Option<set<string>>, ds: seq<Delivery>)
    requires TableValid(e.table)
    ensures |HandleAll(e, stored, ds).broadcasts| == |e.broadcasts| + AcceptedDeliverable(stored, ds)
    decreases |ds|
  {
    if ds != [] {
      var d := ds[0];
      AcceptedAreBroadcastOnce(Handle(e, stored, d.sbn, d.action, d.now, d.writable, d.deliverable), stored, ds[1..]);
    }
  }

  /** While the database is writable and ids remain, every accepted callback adds
      exactly one row: none is lost and none is stored twice. */
  lemma {:induction false} AcceptedAreStoredOnce(e: Effects, stored: Option<set<string>>, ds: seq<Delivery>)
    requires TableValid(e.table)
    requires forall i :: 0 <= i < |ds| ==> ds[i].writable
    requires e.table.lastId + |ds| <= MaxRowId
    ensures |HandleAll(e, stored, ds).table.rows| == |e.table.rows| + Accepted(stored, ds)
    ensures HandleAll(e, stored, ds).table.lastId == e.table.lastId + Accepted(stored, ds)
    decreases |ds|
  {
    if ds != [] {
      var d := ds[0];
      var e1 := Handle(e, stored, d.sbn, d.action, d.now, d.writable, d.deliverable);
      AcceptedAreStoredOnce(e1, stored, ds[1..]);
    }
  }

  // ---------------------------------------------------------------------------
  // The service

  class NotificationListener {
    const prefs: SharedPreferences
    const db: NotificationDatabaseHelper
    /** The payloads of the "com.macronotify.NOTIFICATION_RECEIVED" broadcasts
        sent so far, in order. */
    var broadcasts: seq<map<string, Value>>

    constructor (prefs: SharedPreferences, db: NotificationDatabaseHelper)
      ensures this.prefs == prefs && this.db == db && broadcasts == []
    {
      this.prefs := prefs;
      this.db := db;
      broadcasts := [];
    }

    /** Never throws: the filter, the record and the two side effects each
        complete, and the two side effects swallow their own failures. */
    method HandleNotification(sbn: StatusBarNotification, action: string, now: int,
                              writable: bool, deliverable: bool)
      requires db.Valid()
      modifies this, db
      ensures db.Valid()
      ensures Effects(db.notifications, broadcasts)
           == Handle(Effects(old(db.notifications), old(broadcasts)), prefs.enabledApps,
                     sbn, action, now, writable, deliverable)
      ensures db.enabledApps == old(db.enabledApps)
    {
      var packageName := sbn.packageName;
      var notification := sbn.notification;
      var key := sbn.key;
      var postTime := sbn.postTime;

      if !IsAppEnabled(prefs.enabledApps, packageName) {
        return;
      }

      var title := ExtractTitle(notification);
      var text := ExtractText(notification);
      var subText := ExtractSubText(notification);
      var bigText := ExtractBigText(notification);

      var notificationData := NotificationData(packageName, title, text, subText, bigText,
                                               key, postTime, now, action, sbn.id);

      SaveNotificationToDatabase(notificationData, now, writable);
      SendToFlutter(notificationData, deliverable);
    }

    /** Hands the record to insertNotification, which catches its own failures. */
    method SaveNotificationToDatabase(data: map<string, Value>, now: int, writable: bool)
      requires db.Valid()
      modifies db
      ensures db.Valid()
      ensures db.notifications == Inserted(old(db.notifications), data, now, writable)
      ensures db.enabledApps == old(db.enabledApps)
    {
      db.InsertNotification(data, now, writable);
    }

    /** Sends the record as a broadcast; a failure to send is caught and dropped. */
    method SendToFlutter(data: map<string, Value>, deliverable: bool)
      modifies this
      ensures broadcasts == old(broadcasts) + if deliverable then [data] else []
    {
      if deliverable {
        broadcasts := broadcasts + [data];
      }
    }

    method OnNotificationPosted(sbn: Option<StatusBarNotification>, now: int, writable: bool, deliverable: bool)
      requires db.Valid()
      modifies this, db
      ensures db.Valid()
      ensures sbn.None? ==> db.notifications == old(db.notifications) && broadcasts == old(broadcasts)
      ensures sbn.Some? ==>
        Effects(db.notifications, broadcasts)
          == Handle(Effects(old(db.notifications), old(broadcasts)), prefs.enabledApps,
                    sbn.value, "posted", now, writable, deliverable)
      ensures db.enabledApps == old(db.enabledApps)
    {
      if sbn.Some? {
        HandleNotification(sbn.value, "posted", now, writable, deliverable);
      }
    }

    method OnNotificationRemoved(sbn: Option<StatusBarNotification>, now: int, writable: bool, deliverable: bool)
      requires db.Valid()
      modifies this, db
      ensures db.Valid()
      ensures sbn.None? ==> db.notifications == old(db.notifications) && broadcasts == old(broadcasts)
      ensures sbn.Some? ==>
        Effects(db.notifications, broadcasts)
          == Handle(Effects(old(db.notifications), old(broadcasts)), prefs.enabledApps,
                    sbn.value, "removed", now, writable, deliverable)
      ensures db.enabledApps == old(db.enabledApps)
    {
      if sbn.Some? {
        HandleNotification(sbn.value, "removed", now, writable, deliverable);
      }
    }
  }
}
