# macro_notify notification pipeline, modelled in Dafny

This is a model of the Android side of macro_notify. The model proves properties about it.

- A `NotificationListenerService` receives every posted or removed status-bar notification. It keeps only those whose package is in the "enabled_apps" preference.
- For each notification it keeps, it reads the title and texts out of the notification's extras Bundle. It then builds a record, stores the record in a SQLite table and broadcasts it to the app.
- `MainActivity` answers the Flutter method channel. The commands are: list, delete or clear the stored notifications; list, enable or disable monitored apps.
- After every enable or disable, `MainActivity` rewrites the preference the listener reads.
- `MainActivity` also holds the event channel's single sink.

Modules: one per source file, plus two shared modules (`Values` and `Prefs`):

- `Values` (`values.dfy`): `Option`, and the dynamically typed values of a `Map<String, Any>`, a `JSONObject` or a `Bundle`. It also has Kotlin's `as? String ?:` and `as? Long ?:` fallbacks.
- `Store` (`store.dfy`): `NotificationDatabaseHelper` as a class with two fields. The `notifications` table is rows plus the AUTOINCREMENT sequence (the largest id ever assigned). The `enabled_apps` table is a map keyed by package name.
  - Each method is proved against a specification function (`Inserted`, `Deleted`, `Cleared`, `Upserted`) or a predicate on its answer (`IsNewestFirstPage`, `IsEnabledListing`).
  - A trace model (`Run` over inserts, deletes and clears) proves that ids are never reused.
- `Prefs` (`prefs.dfy`): the "macro_notify_prefs" SharedPreferences, reduced to its "enabled_apps" string set.
- `Activity` (`activity.dfy`): the method-channel handler as one method with one postcondition per command. Also the `eventSink` and its onListen/onCancel history.
- `Listener` (`listener.dfy`): the capture path.
  - `Capture` is the filter plus the record.
  - `Handle` is one callback's effect on the table and on the broadcasts.
  - `HandleAll` is a run of callbacks.
  - The `NotificationListener` class implements each callback and is proved equal to `Handle`.

How the environment is modelled:

- **Clock.** `System.currentTimeMillis()` is the parameter `now`.
- **Failures.** Whether the database opens for writing is the parameter `writable`. Whether the broadcast goes out is the parameter `deliverable`. Both failures are caught in the source, and in the model they change nothing else.
- **Insert semantics.** A new id is the sequence value plus one. Once the sequence reaches 2^63-1 every insert fails (SQLITE_FULL), and the failure is swallowed.
- **Query semantics.** The limit reaches the query as `limit.toString()`. Android's query builder accepts a LIMIT string only if it is made of digits. So a negative limit makes the query throw IllegalArgumentException("invalid LIMIT clauses:" + limit). Neither getNotifications nor the handler catches it. Flutter's MethodChannel then answers the call with an error reply whose code is "error" and whose message is the exception's. `ORDER BY timestamp DESC` leaves the order of equal timestamps open, so a successful `getNotifications` is specified by a predicate that allows any such order. `SortNewestFirst` shows that a correct answer exists for every non-negative limit.

Three consequences of the code:

- **Ordering.** Rows come back by their capture timestamp, not by insertion order. "The last inserted record comes first" holds only when its timestamp is strictly the largest (`Store.NewestRowComesFirst`).
- **Negative limit.** A negative limit is not clamped or treated as "no limit": the call fails with an error reply.
- **Live relay.** The listener does not hand records to the single event sink. It sends an app-wide broadcast. `MainActivity` only stores and clears the sink, and no code in the modelled files publishes to it.

One point where the code cannot be taken literally:

- At NotificationListener.kt:73 and :128 the record is turned into a String (`notificationData.toString()`) and then passed to `insertNotification`, which takes a `Map<String, Any>`. As written this does not compile.
- The model takes the evident intent: the record's fields are handed to `insertNotification` as a map. The `timestamp` (a Long) and the texts are therefore stored as captured (`Listener.CapturedRowKeepsFields`).

## Model

| member | source | states |
|---|---|---|
| Store.NotificationDatabaseHelper.constructor | android/app/src/main/kotlin/com/macronotify/macro_notify/NotificationDatabaseHelper.kt:31-50 | onCreate yields two empty tables, with the AUTOINCREMENT sequence at 0 |
| Store.Inserted | android/app/src/main/kotlin/com/macronotify/macro_notify/NotificationDatabaseHelper.kt:60-76 | when the database is writable and ids remain, exactly one row is appended. Its id is one above every id assigned before. Its fields take the `as?` defaults ("" for the texts, "posted" for action, the clock for a non-Long timestamp, is_active 1). Otherwise the failure is swallowed and the table is unchanged. The table invariant is kept. |
| Store.NotificationDatabaseHelper.InsertNotification | android/app/src/main/kotlin/com/macronotify/macro_notify/NotificationDatabaseHelper.kt:60-76 | the new table is `Inserted` of the old one, and the enabled-apps table is untouched |
| Store.IntToString | android/app/src/main/kotlin/com/macronotify/macro_notify/NotificationDatabaseHelper.kt:85 | `limit.toString()` is non-empty and starts with a minus sign exactly when the limit is negative |
| Store.LimitClauseIffNonNegative | android/app/src/main/kotlin/com/macronotify/macro_notify/NotificationDatabaseHelper.kt:81-86 | the limit string passes the query builder's LIMIT check exactly when the limit is not negative |
| Store.LimitClauseExamples | android/app/src/main/kotlin/com/macronotify/macro_notify/NotificationDatabaseHelper.kt:78-86 | the default limit is sent as "100" and accepted; -1 is refused with the message "invalid LIMIT clauses:-1" |
| Store.PageSize | android/app/src/main/kotlin/com/macronotify/macro_notify/NotificationDatabaseHelper.kt:81-86 | a LIMIT lets through min(limit, n) of n rows |
| Store.SortedPrefixIsPage | android/app/src/main/kotlin/com/macronotify/macro_notify/NotificationDatabaseHelper.kt:81-86 | for every non-negative limit, the first rows of the timestamp-descending order are a correct query answer. A correct answer has min(limit, n) rows. Its rows are drawn from the table without duplication beyond the table's own. It is sorted newest first. No omitted row is newer than a returned one. |
| Store.NotificationDatabaseHelper.GetNotifications | android/app/src/main/kotlin/com/macronotify/macro_notify/NotificationDatabaseHelper.kt:78-109 | the query fails with the invalid-LIMIT exception exactly when the limit (default 100) is negative. Otherwise the list the cursor loop builds is a correct answer (`IsNewestFirstPage`). |
| Store.NewestRowComesFirst | android/app/src/main/kotlin/com/macronotify/macro_notify/NotificationDatabaseHelper.kt:81-86 | a row strictly newer than all others is the first row of every correct answer with a non-zero limit |
| Store.DeleteById | android/app/src/main/kotlin/com/macronotify/macro_notify/NotificationDatabaseHelper.kt:111-113 | a row survives exactly when its id differs from the deleted id |
| Store.DeleteByIdCounts | android/app/src/main/kotlin/com/macronotify/macro_notify/NotificationDatabaseHelper.kt:111-113 | rows with the id disappear, and every other row keeps its multiplicity |
| Store.DeleteKeepsOrder | android/app/src/main/kotlin/com/macronotify/macro_notify/NotificationDatabaseHelper.kt:111-113 | deleting keeps the ids strictly increasing in rowid order |
| Store.Deleted | android/app/src/main/kotlin/com/macronotify/macro_notify/NotificationDatabaseHelper.kt:111-113 | the table after a delete is valid, keeps its sequence, and holds exactly the old rows with another id |
| Store.DeleteIdempotent | android/app/src/main/kotlin/com/macronotify/macro_notify/NotificationDatabaseHelper.kt:111-113 | deleting the same id twice equals deleting it once |
| Store.DeleteAbsentIsIdentity | android/app/src/main/kotlin/com/macronotify/macro_notify/NotificationDatabaseHelper.kt:111-113 | deleting an id no row carries changes nothing and is not an error |
| Store.NotificationDatabaseHelper.DeleteNotification | android/app/src/main/kotlin/com/macronotify/macro_notify/NotificationDatabaseHelper.kt:111-113 | the new table is `Deleted` of the old one, and the enabled-apps table is untouched |
| Store.Cleared | android/app/src/main/kotlin/com/macronotify/macro_notify/NotificationDatabaseHelper.kt:115-117 | no rows remain, and the AUTOINCREMENT sequence is kept |
| Store.NotificationDatabaseHelper.ClearAllNotifications | android/app/src/main/kotlin/com/macronotify/macro_notify/NotificationDatabaseHelper.kt:115-117 | the new table is `Cleared` of the old one, and the enabled-apps table is untouched |
| Store.ApplyNeverReusesIds | android/app/src/main/kotlin/com/macronotify/macro_notify/NotificationDatabaseHelper.kt:34 | one insert, delete or clear never lowers the sequence. Any row not there before carries an id above the old sequence. |
| Store.IdsNeverReused | android/app/src/main/kotlin/com/macronotify/macro_notify/NotificationDatabaseHelper.kt:34 | the same holds over any sequence of inserts, deletes and clears |
| Store.DeletedIdNeverReturns | android/app/src/main/kotlin/com/macronotify/macro_notify/NotificationDatabaseHelper.kt:34 | an id that was assigned and deleted never reappears, whatever follows |
| Store.Upserted | android/app/src/main/kotlin/com/macronotify/macro_notify/NotificationDatabaseHelper.kt:119-126 | CONFLICT_REPLACE leaves exactly one enabled row for the package, with the new name. Every other package keeps its row. |
| Store.UpsertIdempotent | android/app/src/main/kotlin/com/macronotify/macro_notify/NotificationDatabaseHelper.kt:119-126 | enabling the same app twice equals enabling it once |
| Store.EnableAddsPackage | android/app/src/main/kotlin/com/macronotify/macro_notify/NotificationDatabaseHelper.kt:119-126 | the enabled packages after an enable are the old ones plus that package |
| Store.RemoveDropsPackage | android/app/src/main/kotlin/com/macronotify/macro_notify/NotificationDatabaseHelper.kt:128-130 | the enabled packages after a removal are the old ones minus that package |
| Store.NotificationDatabaseHelper.AddEnabledApp | android/app/src/main/kotlin/com/macronotify/macro_notify/NotificationDatabaseHelper.kt:119-126 | the new apps table is `Upserted` of the old one, and notifications are untouched |
| Store.NotificationDatabaseHelper.RemoveEnabledApp | android/app/src/main/kotlin/com/macronotify/macro_notify/NotificationDatabaseHelper.kt:128-130 | the package's row is gone, every other row stays, and notifications are untouched |
| Store.NotificationDatabaseHelper.GetEnabledApps | android/app/src/main/kotlin/com/macronotify/macro_notify/NotificationDatabaseHelper.kt:132-149 | the list has one entry per package with is_enabled = 1 and no others, each with that package's app name, in any order |
| Prefs.SharedPreferences.PutEnabledApps | android/app/src/main/kotlin/com/macronotify/macro_notify/MainActivity.kt:214 | the stored "enabled_apps" set becomes exactly the given set |
| Activity.MainActivity.constructor | android/app/src/main/kotlin/com/macronotify/macro_notify/MainActivity.kt:34-45 | the activity shares the given database and preferences, and starts with no sink |
| Activity.MainActivity.UpdateEnabledAppsPrefs | android/app/src/main/kotlin/com/macronotify/macro_notify/MainActivity.kt:211-216 | the preference becomes exactly the set of enabled package names in the database |
| Activity.MainActivity.OnMethodCall | android/app/src/main/kotlin/com/macronotify/macro_notify/MainActivity.kt:49-121 | one clause per command. getNotifications succeeds with a correct page for a non-negative limit (default 100). For a negative limit it answers error("error", "invalid LIMIT clauses:" + limit). In both cases nothing changes. The state change of each command is stated, and read-only commands change nothing. Each missing argument gets its INVALID_ARGUMENT error and message, with no state change. enableApp and disableApp leave the preference equal to the database's enabled packages. An unlisted method gets notImplemented with no state change. |
| Activity.MainActivity.OnListen | android/app/src/main/kotlin/com/macronotify/macro_notify/MainActivity.kt:127-130 | the new sink replaces any earlier one |
| Activity.MainActivity.OnCancel | android/app/src/main/kotlin/com/macronotify/macro_notify/MainActivity.kt:132-135 | no sink is held afterwards |
| Activity.LastStreamEventDecides | android/app/src/main/kotlin/com/macronotify/macro_notify/MainActivity.kt:127-135 | after any non-empty run of onListen/onCancel, the sink is decided by the last call alone, so at most one subscriber is held |
| Activity.ReplacedSinkStaysGone | android/app/src/main/kotlin/com/macronotify/macro_notify/MainActivity.kt:127-135 | a sink that does not attach again during a run is not held at its end |
| Listener.ExtractExtra | android/app/src/main/kotlin/com/macronotify/macro_notify/NotificationListener.kt:83-117 | a String stored under the key is returned as is. A non-empty result was stored as that String. Anything else is "": a null Bundle, an absent key, a null value or a non-String value. |
| Listener.IsAppEnabled | android/app/src/main/kotlin/com/macronotify/macro_notify/NotificationListener.kt:119-123 | a package is accepted exactly when the preference has been written and contains it |
| Listener.NotificationData | android/app/src/main/kotlin/com/macronotify/macro_notify/NotificationListener.kt:57-68 | the record has exactly the ten keys the listener puts |
| Listener.Capture | android/app/src/main/kotlin/com/macronotify/macro_notify/NotificationListener.kt:37-68 | a callback is dropped exactly when its package is not enabled. Otherwise the record has exactly the ten keys, and every value is stated: the package, the four extracted texts, the key, postTime, the clock, the action and the source id. |
| Listener.CapturedRowKeepsFields | android/app/src/main/kotlin/com/macronotify/macro_notify/NotificationListener.kt:57-73 | the stored row of a captured record has its package, title, text, capture timestamp and action. No insert default applies. |
| Listener.MirrorFollowsEnableAndDisable | android/app/src/main/kotlin/com/macronotify/macro_notify/NotificationListener.kt:119-123 | once the preference mirrors the database, an enabled app is accepted and a disabled one is dropped |
| Listener.Handle | android/app/src/main/kotlin/com/macronotify/macro_notify/NotificationListener.kt:37-81 | one callback keeps the table valid. A callback from a package that is not enabled changes nothing. For an accepted one, the table becomes `Inserted` of the captured record, whether or not the broadcast works. The captured record is appended to the broadcasts exactly when sending works, whether or not the insert succeeded. |
| Listener.StoreAndBroadcastAreIndependent | android/app/src/main/kotlin/com/macronotify/macro_notify/NotificationListener.kt:73-76 | whether the broadcast works does not change what is stored, and whether the database works does not change what is broadcast |
| Listener.UnlistedLeaveNoTrace | android/app/src/main/kotlin/com/macronotify/macro_notify/NotificationListener.kt:45-48 | callbacks from packages that are not enabled leave no row and no broadcast |
| Listener.AcceptedAreBroadcastOnce | android/app/src/main/kotlin/com/macronotify/macro_notify/NotificationListener.kt:73-76 | every accepted callback is broadcast exactly once when sending works, whatever became of its insert |
| Listener.AcceptedAreStoredOnce | android/app/src/main/kotlin/com/macronotify/macro_notify/NotificationListener.kt:73 | while the database is writable and ids remain, every accepted callback adds exactly one row and one id |
| Listener.NotificationListener.HandleNotification | android/app/src/main/kotlin/com/macronotify/macro_notify/NotificationListener.kt:37-81 | filter, extraction, record, save and send have exactly the effect `Handle` describes, and the enabled-apps table is untouched |
| Listener.NotificationListener.SaveNotificationToDatabase | android/app/src/main/kotlin/com/macronotify/macro_notify/NotificationListener.kt:125-132 | the table becomes `Inserted` of the old one |
| Listener.NotificationListener.SendToFlutter | android/app/src/main/kotlin/com/macronotify/macro_notify/NotificationListener.kt:134-142 | the record is appended to the broadcasts when sending works, and nothing changes otherwise |
| Listener.NotificationListener.OnNotificationPosted | android/app/src/main/kotlin/com/macronotify/macro_notify/NotificationListener.kt:23-28 | a null notification changes nothing. Otherwise the effect is `Handle` with action "posted". |
| Listener.NotificationListener.OnNotificationRemoved | android/app/src/main/kotlin/com/macronotify/macro_notify/NotificationListener.kt:30-35 | a null notification changes nothing. Otherwise the effect is `Handle` with action "removed". |

## Left out

- Platform commands of the handler are not modelled: isNotificationListenerEnabled, openNotificationListenerSettings, checkPermissions, requestPermissions and getInstalledApps. They query or open Android system services. In the model their names are listed, so they never reach notImplemented.
- BootReceiver and NotificationReceiver are context, not part of this model.
- onUpgrade, onListenerConnected and onListenerDisconnected are not modelled. They drop tables on a version change that never happens at version 1, or only log.
- The SQL text, cursors and column indices are not modelled. The rows are held abstractly.
- Logging is not modelled.
- Serialising the record for the broadcast Intent (`JSONObject.toString`) is not modelled. The broadcast carries the record itself.
- The argument codec of the method channel is not modelled. Arguments arrive as `Option`s of the right type. A wrongly typed argument (for instance an Integer id where `call.argument<Long>` expects a Long) would throw a ClassCastException; this model does not cover that case.
- Storage failures in deleteNotification, clearAllNotifications, getNotifications, addEnabledApp, removeEnabledApp and getEnabledApps are not modelled. Those calls do not catch exceptions, and the model lets them succeed. Storage failure is modelled only for insertNotification, whose failures the source catches.
- Listener.NotificationListener.HandleNotification: the outer catch at NotificationListener.kt:78-80 is not modelled as a separate path. With the extractors and the two side effects catching their own failures, nothing in the modelled body can throw.
- Threading is not modelled: listener callbacks and method calls run on different threads against the same database. The model runs one operation at a time.
- Integer widths are not modelled. Kotlin Int and Long values (limit, id, postTime, timestamp) are unbounded integers, except that row ids stop at 2^63-1.
- The insert's fallback clock is the same `now` as the capture clock. Each model call reads the clock once; the source reads it twice.
- Activity.MainActivity.constructor: `eventSink` is a companion (static) variable in the source, shared by every MainActivity and kept when the activity is recreated. The model has one activity per process and keeps the sink per instance, starting at None. A recreated activity in the source may still hold the previous engine's sink, and the model does not capture that.
- The Flutter-side EventSink object is not modelled: the sink is an opaque handle, and nothing publishes to it in the modelled code.
