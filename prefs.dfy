/** The "macro_notify_prefs" SharedPreferences file that MainActivity writes and
    NotificationListener reads, reduced to its one key "enabled_apps". */
module Prefs {
  import opened Values

  class SharedPreferences {
    /** The string set stored under "enabled_apps", or None while the key has
        never been written. */
    var enabledApps: Option<set<string>>

    constructor ()
      ensures enabledApps == None
    {
      enabledApps := None;
    }

    /** `edit().putStringSet("enabled_apps", names).apply()`. */
    method PutEnabledApps(names: set<string>)
      modifies this
      ensures enabledApps == Some(names)
    {
      enabledApps := Some(names);
    }
  }

  /** `getStringSet("enabled_apps", setOf()) ?: setOf()`: an absent key reads as
      the empty set. */
  function StoredSet(stored: Option<set<string>>): set<string>
  {
    match stored
    case None => {}
    case Some(names) => names
  }
}
