/** The diagnostic collector the proxy writes into, seen through the calls the
    proxy makes on it (updateAll, getLevel, getMessage, getValue). */
module Diagnostics {

  /** Levels of diagnostic_msgs/DiagnosticStatus. */
  datatype Level = Ok | Warn | Error | Stale

  /** One updateAll(level, message, key, value) call. */
  datatype Update = Update(level: Level, message: string, key: string, value: string)

  /** The collector's state: an overall level and message, and one value per key. */
  datatype Collector = Collector(level: Level, message: string, values: map<string, string>)
  {
    /** getValue: the value stored under key, the empty string when there is none. */
    function GetValue(key: string): string
    {
      if key in values then values[key] else ""
    }

    /** updateAll: the update's level and message become the overall ones, and
        its value is stored under its key; every other key keeps its value. */
    function UpdateAll(u: Update): (c: Collector)
      ensures c.level == u.level && c.message == u.message
      ensures c.GetValue(u.key) == u.value
      ensures forall k :: k != u.key ==> c.GetValue(k) == GetValue(k)
    {
      Collector(u.level, u.message, values[u.key := u.value])
    }
  }

  /** A later update under the same key hides an earlier one completely. */
  lemma UpdateAllOverwrites(c: Collector, u1: Update, u2: Update)
    requires u1.key == u2.key
    ensures c.UpdateAll(u1).UpdateAll(u2) == c.UpdateAll(u2)
  {
  }

  datatype KeyValue = KeyValue(key: string, value: string)

  /** The diagnostic_updater status a diagnostic callback fills in. */
  datatype Status = Status(level: Level, message: string, values: seq<KeyValue>)

  /** diagnostic_callback: the collector's overall level and message, and the
      DEVICE, NMT and EMCY values under the names device_state, nmt_state and
      emcy_state. */
  function Summarize(c: Collector): Status
  {
    Status(c.level, c.message,
           [KeyValue("device_state", c.GetValue("DEVICE")),
            KeyValue("nmt_state", c.GetValue("NMT")),
            KeyValue("emcy_state", c.GetValue("EMCY"))])
  }
}
