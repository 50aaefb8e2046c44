/** The Admin client configuration (a java.util.Properties object) as an
    immutable map from option name to value, and the two ways the
    configuration code writes to it. */
module ConfigMaps {
  import opened Wrappers

  type Config = map<string, string>

  /** The value the configuration holds for `key`, if any. */
  function Lookup(m: Config, key: string): Option<string> {
    if key in m then Some(m[key]) else None
  }

  /** Properties.setProperty: the written value wins over whatever the caller
      had under `key`; every other option keeps its value. */
  function SetAuthoritative(m: Config, key: string, value: string): (r: Config)
    ensures Lookup(r, key) == Some(value)
    ensures forall k :: k != key ==> Lookup(r, k) == Lookup(m, k)
  {
    m[key := value]
  }

  /** Properties.putIfAbsent: a value the caller already set wins; otherwise
      `value` is added. Every other option keeps its value. */
  function SetDefault(m: Config, key: string, value: string): (r: Config)
    ensures Lookup(r, key) == Some(Lookup(m, key).GetOr(value))
    ensures forall k :: k != key ==> Lookup(r, k) == Lookup(m, k)
  {
    if key in m then m else m[key := value]
  }

  /** The value of the first row of `table` whose key is `key`. */
  function TableLookup(table: seq<(string, string)>, key: string): (r: Option<string>)
    ensures r.Some? <==> exists i :: 0 <= i < |table| && table[i].0 == key
    decreases |table|
  {
    if table == [] then None
    else if table[0].0 == key then Some(table[0].1)
    else
      assert forall i :: 1 <= i < |table| ==> table[1..][i - 1] == table[i];
      TableLookup(table[1..], key)
  }

  /** putIfAbsent applied to each row of `table` in order: an option the caller
      set keeps its value, an unset option named in the table gets the table's
      (first) value for it, and every other option stays unset. */
  function SetDefaults(m: Config, table: seq<(string, string)>): (r: Config)
    ensures forall k :: Lookup(r, k) == if k in m then Lookup(m, k) else TableLookup(table, k)
    decreases |table|
  {
    if table == [] then m
    else SetDefaults(SetDefault(m, table[0].0, table[0].1), table[1..])
  }
}
