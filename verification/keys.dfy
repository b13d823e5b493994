/** The API-key registry of the desktop app: a list of named keys and the
    index of the active one, held in an in-memory configuration record.
    Loading and saving the JSON file is not part of this model; each
    operation returns the configuration it leaves in memory. */
module KeyRegistry {
  import opened Common

  datatype KeyEntry = KeyEntry(name: string, key: string)

  /** The configuration record. An absent key list reads as the empty
      list, so it is always present here; the active index may be absent
      from a hand-written file, and readers then default it to 0. */
  datatype Config = Config(keys: seq<KeyEntry>, activeIndex: Option<int>)

  /** The index readers use: the stored one, or 0 when it is absent. */
  function ActiveIndex(c: Config): int
  {
    c.activeIndex.GetOr(0)
  }

  predicate InRange(c: Config, i: int)
  {
    0 <= i < |c.keys|
  }

  /** The registry invariant: the index is stored, lies inside a
      non-empty list, and is 0 for the empty list. */
  predicate Valid(c: Config)
  {
    c.activeIndex.Some? && (if |c.keys| == 0 then c.activeIndex.value == 0 else InRange(c, c.activeIndex.value))
  }

  /** The configuration created when no file exists: one "Default" entry
      when the environment supplies a key, none otherwise; index 0. */
  function DefaultConfig(envKey: string): (c: Config)
    ensures Valid(c)
    ensures envKey != [] <==> |c.keys| == 1
    ensures envKey != [] ==> c.keys[0] == KeyEntry("Default", envKey)
    ensures GetActiveKey(c) == (if envKey == [] then None else Some(envKey))
  {
    Config(if envKey != [] then [KeyEntry("Default", envKey)] else [], Some(0))
  }

  /** `get_active_key`: the key at the active index when that index lies in
      the list, nothing otherwise. Under the invariant a key is returned
      exactly when the list is non-empty. */
  function GetActiveKey(c: Config): (r: Option<string>)
    ensures r.Some? <==> InRange(c, ActiveIndex(c))
    ensures r.Some? ==> r.value == c.keys[ActiveIndex(c)].key
    ensures Valid(c) ==> (r.Some? <==> |c.keys| > 0)
  {
    var i := ActiveIndex(c);
    if |c.keys| > 0 && 0 <= i < |c.keys| then Some(c.keys[i].key) else None
  }

  /** `get_active_key_name`: the same selection, reporting the name. */
  function GetActiveKeyName(c: Config): (r: Option<string>)
    ensures r.Some? <==> GetActiveKey(c).Some?
    ensures r.Some? ==> KeyEntry(r.value, GetActiveKey(c).value) == c.keys[ActiveIndex(c)]
  {
    var i := ActiveIndex(c);
    if |c.keys| > 0 && 0 <= i < |c.keys| then Some(c.keys[i].name) else None
  }

  /** `set_active_key`: an index inside the list becomes the active one;
      any other index leaves the configuration as it was. */
  function SetActiveKey(c: Config, index: int): (c': Config)
    ensures c'.keys == c.keys
    ensures InRange(c, index) ==> GetActiveKey(c') == Some(c.keys[index].key) && ActiveIndex(c') == index
    ensures !InRange(c, index) ==> c' == c
    ensures Valid(c) ==> Valid(c')
  {
    if 0 <= index < |c.keys| then c.(activeIndex := Some(index)) else c
  }

  /** `add_key`: appends the entry and leaves the earlier entries and the
      active index alone. */
  function AddKey(c: Config, name: string, key: string): (c': Config)
    ensures |c'.keys| == |c.keys| + 1
    ensures c'.keys[..|c.keys|] == c.keys && c'.keys[|c.keys|] == KeyEntry(name, key)
    ensures c'.activeIndex == c.activeIndex
    ensures Valid(c) ==> Valid(c')
    ensures GetActiveKey(c).Some? ==> GetActiveKey(c') == GetActiveKey(c)
  {
    c.(keys := c.keys + [KeyEntry(name, key)])
  }

  /** What `remove_key` leaves in memory, and the exception it raised, if
      any (the text of that exception). */
  datatype Removal = Removal(config: Config, raised: Option<string>)

  /** `remove_key` as written: an index outside the list changes nothing;
      otherwise the entry is popped and, when the stored active index is
      now past the end, it is reset to the last position (0 for an empty
      list). When the file had no active index, reading it raises
      `KeyError` after the entry has already been popped. */
  function RemoveKey(c: Config, index: int): (r: Removal)
    ensures !InRange(c, index) ==> r == Removal(c, None)
    ensures InRange(c, index) ==> r.config.keys == c.keys[..index] + c.keys[index + 1..]
    ensures InRange(c, index) && c.activeIndex.None? ==> r == Removal(Config(r.config.keys, None), Some("'active_key_index'"))
    ensures InRange(c, index) && c.activeIndex.Some? ==> r.raised.None? && r.config.activeIndex.Some?
    ensures InRange(c, index) && c.activeIndex.Some? && c.activeIndex.value < |c.keys| - 1 ==> r.config.activeIndex == c.activeIndex
    ensures InRange(c, index) && c.activeIndex.Some? && c.activeIndex.value >= |c.keys| - 1 ==> r.config.activeIndex == Some(if |c.keys| > 1 then |c.keys| - 2 else 0)
    ensures Valid(c) ==> Valid(r.config) && r.raised.None?
  {
    if 0 <= index < |c.keys| then
      var keys := c.keys[..index] + c.keys[index + 1..];
      match c.activeIndex
      case None => Removal(Config(keys, None), Some("'active_key_index'"))
      case Some(a) =>
        var a' := if a >= |keys| then (if |keys| - 1 > 0 then |keys| - 1 else 0) else a;
        Removal(Config(keys, Some(a')), None)
    else Removal(c, None)
  }

  /** Removing an entry below the active one keeps the stored index, so the
      active key silently becomes the entry that followed it. */
  lemma RemoveBelowActiveShiftsActiveKey()
    ensures var c := Config([KeyEntry("a", "ka"), KeyEntry("b", "kb"), KeyEntry("c", "kc")], Some(1));
            && Valid(c)
            && GetActiveKey(c) == Some("kb")
            && GetActiveKey(RemoveKey(c, 0).config) == Some("kc")
  {
    var c := Config([KeyEntry("a", "ka"), KeyEntry("b", "kb"), KeyEntry("c", "kc")], Some(1));
    assert RemoveKey(c, 0).config.keys == [KeyEntry("b", "kb"), KeyEntry("c", "kc")];
  }

  /** `remove_key` with the index shifted down when an earlier entry goes,
      so that removing any other entry keeps the active one active. */
  function RemoveKeyKeepingActive(c: Config, index: int): (r: Removal)
    ensures r.config.keys == RemoveKey(c, index).config.keys
    ensures r.raised == RemoveKey(c, index).raised
    ensures Valid(c) ==> Valid(r.config)
    ensures Valid(c) && InRange(c, index) && index != ActiveIndex(c) ==>
              InRange(r.config, ActiveIndex(r.config)) && r.config.keys[ActiveIndex(r.config)] == c.keys[ActiveIndex(c)]
  {
    var r := RemoveKey(c, index);
    match c.activeIndex
    case Some(a) =>
      if 0 <= index < a then
        Removal(r.config.(activeIndex := Some(a - 1)), r.raised)
      else r
    case None => r
  }
}
