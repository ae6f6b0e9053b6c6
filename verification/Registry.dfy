/** tasks.go, fulltable.go and the metadata part of state.go, hourly.go and main.go: what a
    state file says about how it is used. */
module Registry {
  import opened Strings

  datatype Key = Key(sourceDB: string, targetDB: string, table: string)

  /** A row of hourly_task, as far as it is fixed when the task is added. */
  datatype HourlyTask = HourlyTask(timeField: string, start: string, zone: string)

  /** The command line and configuration, as far as run checks them against the file. */
  datatype Settings = Settings(mode: string, timeField: string, managed: bool, start: string, zone: string)

  /** run's checks before it opens the state file; blank stands for whitespace only. */
  predicate SettingsValid(c: Settings, blank: string -> bool) {
    && (c.mode == "overwrite" ==> c.timeField == "" && !c.managed)
    && (c.mode == "time-window" ==> !blank(c.timeField) && !c.managed)
    && (c.mode == "hourly-window" ==> if c.managed then c.timeField == "" else !blank(c.timeField))
    && c.mode in {"overwrite", "time-window", "hourly-window"}
  }

  /** INSERT OR IGNORE INTO metadata. */
  function InsertOrIgnore(m: map<string, string>, key: string, value: string): map<string, string> {
    if key in m then m else m[key := value]
  }

  function Get(m: map<string, string>, key: string): string {
    if key in m then m[key] else ""
  }

  /** What checkManagedHourlySettings requires of the file. */
  predicate ManagedAccepts(m: map<string, string>) {
    "hourly_start" !in m && ("hourly_managed" in m ==> m["hourly_managed"] == "1")
  }

  /** A setting is not recorded yet, or as this value. */
  predicate Agrees(m: map<string, string>, key: string, value: string) {
    key in m ==> m[key] == value
  }

  /** What checkHourlySettings requires. */
  predicate StaticAccepts(m: map<string, string>, start: string, zone: string) {
    "hourly_managed" !in m && Agrees(m, "hourly_start", start) && Agrees(m, "time_zone", zone)
  }

  /** What run requires of settings and file. */
  predicate ServiceAccepts(m: map<string, string>, c: Settings, blank: string -> bool) {
    && SettingsValid(c, blank)
    && Get(m, "mode") in {"", c.mode} && Get(m, "time_field") in {"", c.timeField}
    && (c.mode == "hourly-window" ==> if c.managed then ManagedAccepts(m) else StaticAccepts(m, c.start, c.zone))
  }

  /** What a task requires of the file. */
  predicate ClaimAccepts(m: map<string, string>) {
    Get(m, "mode") in {"", "hourly-window"} && ManagedAccepts(m)
  }

  class StateFile {
    var metadata: map<string, string>
    var hourly: map<Key, HourlyTask>
    var full: map<Key, nat>               // interval in seconds
    ghost var faults: nat                 // statements that failed

    ghost predicate Valid()
      reads this
    {
      && MetadataValid(metadata)
      && hourly.Keys !! full.Keys
      && (hourly.Keys + full.Keys != {} ==> "hourly_managed" in metadata && Get(metadata, "mode") == "hourly-window")
    }

    constructor ()
      ensures Valid() && metadata == map[] && hourly == map[] && full == map[]
    {
      metadata, hourly, full, faults := map[], map[], map[], 0;
    }

    /** Is a statement answered? */
    method Answered() returns (ok: bool)
      modifies `faults
      ensures faults == old(faults) + if ok then 0 else 1
    {
      ok := *;
      if !ok { faults := faults + 1; }
    }

    /** A statement may fail before or after it took effect. */
    method Insert(key: string, value: string) returns (ok: bool)
      modifies `metadata, `faults
      ensures metadata == old(metadata) || metadata == InsertOrIgnore(old(metadata), key, value)
      ensures faults == old(faults) + if ok then 0 else 1
      ensures ok ==> metadata == InsertOrIgnore(old(metadata), key, value)
    {
      ok := Answered();
      var committed: bool := *;
      if ok || committed { metadata := InsertOrIgnore(metadata, key, value); }
    }

    /** saveMetadata: mode and time field, in one transaction. */
    method SaveMetadata(mode: string, timeField: string) returns (ok: bool)
      modifies `metadata, `faults
      ensures metadata == old(metadata) || metadata == old(metadata)["mode" := mode]["time_field" := timeField]
      ensures faults == old(faults) + if ok then 0 else 1
      ensures ok ==> metadata == old(metadata)["mode" := mode]["time_field" := timeField]
    {
      ok := Answered();
      var committed: bool := *;
      if ok || committed { metadata := metadata["mode" := mode]["time_field" := timeField]; }
    }

    /** One turn of checkHourlySettings' loop. */
    method CheckSetting(key: string, value: string) returns (ok: bool)
      modifies `metadata, `faults
      ensures metadata == old(metadata) || metadata == InsertOrIgnore(old(metadata), key, value)
      ensures faults >= old(faults) && (ok <==> faults == old(faults) && Agrees(old(metadata), key, value))
      ensures ok ==> metadata == InsertOrIgnore(old(metadata), key, value)
      ensures ok ==> key in metadata && metadata[key] == value
    {
      ok := Answered();
      if !ok { return; }
      if key in metadata && metadata[key] != value { return false; }
      ok := Insert(key, value);
    }

    /** checkHourlySettings: the two settings, in either order. A failure may leave either
        one recorded, or both, or none. */
    method CheckHourlySettings(start: string, zone: string) returns (ok: bool)
      requires Valid()
      modifies `metadata, `faults
      ensures Valid() && Kept(old(metadata), metadata)
      ensures metadata in Partly(old(metadata), start, zone)
      ensures faults >= old(faults) && (ok <==> faults == old(faults) && StaticAccepts(old(metadata), start, zone))
      ensures ok ==> Get(metadata, "hourly_start") == start && Get(metadata, "time_zone") == zone && StaticFile(metadata)
    {
      hide MetadataValid, Kept, InsertOrIgnore;
      ghost var before := metadata;
      PartlyKeeps(before, start, zone);
      InsertTwice(before, start, zone);
      ok := Answered();
      if !ok || "hourly_managed" in metadata { return false; }
      var startFirst: bool := *;
      var first, second := ("hourly_start", start), ("time_zone", zone);
      if !startFirst { first, second := second, first; }
      ok := CheckSetting(first.0, first.1);
      if !ok { return; }
      InsertStays(metadata, second.0, second.1);
      InsertElsewhere(before, first.0, first.1, second.0, second.1);
      ok := CheckSetting(second.0, second.1);
    }

    /** checkManagedHourlySettings. */
    method CheckManagedHourlySettings() returns (ok: bool)
      requires Valid()
      modifies `metadata, `faults
      ensures Valid() && Kept(old(metadata), metadata)
      ensures faults >= old(faults) && (ok <==> faults == old(faults) && ManagedAccepts(old(metadata)))
      ensures ok ==> "hourly_managed" in metadata && "hourly_start" !in metadata
      ensures ok ==> (Mixed(metadata) <==> "time_zone" in old(metadata))
      ensures !ManagedAccepts(old(metadata)) ==> !ok && metadata == old(metadata)
    {
      ok := Answered();
      if !ok || "hourly_start" in metadata { return false; }
      if "hourly_managed" in metadata && metadata["hourly_managed"] != "1" { return false; }
      ok := Insert("hourly_managed", "1");
    }

    /** run, up to the first cycle. */
    method StartService(c: Settings, blank: string -> bool) returns (ok: bool)
      requires Valid() && blank("")
      modifies `metadata, `faults
      ensures Valid() && Kept(old(metadata), metadata)
      ensures faults >= old(faults) && (ok <==> faults == old(faults) && ServiceAccepts(old(metadata), c, blank))
      ensures ok ==> SettingsValid(c, blank) && Get(metadata, "mode") == c.mode && Get(metadata, "time_field") == c.timeField
    {
      if !SettingsValid(c, blank) { return false; }
      if Get(metadata, "mode") != "" && Get(metadata, "mode") != c.mode { return false; }
      if Get(metadata, "time_field") != "" && Get(metadata, "time_field") != c.timeField { return false; }
      if c.mode == "hourly-window" {
        var accepted: bool;
        if c.managed {
          accepted := CheckManagedHourlySettings();
        } else {
          accepted := CheckHourlySettings(c.start, c.zone);
        }
        if !accepted { return false; }
      }
      ok := SaveMetadata(c.mode, c.timeField);
    }

    /** What addHourlyTask and addFullTableTask share: the file is, or becomes, one of
        managed tasks. `taken` says whether the other table already has the key. */
    method ClaimManaged(taken: bool) returns (ok: bool)
      requires Valid()
      modifies `metadata, `faults
      ensures Valid() && Kept(old(metadata), metadata)
      ensures faults >= old(faults) && (ok <==> faults == old(faults) && ClaimAccepts(old(metadata)) && !taken)
      ensures ok ==> !taken && "hourly_managed" in metadata && Get(metadata, "mode") == "hourly-window"
      ensures ok ==> (Mixed(metadata) <==> "time_zone" in old(metadata))
    {
      if Get(metadata, "mode") != "" && Get(metadata, "mode") != "hourly-window" { return false; }
      ok := CheckManagedHourlySettings();
      if !ok { return; }
      ok := Answered();
      if !ok || taken { return false; }
      ok := SaveMetadata("hourly-window", "");
    }

    /** addHourlyTask. A task is only ever added, and only where there is none. */
    method AddHourlyTask(key: Key, task: HourlyTask, parses: (string, string) -> bool) returns (ok: bool)
      requires Valid()
      modifies this
      ensures Valid() && Kept(old(metadata), metadata) && full == old(full)
      ensures hourly == old(hourly) || (key !in old(hourly) && key !in full && hourly == old(hourly)[key := task])
      ensures faults >= old(faults)
      ensures ok <==>
                faults == old(faults) && ClaimAccepts(old(metadata))
                && Exact(key.sourceDB) && Exact(key.targetDB) && Exact(key.table) && Exact(task.timeField)
                && parses(task.start, task.zone) && key !in old(hourly) && key !in full
      ensures ok ==> (Mixed(metadata) <==> "time_zone" in old(metadata))
      ensures ok ==> hourly == old(hourly)[key := task] && key !in old(hourly) && parses(task.start, task.zone)
    {
      if !Exact(key.sourceDB) || !Exact(key.targetDB) || !Exact(key.table) || !Exact(task.timeField) { return false; }
      if !parses(task.start, task.zone) { return false; }
      ok := ClaimManaged(key in full);
      if !ok || key in hourly { return false; }
      ok := Answered();
      var committed: bool := *;
      if ok || committed { hourly := hourly[key := task]; }
    }

    /** addFullTableTask. */
    method AddFullTableTask(key: Key, interval: nat) returns (ok: bool)
      requires Valid()
      modifies this
      ensures Valid() && Kept(old(metadata), metadata) && hourly == old(hourly)
      ensures full == old(full) || (key !in old(full) && key !in hourly && full == old(full)[key := interval])
      ensures faults >= old(faults)
      ensures ok <==>
                faults == old(faults) && ClaimAccepts(old(metadata))
                && Exact(key.sourceDB) && Exact(key.targetDB) && Exact(key.table) && interval >= 60
                && key !in old(full) && key !in hourly
      ensures ok ==> (Mixed(metadata) <==> "time_zone" in old(metadata))
      ensures ok ==> full == old(full)[key := interval] && key !in old(full) && interval >= 60
    {
      if !Exact(key.sourceDB) || !Exact(key.targetDB) || !Exact(key.table) || interval < 60 { return false; }
      ok := ClaimManaged(key in hourly);
      if !ok || key in full { return false; }
      ok := Answered();
      var committed: bool := *;
      if ok || committed { full := full[key := interval]; }
    }

    /** Any sequence of service starts and task additions, each possibly failing half way. */
    method Use(commands: seq<Command>, blank: string -> bool, parses: (string, string) -> bool)
      requires Valid() && blank("")
      modifies this
      ensures Valid() && Kept(old(metadata), metadata)
      ensures !("hourly_start" in metadata && "hourly_managed" in metadata)
      ensures hourly.Keys !! full.Keys
      ensures forall k | k in old(hourly) :: k in hourly && hourly[k] == old(hourly)[k]
      ensures forall k | k in old(full) :: k in full && full[k] == old(full)[k]
    {
      hide MetadataValid;
      for i := 0 to |commands|
        invariant Valid() && Kept(old(metadata), metadata)
        invariant forall k | k in old(hourly) :: k in hourly && hourly[k] == old(hourly)[k]
        invariant forall k | k in old(full) :: k in full && full[k] == old(full)[k]
      {
        var ok: bool;
        match commands[i] {
          case Start(c) => ok := StartService(c, blank);
          case AddHourly(key, task) => ok := AddHourlyTask(key, task, parses);
          case AddFull(key, interval) => ok := AddFullTableTask(key, interval);
        }
      }
      NeverBoth(metadata);
    }
  }

  datatype Command = Start(settings: Settings) | AddHourly(key: Key, task: HourlyTask) | AddFull(key: Key, interval: nat)

  lemma NeverBoth(m: map<string, string>)
    requires MetadataValid(m)
    ensures !("hourly_start" in m && "hourly_managed" in m)
  {
  }

  /** The file carries a static setting beside managed tasks. */
  predicate Mixed(m: map<string, string>) {
    "hourly_managed" in m && ("hourly_start" in m || "time_zone" in m)
  }

  /** What a call of checkHourlySettings may leave, however it ends. */
  function Partly(m: map<string, string>, start: string, zone: string): set<map<string, string>> {
    var a, b := InsertOrIgnore(m, "hourly_start", start), InsertOrIgnore(m, "time_zone", zone);
    {m, a, b, InsertOrIgnore(a, "time_zone", zone)}
  }

  lemma PartlyKeeps(m: map<string, string>, start: string, zone: string)
    requires MetadataValid(m)
    ensures Kept(m, m)
    ensures "hourly_managed" !in m ==> forall p | p in Partly(m, start, zone) :: MetadataValid(p) && Kept(m, p)
  {
  }

  /** The order of the two settings does not matter. */
  lemma InsertTwice(m: map<string, string>, start: string, zone: string)
    ensures InsertOrIgnore(InsertOrIgnore(m, "time_zone", zone), "hourly_start", start)
            == InsertOrIgnore(InsertOrIgnore(m, "hourly_start", start), "time_zone", zone)
  {
  }

  lemma InsertElsewhere(m: map<string, string>, key: string, value: string, other: string, expected: string)
    requires other != key
    ensures Agrees(InsertOrIgnore(m, key, value), other, expected) <==> Agrees(m, other, expected)
  {
  }

  lemma InsertStays(m: map<string, string>, key: string, value: string)
    ensures forall k | k in m :: k in InsertOrIgnore(m, key, value) && InsertOrIgnore(m, key, value)[k] == m[k]
  {
  }

  /** How far "never both" goes: a managed claim on a file that a static start has failed on
      is accepted exactly if the start was not recorded, and then leaves the file mixed
      exactly if the zone was. Both happen, starting from any valid file of neither kind. */
  lemma ZoneLeftBehindIff(m: map<string, string>, start: string, zone: string, left: map<string, string>)
    requires MetadataValid(m) && "hourly_start" !in m && "time_zone" !in m && left in Partly(m, start, zone)
    ensures ManagedAccepts(left) <==> "hourly_start" !in left
    ensures ManagedAccepts(left) ==> (Mixed(InsertOrIgnore(left, "hourly_managed", "1")) <==> "time_zone" in left)
    ensures var zoned := InsertOrIgnore(m, "time_zone", zone);
            zoned in Partly(m, start, zone) && ManagedAccepts(zoned) && "time_zone" in zoned
  {
  }

  /** The file is used by static hourly-window mode. */
  predicate StaticFile(m: map<string, string>) {
    "hourly_start" in m && "time_zone" in m
  }

  ghost predicate MetadataValid(m: map<string, string>) {
    && !("hourly_start" in m && "hourly_managed" in m)
    && ("hourly_managed" in m ==> m["hourly_managed"] == "1")
    && ("mode" in m <==> "time_field" in m)
    && ("mode" in m ==> m["mode"] in {"overwrite", "time-window", "hourly-window"})
    && (Get(m, "mode") == "hourly-window" ==>
          if Get(m, "time_field") == "" then "hourly_managed" in m else StaticFile(m))
  }

  /** What was recorded once stays: start, zone and kind of the file, mode and time field. */
  ghost predicate Kept(a: map<string, string>, b: map<string, string>) {
    && (forall k | k in a && k in {"hourly_start", "time_zone", "hourly_managed"} :: k in b && b[k] == a[k])
    && (forall k | k in a && k in {"mode", "time_field"} && a[k] != "" :: k in b && b[k] == a[k])
  }
}
