/**
 The durable configuration: a primary file replaced through a temporary one, with a backup for the moment
 in between. Every file primitive may work, fail, or never be reached because the process stopped.
 */
module ConfigStore {
  import opened Base
  import D = Daemon

  /** A file's content: a complete encoding, or one that does not decode. */
  datatype Content = Whole(config: D.Config) | Torn

  datatype Disk = Disk(primary: Option<Content>, backup: Option<Content>, temp: Option<Content>)

  datatype Loaded = Found(config: D.Config) | Absent | Unreadable

  function Decode(c: Content): Loaded {
    if c.Whole? && D.ValidConfig(c.config) then Found(c.config) else Unreadable
  }

  /** The primary file if there is one, the backup only in its absence. */
  function Load(d: Disk): Loaded {
    if d.primary.Some? then Decode(d.primary.value)
    else if d.backup.Some? then Decode(d.backup.value)
    else Absent
  }

  datatype Fate = Works | Fails | Stops

  /** What becomes of each primitive of one attempt to save, should it be reached. */
  datatype Fates = Fates(directory: Fate, create: Fate, write: Fate, clear: Fate, keep: Fate, install: Fate,
                         restore: Fate, sync: Fate, tidy: Fate, sweep: Fate)

  datatype Outcome = Saved | Refused | Failed | Halted

  datatype Attempt = Attempt(disk: Disk, outcome: Outcome)

  /** A failed attempt removes its temporary file, if it can. */
  function Sweep(d: Disk, f: Fates): Attempt {
    match f.sweep
    case Works => Attempt(d.(temp := None), Failed)
    case Fails => Attempt(d, Failed)
    case Stops => Attempt(d, Halted)
  }

  function Settle(d: Disk, had: bool, f: Fates): Attempt {
    match f.sync
    case Stops => Attempt(d, Halted)
    case Fails => Sweep(d, f)
    case Works =>
      if !had then Attempt(d, Saved)
      else
        match f.tidy
        case Stops => Attempt(d, Halted)
        case Fails => Sweep(d, f)
        case Works => Attempt(d.(backup := None), Saved)
  }

  function Install(d: Disk, had: bool, f: Fates): Attempt {
    match f.install
    case Stops => Attempt(d, Halted)
    case Works => Settle(d.(primary := d.temp, temp := None), had, f)
    case Fails =>
      if !had then Sweep(d, f)
      else
        match f.restore
        case Stops => Attempt(d, Halted)
        case Fails => Sweep(d, f)
        case Works => Sweep(d.(primary := d.backup, backup := None), f)
  }

  /** The old primary becomes the backup before the new one takes its place. */
  function Replace(d: Disk, f: Fates): Attempt {
    if d.primary.None? then Install(d, false, f)
    else
      match f.clear
      case Stops => Attempt(d, Halted)
      case Fails => Sweep(d, f)
      case Works =>
        match f.keep
        case Stops => Attempt(d.(backup := None), Halted)
        case Fails => Sweep(d.(backup := None), f)
        case Works => Install(d.(primary := None, backup := d.primary), true, f)
  }

  /** `fits` tells whether the encoding stays within the size limit. */
  function Save(d: Disk, c: D.Config, fits: bool, f: Fates): Attempt {
    if !D.ValidConfig(c) || !fits then Attempt(d, Refused)
    else
      match f.directory
      case Stops => Attempt(d, Halted)
      case Fails => Attempt(d, Failed)
      case Works =>
        match f.create
        case Stops => Attempt(d, Halted)
        case Fails => Sweep(d, f)
        case Works =>
          match f.write
          case Stops => Attempt(d.(temp := Some(Torn)), Halted)
          case Fails => Sweep(d.(temp := Some(Torn)), f)
          case Works => Replace(d.(temp := Some(Whole(c))), f)
  }

  // ---------------------------------------------------------------- crash safety

  lemma {:induction false} InstallSafe(d: Disk, had: bool, f: Fates, c: D.Config)
    requires d.primary.None? && d.temp == Some(Whole(c)) && D.ValidConfig(c)
    ensures var a := Install(d, had, f);
            && (Load(a.disk) == Load(d) || Load(a.disk) == Found(c))
            && (a.outcome == Saved ==> Load(a.disk) == Found(c) && a.disk.temp.None? && (had ==> a.disk.backup.None?))
            && a.outcome != Refused
  {
    hide D.ValidConfig;
  }

  /** Wherever an attempt stops or fails, including the attempt to put the old file back, a later load finds what
      it would have found before or the new configuration; success means the new one, refusal touches nothing. */
  lemma {:induction false} CrashSafe(d: Disk, c: D.Config, fits: bool, f: Fates)
    ensures var a := Save(d, c, fits, f);
            && (Load(a.disk) == Load(d) || Load(a.disk) == Found(c))
            && (a.outcome == Saved ==> Load(a.disk) == Found(c) && a.disk.temp.None?)
            && (a.outcome == Refused <==> !D.ValidConfig(c) || !fits)
            && (a.outcome == Refused ==> a.disk == d)
  {
    hide D.ValidConfig, Install;
    if D.ValidConfig(c) {
      var written := d.(temp := Some(Whole(c)));
      if d.primary.None? {
        InstallSafe(written, false, f, c);
      } else {
        InstallSafe(written.(primary := None, backup := d.primary), true, f, c);
      }
    }
  }

  /** An attempt succeeds exactly if the configuration is valid and fits and every primitive it needs works; what it
      then
      leaves is the new primary alone. One that fails but could put the old file back leaves it where it was. */
  lemma {:induction false} SavesExactly(d: Disk, c: D.Config, fits: bool, f: Fates)
    ensures var a := Save(d, c, fits, f);
            var had := d.primary.Some?;
            && (a.outcome == Saved <==>
                  && D.ValidConfig(c) && fits && f.directory == Works && f.create == Works && f.write == Works
                  && (had ==> f.clear == Works && f.keep == Works && f.tidy == Works)
                  && f.install == Works && f.sync == Works)
            && (a.outcome == Saved ==> a.disk == Disk(Some(Whole(c)), if had then None else d.backup, None))
            && (a.outcome == Failed && f.restore == Works && f.install != Works ==> a.disk.primary == d.primary)
            && (a.outcome == Failed && f.sweep == Works && f.directory == Works ==> a.disk.temp.None?)
  {
    hide D.ValidConfig;
  }

  datatype Try = Try(config: D.Config, fits: bool, fates: Fates)

  /** One writer saving again and again, through failures and restarts. */
  function Saves(d: Disk, tries: seq<Try>): Disk
    decreases |tries|
  {
    if tries == [] then d
    else
      var n := |tries| - 1;
      Save(Saves(d, tries[..n]), tries[n].config, tries[n].fits, tries[n].fates).disk
  }

  ghost predicate Succeeds(d: Disk, tries: seq<Try>, i: nat)
    requires i < |tries|
  {
    Save(Saves(d, tries[..i]), tries[i].config, tries[i].fits, tries[i].fates).outcome == Saved
  }

  /** After any number of attempts the store yields what it yielded at first or some configuration it was given. */
  lemma {:induction false} NothingInvented(d: Disk, tries: seq<Try>)
    ensures Load(Saves(d, tries)) == Load(d)
            || exists j :: 0 <= j < |tries| && Load(Saves(d, tries)) == Found(tries[j].config)
    decreases |tries|
  {
    hide Save, Load;
    if tries != [] {
      var n := |tries| - 1;
      NothingInvented(d, tries[..n]);
      CrashSafe(Saves(d, tries[..n]), tries[n].config, tries[n].fits, tries[n].fates);
      if j :| 0 <= j < n && Load(Saves(d, tries[..n])) == Found(tries[..n][j].config) {
        assert tries[..n][j] == tries[j];
      }
    }
  }

  /** What was saved is never lost to something older. */
  lemma {:induction false} NeverOlder(d: Disk, tries: seq<Try>, i: nat)
    requires i < |tries| && Succeeds(d, tries, i)
    ensures exists j :: i <= j < |tries| && Load(Saves(d, tries)) == Found(tries[j].config)
    decreases |tries|
  {
    hide Save, Load;
    var n := |tries| - 1;
    CrashSafe(Saves(d, tries[..n]), tries[n].config, tries[n].fits, tries[n].fates);
    if i < n {
      assert tries[..n][..i] == tries[..i];
      NeverOlder(d, tries[..n], i);
      var j :| i <= j < n && Load(Saves(d, tries[..n])) == Found(tries[..n][j].config);
      assert tries[..n][j] == tries[j];
    }
  }

  // ---------------------------------------------------------------- the stores

  class FileConfigStore {
    var primary: Option<Content>
    var backup: Option<Content>
    var temp: Option<Content>

    function State(): Disk
      reads this
    {
      Disk(primary, backup, temp)
    }

    method LoadConfig() returns (r: Loaded)
      ensures r == Load(State())
    {
      if primary.Some? {
        return Decode(primary.value);
      }
      if backup.Some? {
        return Decode(backup.value);
      }
      return Absent;
    }

    method SaveConfig(c: D.Config, fits: bool, f: Fates) returns (r: Outcome)
      modifies this
      ensures Save(old(State()), c, fits, f) == Attempt(State(), r)
      ensures Load(State()) == old(Load(State())) || Load(State()) == Found(c)
      ensures r == Saved ==> Load(State()) == Found(c)
      ensures r == Refused ==> State() == old(State())
    {
      hide D.ValidConfig;
      CrashSafe(State(), c, fits, f);
      if !D.ValidConfig(c) || !fits {
        return Refused;
      }
      if f.directory == Stops { return Halted; }
      if f.directory == Fails { return Failed; }
      r := WriteAndReplace(c, f);
      if r == Failed {
        if f.sweep == Works { temp := None; }
        if f.sweep == Stops { r := Halted; }
      }
    }

    /** Everything between creating the temporary file and the last tidying; a failure is swept up by the caller. */
    method WriteAndReplace(c: D.Config, f: Fates) returns (r: Outcome)
      requires D.ValidConfig(c) && f.directory == Works
      modifies this
      ensures r != Refused
      ensures var a := Save(old(State()), c, true, f);
              if r == Failed then a == Sweep(State(), f) else a == Attempt(State(), r)
    {
      hide D.ValidConfig;
      if f.create == Stops { return Halted; }
      if f.create == Fails { return Failed; }
      temp := Some(Torn);
      if f.write == Stops { return Halted; }
      if f.write == Fails { return Failed; }
      temp := Some(Whole(c));
      var had := primary.Some?;
      if had {
        if f.clear == Stops { return Halted; }
        if f.clear == Fails { return Failed; }
        backup := None;
        if f.keep == Stops { return Halted; }
        if f.keep == Fails { return Failed; }
        backup := primary;
        primary := None;
      }
      if f.install == Stops { return Halted; }
      if f.install == Fails {
        if had {
          if f.restore == Stops { return Halted; }
          if f.restore == Works {
            primary := backup;
            backup := None;
          }
        }
        return Failed;
      }
      primary := temp;
      temp := None;
      if f.sync == Stops { return Halted; }
      if f.sync == Fails { return Failed; }
      if had {
        if f.tidy == Stops { return Halted; }
        if f.tidy == Fails { return Failed; }
        backup := None;
      }
      return Saved;
    }
  }

  class MemoryConfigStore {
    var value: Option<D.Config>

    function Loads(): Loaded
      reads this
    {
      if value.None? then Absent else if D.ValidConfig(value.value) then Found(value.value) else Unreadable
    }

    method SaveConfig(c: D.Config) returns (saved: bool)
      modifies this
      ensures saved == D.ValidConfig(c)
      ensures if saved then Loads() == Found(c) else value == old(value)
    {
      hide D.ValidConfig;
      if !D.ValidConfig(c) {
        return false;
      }
      value := Some(c);
      return true;
    }
  }
}
