/**
 * The switch sequence of `switchTemplate`: resolve the template, back up
 * the current settings when they exist, then copy the template over the
 * settings file.  `Backup` and `Switch` say what the sequence does to the
 * filesystem; `FileSystem` performs it step by step on its `files` map and
 * is proved to agree with them.
 */
module Switcher {
  import opened Wrappers
  import opened Layout
  import opened FileStore
  import opened Templates
  import opened Inspect

  /**
   * Failures the filesystem map cannot show (permissions, a full disk, a
   * missing parent directory): whether the backup copy and the template
   * copy are refused.
   */
  datatype Faults = Faults(backupDenied: bool, copyDenied: bool)

  /** A filesystem after an operation, with what the operation reported. */
  datatype Step<R> = Step(disk: Disk, outcome: R)

  /** `backupSettings`: nothing to do, a backup written, or the copy threw. */
  datatype BackupOutcome = NothingToBackUp | BackedUp(target: Path) | BackupFailed(target: Path)

  /**
   * `switchTemplate`'s ends: the name resolved nowhere (and the listing
   * shown); the backup copy threw, uncaught, before the template copy; the
   * template copy failed and was reported; or the switch succeeded.
   */
  datatype SwitchOutcome =
    | TemplateNotFound(listing: Listing)
    | Aborted(target: Path)
    | CopyFailed(template: Path, backup: Option<Path>)
    | Switched(template: Path, backup: Option<Path>)

  /**
   * `backupSettings` as a change of the filesystem: without a settings path
   * nothing happens; otherwise the one write is the pre-switch settings
   * bytes to the stamped backup path, or, when that copy throws, nothing.
   */
  function Backup(disk: Disk, cfg: Config, iso: string, denied: bool): (r: Step<BackupOutcome>)
    ensures r.disk.dirs == disk.dirs
    ensures r.outcome.NothingToBackUp? <==> !disk.Exists(SettingsFile(cfg))
    ensures !r.outcome.NothingToBackUp? ==> r.outcome.target == BackupPath(cfg, iso)
    ensures r.outcome.BackedUp? ==> && SettingsFile(cfg) in disk.files
                                    && r.disk.files == disk.files[BackupPath(cfg, iso) := disk.files[SettingsFile(cfg)]]
    ensures !r.outcome.BackedUp? ==> r.disk == disk
  {
    var settings := SettingsFile(cfg);
    if !disk.Exists(settings) then Step(disk, NothingToBackUp)
    else
      var target := BackupPath(cfg, iso);
      match Copy(disk, settings, target, denied)
      case None => Step(disk, BackupFailed(target))
      case Some(after) => Step(after, BackedUp(target))
  }

  /**
   * `switchTemplate` as a change of the filesystem.  The outcome is "not
   * found" exactly when the name resolves nowhere; every other outcome
   * names the resolved template; directories never change.
   */
  function Switch(disk: Disk, cfg: Config, name: string, iso: string, faults: Faults): (r: Step<SwitchOutcome>)
    ensures r.disk.dirs == disk.dirs
    ensures r.outcome.TemplateNotFound? <==> Resolve(disk, cfg, name).None?
    ensures (r.outcome.CopyFailed? || r.outcome.Switched?) ==> Resolve(disk, cfg, name) == Some(r.outcome.template)
    ensures r.outcome.Aborted? ==> r.disk == disk && r.outcome.target == BackupPath(cfg, iso)
  {
    match Resolve(disk, cfg, name)
    case None => Step(disk, TemplateNotFound(ListFrom(disk, cfg, Categories)))
    case Some(template) =>
      var b := Backup(disk, cfg, iso, faults.backupDenied);
      if b.outcome.BackupFailed? then Step(b.disk, Aborted(b.outcome.target))
      else
        var saved := if b.outcome.BackedUp? then Some(b.outcome.target) else None;
        match Copy(b.disk, template, SettingsFile(cfg), faults.copyDenied)
        case None => Step(b.disk, CopyFailed(template, saved))
        case Some(after) => Step(after, Switched(template, saved))
  }

  /** A name that resolves nowhere changes nothing: no backup, no copy; only the listing is produced. */
  lemma NotFoundChangesNothing(disk: Disk, cfg: Config, name: string, iso: string, faults: Faults)
    requires Resolve(disk, cfg, name).None?
    ensures Switch(disk, cfg, name, iso, faults) == Step(disk, TemplateNotFound(ListFrom(disk, cfg, Categories)))
  {
  }

  /**
   * The backup rule.  Once the name resolves, a backup is attempted exactly
   * when the settings path exists; a refused backup aborts with the
   * filesystem untouched, so the template copy is never reached; otherwise
   * a backup is recorded exactly when the settings existed, it sits at
   * `settings.json.backup.<stamp>`, and it holds the pre-switch settings
   * bytes, whatever the template copy then did.
   */
  lemma BackupRule(disk: Disk, cfg: Config, name: string, iso: string, faults: Faults)
    ensures var st := Switch(disk, cfg, name, iso, faults);
            var settings := SettingsFile(cfg);
            Resolve(disk, cfg, name).Some? ==>
            && (st.outcome.Aborted? <==>
                  disk.Exists(settings) && Copy(disk, settings, BackupPath(cfg, iso), faults.backupDenied).None?)
            && (st.outcome.Aborted? ==> st.disk == disk)
            && (!st.outcome.Aborted? ==> (st.outcome.backup.Some? <==> disk.Exists(settings)))
            && (!st.outcome.Aborted? && st.outcome.backup.Some? ==>
                  && st.outcome.backup.value == BackupPath(cfg, iso)
                  && settings in disk.files
                  && BackupPath(cfg, iso) in st.disk.files
                  && st.disk.files[BackupPath(cfg, iso)] == disk.files[settings])
            && (!disk.Exists(settings) ==>
                  && (BackupPath(cfg, iso) in st.disk.files <==> BackupPath(cfg, iso) in disk.files)
                  && (BackupPath(cfg, iso) in disk.files ==>
                        st.disk.files[BackupPath(cfg, iso)] == disk.files[BackupPath(cfg, iso)]))
  {
    var b := Backup(disk, cfg, iso, faults.backupDenied);
    BackupIsNotSettings(cfg, iso);
    if Resolve(disk, cfg, name).Some? && b.outcome.BackedUp? {
      var template := Resolve(disk, cfg, name).value;
      assert b.disk.files[BackupPath(cfg, iso)] == disk.files[SettingsFile(cfg)];
      var c := Copy(b.disk, template, SettingsFile(cfg), faults.copyDenied);
      if c.Some? {
        assert c.value.files[BackupPath(cfg, iso)] == b.disk.files[BackupPath(cfg, iso)];
      }
    }
  }

  /** The resolved template is never the settings file nor this run's backup. */
  lemma ResolvedIsApart(disk: Disk, cfg: Config, name: string, iso: string)
    ensures Resolve(disk, cfg, name).Some? ==> Resolve(disk, cfg, name).value != SettingsFile(cfg)
    ensures Resolve(disk, cfg, name).Some? ==> Resolve(disk, cfg, name).value != BackupPath(cfg, iso)
  {
    TemplatesAreApart(cfg, name, iso);
  }

  /**
   * A successful switch installs the resolved template: the settings file
   * then holds that template's bytes, as they were before the switch.
   */
  lemma SwitchedInstallsTemplate(disk: Disk, cfg: Config, name: string, iso: string, faults: Faults)
    ensures var st := Switch(disk, cfg, name, iso, faults);
            st.outcome.Switched? ==>
            && Resolve(disk, cfg, name) == Some(st.outcome.template)
            && st.outcome.template in disk.files
            && SettingsFile(cfg) in st.disk.files
            && st.disk.files[SettingsFile(cfg)] == disk.files[st.outcome.template]
  {
    var st := Switch(disk, cfg, name, iso, faults);
    if st.outcome.Switched? {
      var settings := SettingsFile(cfg);
      var template := Resolve(disk, cfg, name).value;
      var b := Backup(disk, cfg, iso, faults.backupDenied);
      ResolvedIsApart(disk, cfg, name, iso);
      assert !b.outcome.BackupFailed?;
      var c := Copy(b.disk, template, settings, faults.copyDenied);
      assert c.Some? && st.disk == c.value && st.outcome.template == template;
      BackupKeepsOthers(disk, cfg, iso, faults.backupDenied, template);
    }
  }

  /** The backup step writes only the backup path. */
  lemma BackupKeepsOthers(disk: Disk, cfg: Config, iso: string, denied: bool, p: Path)
    requires p != BackupPath(cfg, iso)
    ensures var after := Backup(disk, cfg, iso, denied).disk;
            && (p in after.files <==> p in disk.files)
            && (p in disk.files ==> after.files[p] == disk.files[p])
  {
  }

  /** A failed template copy is reported and leaves the settings file as it was. */
  lemma CopyFailureKeepsSettings(disk: Disk, cfg: Config, name: string, iso: string, faults: Faults)
    ensures var st := Switch(disk, cfg, name, iso, faults);
            var settings := SettingsFile(cfg);
            st.outcome.CopyFailed? ==>
            && Resolve(disk, cfg, name) == Some(st.outcome.template)
            && (settings in st.disk.files <==> settings in disk.files)
            && (settings in disk.files ==> st.disk.files[settings] == disk.files[settings])
  {
    BackupIsNotSettings(cfg, iso);
  }

  /**
   * What the switch may touch: only the settings file and this run's
   * backup path.  Directories, every other file (earlier backups included)
   * and the well-formedness of the filesystem are preserved.
   */
  lemma SwitchFrame(disk: Disk, cfg: Config, name: string, iso: string, faults: Faults)
    ensures var st := Switch(disk, cfg, name, iso, faults);
            && st.disk.dirs == disk.dirs
            && st.disk.files.Keys <= disk.files.Keys + {SettingsFile(cfg), BackupPath(cfg, iso)}
            && (forall p :: p in disk.files && p != SettingsFile(cfg) && p != BackupPath(cfg, iso) ==>
                  p in st.disk.files && st.disk.files[p] == disk.files[p])
            && (disk.Valid() ==> st.disk.Valid())
  {
    var settings := SettingsFile(cfg);
    if Resolve(disk, cfg, name).Some? {
      var template := Resolve(disk, cfg, name).value;
      var b := Backup(disk, cfg, iso, faults.backupDenied);
      if b.outcome.BackedUp? && disk.Valid() {
        CopyKeepsValid(disk, settings, BackupPath(cfg, iso), faults.backupDenied);
      }
      if !b.outcome.BackupFailed? && Copy(b.disk, template, settings, faults.copyDenied).Some? && b.disk.Valid() {
        CopyKeepsValid(b.disk, template, settings, faults.copyDenied);
      }
    }
  }

  /** Templates are only read: every template location of every name keeps its bytes. */
  lemma TemplatesUntouched(disk: Disk, cfg: Config, name: string, iso: string, faults: Faults, other: string)
    ensures var st := Switch(disk, cfg, name, iso, faults);
            forall p :: p in Candidates(cfg, other) && p in disk.files ==>
              p in st.disk.files && st.disk.files[p] == disk.files[p]
  {
    TemplatesAreApart(cfg, other, iso);
    SwitchFrame(disk, cfg, name, iso, faults);
  }

  /**
   * What `showCurrent` reports: nothing to show without a settings file; a
   * settings path that is not a regular file throws on the second read, in
   * the `catch`; otherwise the summary or the raw preview of its text.
   * Decoding the bytes as UTF-8 and `JSON.parse` are given as functions.
   */
  function CurrentReport(disk: Disk, cfg: Config, decode: Bytes -> string, parse: string -> Parsed): (r: Report)
    ensures r.NoSettings? <==> !disk.Exists(SettingsFile(cfg))
    ensures r.Unreadable? <==> disk.Exists(SettingsFile(cfg)) && SettingsFile(cfg) !in disk.files
    ensures (r.Summary? || r.RawPreview?) <==> SettingsFile(cfg) in disk.files
  {
    var settings := SettingsFile(cfg);
    if !disk.Exists(settings) then NoSettings(settings)
    else if settings !in disk.files then Unreadable(settings)
    else
      var content := decode(disk.files[settings]);
      Summarise(content, parse(content))
  }

  /**
   * The tool's view of the filesystem.  Only `files` changes: the tool
   * writes backups and the settings file and never creates or removes a
   * directory.
   */
  class FileSystem {
    var files: map<Path, Bytes>
    const dirs: map<Path, seq<string>>

    constructor (files: map<Path, Bytes>, dirs: map<Path, seq<string>>)
      ensures this.files == files && this.dirs == dirs
    {
      this.files := files;
      this.dirs := dirs;
    }

    function Snapshot(): Disk
      reads this
    {
      Disk(files, dirs)
    }

    /** `fs.copyFileSync(src, dst)`; `ok` is false where the call would throw. */
    method CopyFile(src: Path, dst: Path, denied: bool) returns (ok: bool)
      modifies this`files
      ensures ok == Copy(old(Snapshot()), src, dst, denied).Some?
      ensures Snapshot() == if ok then Copy(old(Snapshot()), src, dst, denied).value else old(Snapshot())
    {
      ok := !denied && src in files && dst !in dirs;
      if ok {
        files := files[dst := files[src]];
      }
    }

    /** `findTemplate`: the flat path first, then a loop over the categories that returns at the first hit. */
    method FindTemplate(cfg: Config, name: string) returns (r: Option<Path>)
      ensures r == Resolve(Snapshot(), cfg, name)
    {
      ResolveOrder(Snapshot(), cfg, name);
      var direct := FlatCandidate(cfg, name);
      if Snapshot().Exists(direct) {
        return Some(direct);
      }
      for i := 0 to |Categories|
        invariant forall j :: 0 <= j < i ==> !Snapshot().Exists(CategoryCandidate(cfg, Categories[j], name))
      {
        var path := CategoryCandidate(cfg, Categories[i], name);
        if Snapshot().Exists(path) {
          return Some(path);
        }
      }
      var ps := Candidates(cfg, name);
      forall p | p in ps ensures !Snapshot().Exists(p) {
        var k :| 0 <= k < |ps| && ps[k] == p;
        if k > 0 { assert p == CategoryCandidate(cfg, Categories[k - 1], name); }
      }
      return None;
    }

    /** `listTemplates`: one pass over the categories, collecting the sections shown so far. */
    method ListTemplates(cfg: Config) returns (r: Listing)
      ensures r == ListFrom(Snapshot(), cfg, Categories)
    {
      var shown: seq<Section> := [];
      for i := 0 to |Categories|
        invariant ListFrom(Snapshot(), cfg, Categories) == Prepend(shown, ListFrom(Snapshot(), cfg, Categories[i..]))
      {
        var category := Categories[i];
        var dir := CategoryDir(cfg, category);
        ListFromCons(Snapshot(), cfg, Categories[i..], shown);
        assert Categories[i..][1..] == Categories[i + 1..];
        if Snapshot().Exists(dir) {
          if dir !in dirs {
            return ReadDirFailed(shown, category);
          }
          shown := shown + [Section(category, JsonStems(dirs[dir]))];
        }
      }
      assert Categories[|Categories|..] == [];
      assert shown + [] == shown;
      return Listed(shown);
    }

    /** `showCurrent`: the same checks, in the same order, as `CurrentReport`. */
    method ShowCurrent(cfg: Config, decode: Bytes -> string, parse: string -> Parsed) returns (r: Report)
      ensures r == CurrentReport(Snapshot(), cfg, decode, parse)
    {
      var settings := SettingsFile(cfg);
      if !Snapshot().Exists(settings) {
        return NoSettings(settings);
      }
      if settings !in files {
        return Unreadable(settings);
      }
      var content := decode(files[settings]);
      r := Summarise(content, parse(content));
    }

    /** `backupSettings`: copy the settings to the stamped backup path when they exist. */
    method BackupSettings(cfg: Config, iso: string, denied: bool) returns (r: BackupOutcome)
      modifies this`files
      ensures Step(Snapshot(), r) == Backup(old(Snapshot()), cfg, iso, denied)
    {
      var settings := SettingsFile(cfg);
      if !Snapshot().Exists(settings) {
        return NothingToBackUp;
      }
      var target := BackupPath(cfg, iso);
      var ok := CopyFile(settings, target, denied);
      r := if ok then BackedUp(target) else BackupFailed(target);
    }

    /** `switchTemplate`: resolve, back up, copy, in that order. */
    method SwitchTemplate(cfg: Config, name: string, iso: string, faults: Faults) returns (r: SwitchOutcome)
      modifies this`files
      ensures Step(Snapshot(), r) == Switch(old(Snapshot()), cfg, name, iso, faults)
    {
      var template := FindTemplate(cfg, name);
      if template.None? {
        var listing := ListTemplates(cfg);
        return TemplateNotFound(listing);
      }
      var b := BackupSettings(cfg, iso, faults.backupDenied);
      if b.BackupFailed? {
        return Aborted(b.target);
      }
      var saved := if b.BackedUp? then Some(b.target) else None;
      var ok := CopyFile(template.value, SettingsFile(cfg), faults.copyDenied);
      r := if ok then Switched(template.value, saved) else CopyFailed(template.value, saved);
    }
  }
}
