/**
 * The fixed on-disk layout the tool works with, derived once from the
 * project root: `<root>/.claude/templates/` holds templates, flat or in
 * one of four category directories, and `<root>/.claude/settings.json`
 * is the live settings file.  Paths are plain strings joined with `/`;
 * no normalisation is modelled.
 */
module Layout {
  import opened Stamp

  type Path = string

  /** `path.join(dir, entry)` without normalisation. */
  function Join(dir: Path, entry: string): Path {
    dir + "/" + entry
  }

  /** The categories, in the order both the search and the listing visit them. */
  const Categories: seq<string> := ["development", "testing", "production", "specialized"]

  const TemplateSuffix: string := ".json"

  /** The project root; every other path is derived from it. */
  datatype Config = Config(root: Path)

  function ClaudeDir(cfg: Config): Path {
    Join(cfg.root, ".claude")
  }

  function TemplatesDir(cfg: Config): Path {
    Join(ClaudeDir(cfg), "templates")
  }

  function SettingsFile(cfg: Config): Path {
    Join(ClaudeDir(cfg), "settings.json")
  }

  /** `templatesDir/<name>.json`. */
  function FlatCandidate(cfg: Config, name: string): Path {
    Join(TemplatesDir(cfg), name + TemplateSuffix)
  }

  function CategoryDir(cfg: Config, category: string): Path {
    Join(TemplatesDir(cfg), category)
  }

  /** `templatesDir/<category>/<name>.json`. */
  function CategoryCandidate(cfg: Config, category: string, name: string): Path {
    Join(CategoryDir(cfg, category), name + TemplateSuffix)
  }

  /** The five places a template name may live, in search order. */
  function Candidates(cfg: Config, name: string): (ps: seq<Path>)
    ensures |ps| == |Categories| + 1 && ps[0] == FlatCandidate(cfg, name)
    ensures forall i :: 0 <= i < |Categories| ==> ps[i + 1] == CategoryCandidate(cfg, Categories[i], name)
  {
    [FlatCandidate(cfg, name)] + seq(|Categories|, i requires 0 <= i < |Categories| => CategoryCandidate(cfg, Categories[i], name))
  }

  /** `${settingsFile}.backup.${timestamp}`. */
  function BackupPath(cfg: Config, iso: string): (p: Path)
    ensures |p| > |SettingsFile(cfg)| && p[..|SettingsFile(cfg)|] == SettingsFile(cfg)
  {
    SettingsFile(cfg) + ".backup." + BackupStamp(iso)
  }

  /** Every path below the templates directory has `t` just after `<root>/.claude/`. */
  lemma BelowTemplates(cfg: Config, rest: string)
    ensures |ClaudeDir(cfg)| + 1 < |TemplatesDir(cfg)|
    ensures (TemplatesDir(cfg) + rest)[|ClaudeDir(cfg)| + 1] == 't'
  {
    var k := |ClaudeDir(cfg)| + 1;
    assert TemplatesDir(cfg) == (ClaudeDir(cfg) + "/") + "templates";
    assert TemplatesDir(cfg)[k] == 't';
  }

  /** The settings file and every backup have `s` just after `<root>/.claude/`. */
  lemma BelowSettings(cfg: Config, iso: string)
    ensures SettingsFile(cfg)[|ClaudeDir(cfg)| + 1] == 's'
    ensures BackupPath(cfg, iso)[|ClaudeDir(cfg)| + 1] == 's'
  {
    var k := |ClaudeDir(cfg)| + 1;
    assert SettingsFile(cfg) == (ClaudeDir(cfg) + "/") + "settings.json";
    assert SettingsFile(cfg)[k] == 's';
    assert BackupPath(cfg, iso) == SettingsFile(cfg) + (".backup." + BackupStamp(iso));
  }

  /**
   * No template location, for any name, is the settings file or a backup:
   * switching can neither overwrite a template nor back up onto one.
   */
  lemma {:induction false} TemplatesAreApart(cfg: Config, name: string, iso: string)
    ensures forall p :: p in Candidates(cfg, name) ==> p != SettingsFile(cfg) && p != BackupPath(cfg, iso)
  {
    BelowSettings(cfg, iso);
    var ps := Candidates(cfg, name);
    forall i | 0 <= i < |ps| ensures ps[i] != SettingsFile(cfg) && ps[i] != BackupPath(cfg, iso) {
      if i == 0 {
        BelowTemplates(cfg, "/" + (name + TemplateSuffix));
        assert ps[i] == TemplatesDir(cfg) + ("/" + (name + TemplateSuffix));
      } else {
        var c := Categories[i - 1];
        BelowTemplates(cfg, "/" + c + "/" + (name + TemplateSuffix));
        assert ps[i] == TemplatesDir(cfg) + ("/" + c + "/" + (name + TemplateSuffix));
      }
    }
  }

  /** The backup never lands on the settings file itself. */
  lemma BackupIsNotSettings(cfg: Config, iso: string)
    ensures BackupPath(cfg, iso) != SettingsFile(cfg)
  {
  }
}
