# Permission switcher: a verified model

This project models `scripts/cross-platform/switch-env.js`, the command-line tool that
activates a named settings template for the host application. The tool copies the
template over `.claude/settings.json`. It first keeps a timestamped backup of the
current settings. It can also list the templates by category and summarise the
current settings.

The filesystem is abstract. A `Disk` maps regular-file paths to their bytes and
directory paths to their entries, in the order `readdirSync` returns them. `existsSync`
is true of both kinds of path. The tool's own state is the class `Switcher.FileSystem`.
Its `files` map is the only thing the tool writes. Its methods carry out the script's
steps, and each is proved equal to a specification function. The script's promises are
proved as lemmas about those functions.

Modules:
- `Layout`: the fixed paths, derived from the project root.
- `Stamp`: the backup timestamp.
- `FileStore`: the disk and `copyFileSync`.
- `Templates`: resolution and listing.
- `Lines`: the 20-line preview.
- `Inspect`: the settings summary.
- `Switcher`: backup, switch, and the `FileSystem` class.
- `Cli`: argument dispatch and one run of the script.

Behaviour of the script worth noting, all of it modelled:
- A backup that cannot be written makes `copyFileSync` throw outside any `try`. The
  run stops with an uncaught exception (`Aborted`). It is not an error that is
  reported and then handled.
- A failed template copy is caught and reported (`CopyFailed`). The model treats that
  copy as all-or-nothing.
- A JSON document that is `null` also falls into the raw-preview path, because reading
  `null.permissions` throws inside the same `try`.
- A settings path that is a directory makes the second `readFileSync` in the `catch`
  throw (`Unreadable`).
- A category path that exists but is a plain file makes `readdirSync` throw during the
  listing (`ReadDirFailed`).

## Model

| member | source | states |
|---|---|---|
| `Stamp.ReplaceSeparators` | scripts/cross-platform/switch-env.js:115 | the result has the input's length; at each position it has `-` where the input has `:` or `.`, and the input's character elsewhere |
| `Stamp.BackupStamp` | scripts/cross-platform/switch-env.js:115 | the stamp is five characters shorter than the ISO string (empty if that is shorter than five); it contains no `:` or `.`; each kept character is the input's, with separators turned to `-` |
| `Stamp.IsoStampShape` | scripts/cross-platform/switch-env.js:115 | for a 24-character `YYYY-MM-DDTHH:mm:ss.sssZ` the stamp is the 19-character `YYYY-MM-DDTHH-mm-ss`, made only of digits, `-` and `T` |
| `Layout.Candidates` | scripts/cross-platform/switch-env.js:36-44 | the search visits five paths: the flat `templates/<name>.json`, then `templates/<category>/<name>.json` for development, testing, production, specialized in that order |
| `Layout.BackupPath` | scripts/cross-platform/switch-env.js:116 | the backup path is the settings path followed by a non-empty suffix (`.backup.<stamp>`) |
| `Layout.TemplatesAreApart` | scripts/cross-platform/switch-env.js:14-16 | no template location of any name is the settings file or a backup path, so switching never writes over a template; this holds for paths as plain concatenation (with `path.join` normalisation a name such as `../settings` would resolve to the settings file itself, see Left out) |
| `FileStore.Copy` | scripts/cross-platform/switch-env.js:117 | `copyFileSync` succeeds exactly when the source is a regular file, the destination is not a directory and the environment allows the write; then the destination holds the source's bytes and nothing else changes |
| `Templates.FirstExisting` | scripts/cross-platform/switch-env.js:43-50 | the first-match search returns an existing path from the list; it returns null exactly when none of the paths exists |
| `Templates.Resolve` | scripts/cross-platform/switch-env.js:34-50 | `findTemplate` returns an existing candidate path; it returns null exactly when none of the five candidates exists |
| `Templates.ResolveOrder` | scripts/cross-platform/switch-env.js:36-48 | the flat template wins whenever it exists; otherwise the first category that holds `<name>.json` wins, so a name in two categories resolves to the earlier one |
| `Templates.IsJson` | scripts/cross-platform/switch-env.js:65 | an entry passes `endsWith('.json')` exactly when it is some stem followed by `.json` |
| `Templates.Stem` | scripts/cross-platform/switch-env.js:66 | stripping the suffix leaves the name that `<name>.json` was made from |
| `Templates.JsonStems` | scripts/cross-platform/switch-env.js:64-66 | the filter-and-strip yields no more names than there are entries |
| `Templates.JsonStemsAppend` | scripts/cross-platform/switch-env.js:64-66 | filtering distributes over concatenation, so names keep the directory's enumeration order |
| `Templates.JsonStemsMembers` | scripts/cross-platform/switch-env.js:64-66 | a name is listed exactly when `<name>.json` is an entry of the directory |
| `Templates.ListFrom` | scripts/cross-platform/switch-env.js:57-73 | every section is a visited category whose directory exists, listing exactly its `.json` entries without the suffix; a listing that throws names a category path that exists but is not a directory |
| `Templates.ListingFollowsCategories` | scripts/cross-platform/switch-env.js:57-73 | when no category path is a plain file, the listing succeeds with one section per present category, in the fixed order; missing categories are skipped and flat templates never appear |
| `Templates.ListedNamesResolve` | scripts/cross-platform/switch-env.js:34-73 | on a well-formed disk, every name the listing shows resolves to some template |
| `Lines.Split` | scripts/cross-platform/switch-env.js:108 | `split('\n')` gives one more piece than there are newlines, and no piece contains a newline |
| `Lines.JoinSplit` | scripts/cross-platform/switch-env.js:108 | joining the pieces of a split with `\n` gives back the original text |
| `Lines.JoinLines` | scripts/cross-platform/switch-env.js:108 | `join('\n')` starts with the first line, and joining newline-free lines puts exactly one newline between neighbours |
| `Lines.JoinAt` | scripts/cross-platform/switch-env.js:108 | joining all pieces is joining the first k, a newline, then joining the rest |
| `Lines.Preview` | scripts/cross-platform/switch-env.js:108 | the preview is a prefix of the content; it equals the content when there are fewer than 20 newlines; otherwise it is exactly the content up to, not including, the 20th newline (the first 20 lines) |
| `Inspect.RuleCount` | scripts/cross-platform/switch-env.js:89-90 | `rules?.length`, falling back to 0: the list's length when present, 0 when absent |
| `Inspect.Summarise` | scripts/cross-platform/switch-env.js:85-109 | a parsed document gives the allow and deny list lengths (0 when a list or `permissions` is absent), the env entries and the server names; a parse failure or `null` gives exactly `Lines.Preview` of the content: a prefix with as many newlines as the content up to 19, and when cut, cut at the 20th newline |
| `Switcher.Backup` | scripts/cross-platform/switch-env.js:113-120 | without a settings path nothing happens; otherwise the only write is the pre-switch settings bytes to the stamped backup path, and a throwing copy changes nothing; directories never change |
| `Switcher.Switch` | scripts/cross-platform/switch-env.js:123-145 | the switch reports "not found" exactly when the name resolves nowhere; a failed or successful copy names the resolved template; an aborted backup leaves the disk unchanged; directories never change |
| `Switcher.CurrentReport` | scripts/cross-platform/switch-env.js:77-110 | "no settings" exactly when the settings path does not exist; "unreadable" exactly when it exists but is not a regular file; a summary or raw preview exactly when it is a regular file |
| `Switcher.NotFoundChangesNothing` | scripts/cross-platform/switch-env.js:123-130 | a name that does not resolve leaves the filesystem unchanged (no backup, no copy); the only result is the listing |
| `Switcher.BackupRule` | scripts/cross-platform/switch-env.js:113-137 | a backup is attempted exactly when the settings exist; a refused backup aborts with nothing changed and no template copy; otherwise a backup is recorded exactly when the settings existed, at `settings.json.backup.<stamp>`, holding the pre-switch settings bytes; when no settings existed the backup path is left exactly as it was on disk |
| `Switcher.SwitchedInstallsTemplate` | scripts/cross-platform/switch-env.js:136-141 | after a successful switch the settings file holds the resolved template's pre-switch bytes |
| `Switcher.CopyFailureKeepsSettings` | scripts/cross-platform/switch-env.js:142-144 | a caught template-copy failure leaves the settings file as it was; this rests on the all-or-nothing `FileStore.Copy` (a partly written file is not modelled, see Left out) |
| `Switcher.SwitchFrame` | scripts/cross-platform/switch-env.js:113-145 | a switch writes only the settings file and this run's backup path; directories and all other files, earlier backups included, are unchanged; well-formedness is preserved |
| `Switcher.TemplatesUntouched` | scripts/cross-platform/switch-env.js:123-145 | every template location of every name keeps its bytes across a switch |
| `Switcher.FileSystem.CopyFile` | scripts/cross-platform/switch-env.js:137 | performs `Copy` on the `files` map and reports whether it succeeded |
| `Switcher.FileSystem.FindTemplate` | scripts/cross-platform/switch-env.js:34-51 | the loop with early return computes `Resolve` |
| `Switcher.FileSystem.ListTemplates` | scripts/cross-platform/switch-env.js:54-74 | the loop over the categories computes `ListFrom` over the fixed categories, reading only |
| `Switcher.FileSystem.ShowCurrent` | scripts/cross-platform/switch-env.js:77-110 | reads only; without a settings file it reports that; it reports an unreadable directory, or else `Summarise` of the decoded content |
| `Switcher.FileSystem.BackupSettings` | scripts/cross-platform/switch-env.js:113-120 | the new state and outcome are those of `Backup`: a copy to the stamped path only when the settings exist |
| `Switcher.FileSystem.SwitchTemplate` | scripts/cross-platform/switch-env.js:123-145 | resolve, then back up, then copy; the new state and outcome are those of `Switch` |
| `Cli.Dispatch` | scripts/cross-platform/switch-env.js:163-179 | a missing or empty argument, `help`, `--help` or `-h` selects help; `list` and `current` select their operations; every other value is passed unchanged as a template name |
| `Cli.NoArgumentIsHelp` | scripts/cross-platform/switch-env.js:164 | running with no argument is running with `help` |
| `Cli.Run` | scripts/cross-platform/switch-env.js:162-180 | only a switch changes the filesystem, exactly as `Switch` says; help, listing and show-current leave it unchanged and return their reports |

## Left out

- Console output, ANSI colours, the success, error and warning lines, and the help text are presentation. The model returns what would be shown as data instead (`Listing`, `Report`, `SwitchOutcome`).
- The real `fs` calls are replaced by lookups and updates on the abstract disk. `existsSync` failing for lack of permission is not modelled.
- Copy failures the map cannot show are an input (`Faults`): permissions, a full disk, a missing parent directory.
- `FileStore.Copy`: a failed copy leaves the destination unchanged. Two real outcomes of a copy that fails after the destination was opened (for example, on a full disk) are not modelled: a partly written destination, and no destination at all, since Node's `copyFileSync` removes the destination it could not finish. In those cases the settings file may be damaged or gone, which `Switcher.CopyFailureKeepsSettings` does not cover.
- `JSON.parse` and UTF-8 decoding are parameters of `ShowCurrent`. Document shapes beyond optional lists of rules, env pairs and server names are not modelled: for example, an `allow` that is a string, whose `length` the code would print.
- `new Date().toISOString()` is not modelled: the ISO string is a parameter.
- Path handling is plain concatenation with `/`. `path.resolve`, `path.join` normalisation (`..`, repeated separators; so a template name such as `../settings`, which the script would resolve to the settings file itself) and `path.basename` of the backup file for the message are not modelled. For the entry `.json`, the stem is the empty string.
- Concurrent invocations and process exit codes are not modelled. The uncaught exceptions appear as the outcomes `Aborted`, `ReadDirFailed` and `Unreadable`.
