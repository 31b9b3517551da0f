/**
 * The script's entry point: the first command-line argument picks the
 * operation, defaulting to help; anything that is not a reserved word is
 * a template name.
 */
module Cli {
  import opened Layout
  import opened FileStore
  import opened Templates
  import opened Inspect
  import opened Switcher

  datatype Command = Help | List | Current | SwitchTo(name: string)

  /** The words that select help. */
  predicate IsHelpWord(word: string) {
    word == "help" || word == "--help" || word == "-h"
  }

  /** `args[0] || 'help'` followed by the `switch` on it. */
  function Dispatch(args: seq<string>): (c: Command)
    ensures c == Help <==> |args| == 0 || args[0] == "" || IsHelpWord(args[0])
    ensures c == List <==> |args| > 0 && args[0] == "list"
    ensures c == Current <==> |args| > 0 && args[0] == "current"
    ensures c.SwitchTo? <==> |args| > 0 && args[0] != "" && args[0] != "list" && args[0] != "current" && !IsHelpWord(args[0])
    ensures c.SwitchTo? ==> c.name == args[0]
  {
    var command := if |args| == 0 || args[0] == "" then "help" else args[0];
    if command == "list" then List
    else if command == "current" then Current
    else if IsHelpWord(command) then Help
    else SwitchTo(command)
  }

  /** Running with no argument does what running with `help` does. */
  lemma NoArgumentIsHelp()
    ensures Dispatch([]) == Dispatch(["help"]) == Help
  {
  }

  /** What one run of the script produced. */
  datatype RunResult =
    | ShowedHelp
    | ShowedListing(listing: Listing)
    | ShowedSettings(report: Report)
    | RanSwitch(outcome: SwitchOutcome)

  /**
   * One invocation.  The clock reading, the failures the environment
   * imposes, UTF-8 decoding and `JSON.parse` come in as parameters.  Only
   * a switch changes the filesystem, and exactly as `Switch` says.
   */
  method Run(fs: FileSystem, cfg: Config, args: seq<string>, iso: string, faults: Faults,
             decode: Bytes -> string, parse: string -> Parsed) returns (r: RunResult)
    modifies fs`files
    ensures Dispatch(args).SwitchTo? ==>
              var st := Switch(old(fs.Snapshot()), cfg, Dispatch(args).name, iso, faults);
              fs.Snapshot() == st.disk && r == RanSwitch(st.outcome)
    ensures !Dispatch(args).SwitchTo? ==> fs.files == old(fs.files)
    ensures Dispatch(args) == Help ==> r == ShowedHelp
    ensures Dispatch(args) == List ==> r == ShowedListing(ListFrom(fs.Snapshot(), cfg, Categories))
    ensures Dispatch(args) == Current ==> r == ShowedSettings(CurrentReport(fs.Snapshot(), cfg, decode, parse))
  {
    match Dispatch(args)
    case List =>
      var listing := fs.ListTemplates(cfg);
      r := ShowedListing(listing);
    case Current =>
      var report := fs.ShowCurrent(cfg, decode, parse);
      r := ShowedSettings(report);
    case Help =>
      r := ShowedHelp;
    case SwitchTo(name) =>
      var outcome := fs.SwitchTemplate(cfg, name, iso, faults);
      r := RanSwitch(outcome);
  }
}
