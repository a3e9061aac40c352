/**
 * What the three Commerce_Client launchers share: the desktop shortcut
 * search (the first shortcut that exists and parses wins), the process
 * start request, and the rule that a start counts as a launch only when a
 * process came back and had not already exited.
 */
module ClientDiscovery {
  import opened Wrappers
  import opened Paths
  import opened Text

  /** `ShortcutInfo`: the target and arguments recovered from a shortcut. */
  datatype Shortcut = Shortcut(targetPath: string, arguments: string)

  /**
   * The parts of `ProcessStartInfo` the launchers set; the window is always
   * shown normally, so only these vary.
   */
  datatype StartInfo = StartInfo(fileName: string, arguments: string, useShellExecute: bool)

  /** `Process.Start` throws, answers null, or answers a process that has or has not exited when asked. */
  datatype SpawnOutcome = SpawnThrows | NoProcess | Spawned(exitedAtCheck: bool)

  /** `process != null && !process.HasExited`; an exception answers false. */
  predicate Launched(outcome: SpawnOutcome) {
    outcome.Spawned? && !outcome.exitedAtCheck
  }

  /** The start request for a configured client: no shell execution. */
  function StartFor(path: string, arguments: string): (info: StartInfo)
    ensures info.fileName == path && info.arguments == arguments && !info.useShellExecute
  {
    StartInfo(path, arguments, false)
  }

  /** The index of the first shortcut that exists and parses, or `|shortcuts|`. */
  function FirstParsed(shortcuts: seq<string>, files: FileSet, parse: string -> Option<Shortcut>): (k: nat)
    ensures k <= |shortcuts|
    ensures forall j :: 0 <= j < k ==> !(shortcuts[j] in files && parse(shortcuts[j]).Some?)
    ensures k < |shortcuts| ==> shortcuts[k] in files && parse(shortcuts[k]).Some?
    decreases |shortcuts|
  {
    if shortcuts == [] then 0
    else if shortcuts[0] in files && parse(shortcuts[0]).Some? then 0
    else 1 + FirstParsed(shortcuts[1..], files, parse)
  }

  /** What the desktop search settles on: the first shortcut that exists and parses. */
  function Discover(shortcuts: seq<string>, files: FileSet, parse: string -> Option<Shortcut>): (found: Option<Shortcut>)
    ensures found.Some? <==> exists j :: 0 <= j < |shortcuts| && shortcuts[j] in files && parse(shortcuts[j]).Some?
  {
    var k := FirstParsed(shortcuts, files, parse);
    if k < |shortcuts| then parse(shortcuts[k]) else None
  }

  /**
   * When every shortcut parses to the same answer whatever it points to,
   * the search finds that answer as soon as any shortcut exists.
   */
  lemma {:induction false} DiscoverIgnoringShortcut(shortcuts: seq<string>, files: FileSet, answer: Option<Shortcut>)
    ensures Discover(shortcuts, files, _ => answer) ==
      if answer.Some? && exists j :: 0 <= j < |shortcuts| && shortcuts[j] in files then answer else None
  {
    var parse: string -> Option<Shortcut> := _ => answer;
    var k := FirstParsed(shortcuts, files, parse);
    if k < |shortcuts| {
      assert shortcuts[k] in files;
    } else if answer.Some? {
      assert forall j :: 0 <= j < |shortcuts| ==> parse(shortcuts[j]).Some?;
    }
  }

  /** A parser that never succeeds makes the search find nothing. */
  lemma NeverParsingFindsNothing(shortcuts: seq<string>, files: FileSet)
    ensures Discover(shortcuts, files, _ => None) == None
  {
    DiscoverIgnoringShortcut(shortcuts, files, None);
  }
}
