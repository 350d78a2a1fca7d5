/** The argument list handed to the file-system listener:
    `[:to, dir1, ..., dirN, tuning]`. */
module ListenerArgs {
  import opened SessionOptions

  /** The tuning keys the listener understands. */
  datatype TuningKey = ForcePolling | LatencyKey

  datatype TuningValue = Flag(on: bool) | Seconds(latency: Latency)

  /** One element of the listener's argument list. */
  datatype ListenerArg = To | Dir(path: Path) | Tuning(options: map<TuningKey, TuningValue>)

  /** What the listener is told to do: the directories and the tuning mapping. */
  datatype WatchDirective = WatchDirective(dirs: seq<Path>, tuning: map<TuningKey, TuningValue>)

  /** The directories to watch: the `watchdir` option, or the current
      directory alone when none was given. */
  function WatchDirs(opts: Options, cwd: Path): (dirs: seq<Path>)
    ensures |dirs| > 0
    ensures opts.watchdir != [] ==> dirs == opts.watchdir
    ensures opts.watchdir == [] ==> dirs == [cwd]
  {
    if opts.watchdir == [] then [cwd] else opts.watchdir
  }

  /** The trailing mapping: exactly the tuning keys that were supplied, each
      with the supplied value; an absent key is left out, never defaulted. */
  function TuningOptions(opts: Options): (m: map<TuningKey, TuningValue>)
    ensures ForcePolling in m <==> opts.forcePolling.Some?
    ensures LatencyKey in m <==> opts.latency.Some?
    ensures ForcePolling in m ==> m[ForcePolling] == Flag(opts.forcePolling.value)
    ensures LatencyKey in m ==> m[LatencyKey] == Seconds(opts.latency.value)
  {
    var polling := if opts.forcePolling.Some? then map[ForcePolling := Flag(opts.forcePolling.value)] else map[];
    if opts.latency.Some? then polling[LatencyKey := Seconds(opts.latency.value)] else polling
  }

  /** One `Dir` argument per directory, in the given order. */
  function DirArgs(dirs: seq<Path>): (args: seq<ListenerArg>)
    ensures |args| == |dirs|
    ensures forall i :: 0 <= i < |dirs| ==> args[i] == Dir(dirs[i])
  {
    if dirs == [] then [] else [Dir(dirs[0])] + DirArgs(dirs[1..])
  }

  /** The listener arguments a session computes from its options. Paths are
      passed through unchanged (the POSIX case of path expansion). */
  function BuildListenerArgs(opts: Options, cwd: Path): (args: seq<ListenerArg>)
    ensures |args| == |WatchDirs(opts, cwd)| + 2 >= 3
    ensures args[0] == To
    ensures forall i :: 1 <= i < |args| - 1 ==> args[i] == Dir(WatchDirs(opts, cwd)[i - 1])
    ensures args[|args| - 1] == Tuning(TuningOptions(opts))
  {
    [To] + DirArgs(WatchDirs(opts, cwd)) + [Tuning(TuningOptions(opts))]
  }

  /** The paths of a run of `Dir` arguments. */
  function DirPaths(args: seq<ListenerArg>): (dirs: seq<Path>)
    requires forall i :: 0 <= i < |args| ==> args[i].Dir?
    ensures |dirs| == |args|
    ensures forall i :: 0 <= i < |args| ==> args[i] == Dir(dirs[i])
  {
    if args == [] then [] else [args[0].path] + DirPaths(args[1..])
  }

  /** How the listener reads its argument list: `:to`, at least one
      directory, then the tuning mapping. Anything else is rejected. */
  function ReadListenerArgs(args: seq<ListenerArg>): (d: Option<WatchDirective>)
    ensures d.Some? ==> |args| >= 3 && args[0] == To && args[|args| - 1] == Tuning(d.value.tuning)
    ensures d.Some? ==> DirArgs(d.value.dirs) == args[1..|args| - 1]
  {
    if |args| >= 3 && args[0] == To && args[|args| - 1].Tuning?
       && forall i :: 1 <= i < |args| - 1 ==> args[i].Dir?
    then
      var dirs := DirPaths(args[1..|args| - 1]);
      Some(WatchDirective(dirs, args[|args| - 1].options))
    else None
  }

  /** The listener recovers exactly the session's directories (the option's,
      in order, or the current directory) and exactly the supplied tuning keys. */
  lemma ReadBuildListenerArgs(opts: Options, cwd: Path)
    ensures ReadListenerArgs(BuildListenerArgs(opts, cwd))
            == Some(WatchDirective(WatchDirs(opts, cwd), TuningOptions(opts)))
  {
    var args := BuildListenerArgs(opts, cwd);
    var dirs := WatchDirs(opts, cwd);
    var inner := args[1..|args| - 1];
    assert |inner| == |dirs|;
    assert forall i :: 0 <= i < |inner| ==> inner[i] == Dir(dirs[i]);
    var read := DirPaths(inner);
    assert forall i :: 0 <= i < |dirs| ==> read[i] == dirs[i];
    assert read == dirs;
  }

  /** Two option sets give the same listener arguments exactly when they
      name the same directories and the same tuning mapping. */
  lemma BuildListenerArgsInjective(o1: Options, o2: Options, cwd: Path)
    ensures BuildListenerArgs(o1, cwd) == BuildListenerArgs(o2, cwd)
            <==> WatchDirs(o1, cwd) == WatchDirs(o2, cwd) && TuningOptions(o1) == TuningOptions(o2)
  {
    if BuildListenerArgs(o1, cwd) == BuildListenerArgs(o2, cwd) {
      ReadBuildListenerArgs(o1, cwd);
      ReadBuildListenerArgs(o2, cwd);
    }
  }
}
