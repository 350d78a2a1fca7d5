/** The command-line options a session is created from, and the small value
    types they are made of. */
module SessionOptions {

  datatype Option<+T> = None | Some(value: T)

  /** A directory path as the user wrote it. */
  type Path = string

  /** A plugin or group name; names match by exact, case-sensitive equality. */
  type Name = string

  /** The watcher's latency, carried through untouched as its literal text
      (the session never does arithmetic on it). */
  datatype Latency = Latency(literal: string)

  /** An ignore pattern of the configuration script; only stored and read back. */
  datatype Pattern = Pattern(source: string)

  /** One call the configuration script (the Guardfile) makes into the
      session, in the order the script makes them. */
  datatype Declaration =
    | PluginDecl(name: Name)                 // `guard :name do ... end`
    | GroupDecl(name: Name)                  // `group :name do ... end`
    | ClearingDecl(flag: bool)               // `clearing :on` / `clearing :off`
    | IgnoreDecl(patterns: seq<Pattern>)     // `ignore ...`
    | IgnoreBangDecl(patterns: seq<Pattern>) // `ignore! ...`

  /** The recognised keys of the options mapping given to the session.
      An empty `watchdir` stands for the key being absent; an absent
      `force_polling`, `latency` or `clear` is `None`. The script text
      `guardfile_contents` is given as the calls it makes, in order. */
  datatype Options = Options(
    watchdir: seq<Path>,
    forcePolling: Option<bool>,
    latency: Option<Latency>,
    plugin: seq<Name>,
    group: seq<Name>,
    clear: Option<bool>,
    guardfileContents: seq<Declaration>)

  /** The empty options mapping `{}`. */
  function NoOptions(): Options
  {
    Options([], None, None, [], [], None, [])
  }
}
