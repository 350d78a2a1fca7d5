# Guard session model

A Dafny model of the session object of Guard, the file-watching tool
(`Guard::Internals::Session`): the per-process state created from the
command-line options and then filled in by the configuration script (the
Guardfile). The model covers four parts of it:

- **Listener arguments.** The `watchdir`, `force_polling` and `latency`
  options become the argument list `[:to, dir1, ..., dirN, tuning]` handed to
  the file-system listener. With no `watchdir` the current directory is
  watched. The tuning mapping holds only the keys that were supplied.
- **Clearing mode.** The mode has three states: unset, on and off. The
  command line may give a `clear:` default. Each `clearing(flag)` call from the
  script overrides the mode. `clearing?` is true only in the on state.
- **Ignore patterns.** `guardfile_ignore` and `guardfile_ignore_bang` are
  two independent lists. Each reads `[]` until it is assigned. After that it
  reads back exactly what was assigned.
- **Command-line scopes.** `cmdline_plugins` and `cmdline_groups` hold the
  plugins and groups the script declares, narrowed to the names given with
  `plugin:` and `group:`. The order is the script's declaration order, and
  each name appears once.

Modules:

- `SessionOptions` (options.dfy) holds the options mapping and its value types.
- `ListenerArgs` (listener_args.dfy) holds the pure builder. It also holds
  `ReadListenerArgs`, which says how the listener reads the list back. The
  round-trip lemma proves the builder against it.
- `ClearingMode` (clearing.dfy) holds the tri-state mode.
- `Scope` (scope.dfy) holds `Resolve`, which defines the resolved scope,
  and its membership, uniqueness and ordering lemmas.
- `GuardSession` (session.dfy) holds the mutable `Session` class. The
  script's calls into the session are modelled as a sequence of
  `Declaration` values. `Evaluate` is the specification of running that
  sequence, and the lemmas here state what the script leaves behind.
- `Scenarios` (scenarios.dfy) holds the concrete cases of the behaviour:
  particular options and scripts, with the listener arguments, scopes, clearing
  mode and ignore lists they produce.

The class `Session` keeps its fields as the Ruby object does. The
constructor computes the listener arguments and then runs the script given as
`guardfile_contents`, so the scopes can be read straight after
`Session.new(options)`. The setters assign `clearing` and the two ignore
lists. A declared plugin or group is registered only when the command line
admits it; other declarations are evaluated but never registered. `Valid()`
ties each scope to `Resolve` over every name declared so far, which is kept
as a ghost field. Every state-changing method states the new state in terms
of the old one.

Modelling decisions where the behaviour above leaves a case open:

- A `force_polling` or `latency` option that is supplied goes into the tuning
  mapping with its value, even `force_polling: false`. Only the `true` case is
  exercised in the source.
- An empty `plugin:`/`group:` list means no restriction: every declared name
  is in the scope. A requested name that is never declared is simply absent.
- A command-line `clear: true` starts the session in the on state.
- The current directory is a parameter of the constructor (`cwd`). Paths pass
  through unchanged, which is the POSIX case of the path expansion.

## Model

| member | source | states |
|---|---|---|
| ListenerArgs.WatchDirs | spec/lib/guard/internals/session_spec.rb:20-41 | the directories to watch are never empty: the `watchdir` list as given, or the current directory alone when no `watchdir` is supplied |
| ListenerArgs.BuildListenerArgs | spec/lib/guard/internals/session_spec.rb:17-41 | the list is `:to`, then one `Dir` per watch directory in the given order (the current directory alone when no `watchdir`), then the tuning mapping; it always has at least three elements |
| ListenerArgs.TuningOptions | spec/lib/guard/internals/session_spec.rb:33-41 | the tuning mapping contains `force_polling` exactly when supplied and `latency` exactly when supplied, each with the supplied value; an absent key is never defaulted |
| ListenerArgs.ReadBuildListenerArgs | spec/lib/guard/internals/session_spec.rb:17-41 | round trip: reading the built list back yields exactly the watch directories and exactly the supplied tuning keys |
| ListenerArgs.BuildListenerArgsInjective | spec/lib/guard/internals/session_spec.rb:17-41 | two option sets give equal listener arguments if and only if they name the same directories and the same tuning mapping |
| Scenarios.SingleWatchdir | spec/lib/guard/internals/session_spec.rb:20-24 | `watchdir: ["/usr"]` gives `[:to, "/usr", {}]` |
| Scenarios.MultipleWatchdirs | spec/lib/guard/internals/session_spec.rb:26-31 | `watchdir: ["/usr", "/bin"]` gives `[:to, "/usr", "/bin", {}]` |
| Scenarios.ForcePollingOnly | spec/lib/guard/internals/session_spec.rb:33-36 | `force_polling: true` alone gives `[:to, cwd, {force_polling: true}]` |
| Scenarios.LatencyOnly | spec/lib/guard/internals/session_spec.rb:38-41 | `latency: 1.5` alone gives `[:to, cwd, {latency: 1.5}]` |
| ClearingMode.InitialClearing | spec/lib/guard/internals/session_spec.rb:97-105 | the starting mode is unset exactly when no `clear:` was given, and `clearing?` is true only for `clear: true`, so unset and `clear: false` both read false |
| ClearingMode.SetClearing | spec/lib/guard/internals/session_spec.rb:108-117 | after `clearing(flag)` the mode is set, and `clearing?` equals `flag` whatever the mode was before |
| ClearingMode.LastClearingWins | spec/lib/guard/internals/session_spec.rb:96-118 | after one or more `clearing` calls, `clearing?` equals the last call's flag |
| ClearingMode.SetClearingIdempotent | spec/lib/guard/internals/session_spec.rb:108-117 | repeating `clearing(flag)` leaves the mode as one call does |
| Scope.Admits | spec/lib/guard/internals/session_spec.rb:44-92 | every name on the command-line list is admitted, and a non-empty list admits only its own names |
| Scope.Resolve | spec/lib/guard/internals/session_spec.rb:44-92 | the resolved scope is no longer than the declarations and holds only names that were declared and admitted |
| Scope.ResolveMembers | spec/lib/guard/internals/session_spec.rb:44-92 | a name is in the resolved scope if and only if the script declared it and the command line requested it (or requested nothing), so undeclared and unrequested names are excluded |
| Scope.ResolveDistinct | spec/lib/guard/internals/session_spec.rb:70 | the resolved scope names each plugin or group once, as `match_array` with the requested list requires |
| Scope.ResolveOrder | spec/lib/guard/internals/session_spec.rb:44-92 | the scope contains only declared names, ordered by where the script first declared them |
| GuardSession.InitialConfig | spec/lib/guard/internals/session_spec.rb:96-141 | before the script runs, both ignore lists and both scopes are empty, and `clearing?` is true only for `clear: true` |
| GuardSession.Apply | spec/lib/guard/internals/session_spec.rb:44-141 | one script call: a plugin (group) declaration adds only that name, and only when admitted; `clearing` sets the mode so `clearing?` equals its flag; each ignore assignment replaces its own list; every other field is unchanged |
| GuardSession.Evaluate | spec/lib/guard/internals/session_spec.rb:44-92 | running a script only adds to the plugin and group scopes: what was registered before stays, in its place |
| GuardSession.EvaluateScopes | spec/lib/guard/internals/session_spec.rb:63-68 | after a script, each scope is exactly the resolution of every name declared so far, so unrequested names (coffeescript, excluded) are never registered |
| GuardSession.ScriptScope | spec/lib/guard/internals/session_spec.rb:44-92 | after a script runs in a fresh session, a name is in `cmdline_plugins` (`cmdline_groups`) if and only if the script declared it as a plugin (group) and the command line admits it |
| GuardSession.LastClearingDeclWins | spec/lib/guard/internals/session_spec.rb:108-118 | the script's last `clearing` call decides `clearing?`, whatever else the script does |
| GuardSession.NoClearingDeclKeepsClearing | spec/lib/guard/internals/session_spec.rb:97-105 | a script that never calls `clearing` leaves the command line's mode |
| GuardSession.LastIgnoreDeclWins | spec/lib/guard/internals/session_spec.rb:121-125 | `guardfile_ignore` reads back exactly the list the script last assigned to it |
| GuardSession.LastIgnoreBangDeclWins | spec/lib/guard/internals/session_spec.rb:132-136 | `guardfile_ignore_bang` reads back exactly the list the script last assigned to it |
| GuardSession.UnassignedIgnoreKept | spec/lib/guard/internals/session_spec.rb:121-141 | each ignore list keeps its value (`[]` in a fresh session) until assigned, and assigning one list never touches the other |
| GuardSession.Session.constructor | spec/lib/guard/internals/session_spec.rb:44-92 | `Session.new(options)` keeps the options, caches the listener arguments built from them, and runs `guardfile_contents` from the initial state, so the scopes are resolved when `new` returns |
| GuardSession.Session.Clearing | spec/lib/guard/internals/session_spec.rb:108-117 | `clearing(flag)` sets the mode so that `clearing?` equals `flag` and changes no other field |
| GuardSession.Session.IsClearing | spec/lib/guard/internals/session_spec.rb:96-118 | `clearing?` is true exactly in the on state |
| GuardSession.Session.SetGuardfileIgnore | spec/lib/guard/internals/session_spec.rb:121-125 | `guardfile_ignore=` stores exactly the given list and changes nothing else, so the bang list is unaffected |
| GuardSession.Session.SetGuardfileIgnoreBang | spec/lib/guard/internals/session_spec.rb:132-136 | `guardfile_ignore_bang=` stores exactly the given list and changes nothing else |
| GuardSession.Session.DeclarePlugin | spec/lib/guard/internals/session_spec.rb:63-68 | a declared plugin is registered only when the command line admits it and it is not yet present; an unrequested plugin leaves the scope unchanged |
| GuardSession.Session.DeclareGroup | spec/lib/guard/internals/session_spec.rb:83-87 | a declared group is registered only when the command line admits it and it is not yet present; an unrequested group leaves the scope unchanged |
| GuardSession.Session.Declare | spec/lib/guard/internals/session_spec.rb:44-141 | one script call changes the session's state exactly as `Apply` says |
| GuardSession.Session.EvaluateScript | spec/lib/guard/internals/session_spec.rb:44-92 | running the script's calls in order leaves the state `Evaluate` gives and keeps the scopes resolved |
| GuardSession.Session.CmdlinePlugins | spec/lib/guard/internals/session_spec.rb:70 | `cmdline_plugins` returns the resolved plugin scope: no duplicates, and a name is in it if and only if it was declared and admitted by `plugin:` |
| GuardSession.Session.CmdlineGroups | spec/lib/guard/internals/session_spec.rb:91 | `cmdline_groups` returns the resolved group scope: no duplicates, and a name is in it if and only if it was declared and admitted by `group:` |
| Scenarios.PluginScope | spec/lib/guard/internals/session_spec.rb:44-71 | with `plugin: [cucumber, jasmine]` and a script declaring jasmine, cucumber and coffeescript, the scope is exactly jasmine then cucumber, equal to `{cucumber, jasmine}` as a multiset; coffeescript is never registered |
| Scenarios.GroupScope | spec/lib/guard/internals/session_spec.rb:74-92 | with `group: [backend, frontend]` and a script declaring backend, frontend and excluded, the scope is exactly backend then frontend; excluded is never registered |

## Left out

- The deprecated `Guard::Deprecated::Guard` facade (spec/lib/guard/deprecated/guard_spec.rb). Each of its methods only emits a deprecation notice and forwards to another component, so it has no behaviour of its own to state.
- Evaluation of the Guardfile text (`guardfile_contents`). The script's effect is modelled as the ordered sequence of calls it makes into the session (`Declaration`). The Ruby DSL is not interpreted.
- `File.expand_path` of relative watch directories and the drive-letter form on Windows. Paths pass through unchanged, and `Dir.pwd` is the `cwd` constructor parameter.
- The meaning of ignore patterns as regular expressions. Patterns are opaque values that are only stored and read back.
- The numeric meaning of `latency`. It is carried as its literal text.
- The `Plugin` and `Group` instances and the options mapping each declaration carries. The scopes hold names only.
- An `InvalidOption` error for a watch directory that is not path-like. The `Path` type admits only strings, so no such input exists in the model.
- Session replacement on a Guardfile reload. A reload builds a new `Session`, and nothing in this core changes for it.
- Other session options (notification, interactor, debug, `listen_on`). The session's tests say nothing about them.
