/** The concrete situations of the session's behaviour, stated against the
    model: what a caller observes for particular options and scripts. */
module Scenarios {
  import opened SessionOptions
  import opened ListenerArgs
  import ClearingMode
  import opened Scope
  import opened GuardSession

  /** `watchdir: ["/usr"]` gives `[:to, "/usr", {}]`. */
  lemma SingleWatchdir(cwd: Path)
    ensures BuildListenerArgs(NoOptions().(watchdir := ["/usr"]), cwd) == [To, Dir("/usr"), Tuning(map[])]
  {
  }

  /** `watchdir: ["/usr", "/bin"]` gives `[:to, "/usr", "/bin", {}]`. */
  lemma MultipleWatchdirs(cwd: Path)
    ensures BuildListenerArgs(NoOptions().(watchdir := ["/usr", "/bin"]), cwd)
            == [To, Dir("/usr"), Dir("/bin"), Tuning(map[])]
  {
  }

  /** `force_polling: true` alone gives `[:to, cwd, {force_polling: true}]`. */
  lemma ForcePollingOnly(cwd: Path)
    ensures BuildListenerArgs(NoOptions().(forcePolling := Some(true)), cwd)
            == [To, Dir(cwd), Tuning(map[ForcePolling := Flag(true)])]
  {
  }

  /** `latency: 1.5` alone gives `[:to, cwd, {latency: 1.5}]`. */
  lemma LatencyOnly(cwd: Path)
    ensures BuildListenerArgs(NoOptions().(latency := Some(Latency("1.5"))), cwd)
            == [To, Dir(cwd), Tuning(map[LatencyKey := Seconds(Latency("1.5"))])]
  {
  }

  /** `plugin: [cucumber, jasmine]` with a script declaring jasmine,
      cucumber and coffeescript. */
  function PluginOptions(): Options
  {
    NoOptions().(plugin := ["cucumber", "jasmine"],
                 guardfileContents := [PluginDecl("jasmine"), PluginDecl("cucumber"), PluginDecl("coffeescript")])
  }

  /** `group: [backend, frontend]` with a script declaring backend,
      frontend and excluded. */
  function GroupOptions(): Options
  {
    NoOptions().(group := ["backend", "frontend"],
                 guardfileContents := [GroupDecl("backend"), GroupDecl("frontend"), GroupDecl("excluded")])
  }

  /** With `PluginOptions()` the plugin scope is jasmine then cucumber (script
      order), so it matches `[cucumber, jasmine]` in any order, and
      coffeescript is never registered. */
  lemma {:induction false} PluginScope(opts: Options)
    requires opts == PluginOptions()
    ensures Evaluate(opts, InitialConfig(opts), opts.guardfileContents).plugins == ["jasmine", "cucumber"]
    ensures multiset(Evaluate(opts, InitialConfig(opts), opts.guardfileContents).plugins)
            == multiset{"cucumber", "jasmine"}
  {
    var ds := opts.guardfileContents;
    EvaluateScopes(opts, InitialConfig(opts), ds, [], []);
    assert ds[..1] == [PluginDecl("jasmine")] && ds[..2] == ds[..1] + [PluginDecl("cucumber")];
    assert PluginNames(ds[..1]) == ["jasmine"];
    assert PluginNames(ds[..2]) == ["jasmine", "cucumber"];
    assert [] + PluginNames(ds) == ["jasmine", "cucumber", "coffeescript"];
    ResolveThree(opts.plugin, "jasmine", "cucumber", "coffeescript");
  }

  /** With `GroupOptions()` the group scope is backend then frontend, and
      excluded is never registered. */
  lemma {:induction false} GroupScope(opts: Options)
    requires opts == GroupOptions()
    ensures Evaluate(opts, InitialConfig(opts), opts.guardfileContents).groups == ["backend", "frontend"]
    ensures multiset(Evaluate(opts, InitialConfig(opts), opts.guardfileContents).groups)
            == multiset{"backend", "frontend"}
  {
    var ds := opts.guardfileContents;
    EvaluateScopes(opts, InitialConfig(opts), ds, [], []);
    assert ds[..1] == [GroupDecl("backend")] && ds[..2] == ds[..1] + [GroupDecl("frontend")];
    assert GroupNames(ds[..1]) == ["backend"];
    assert GroupNames(ds[..2]) == ["backend", "frontend"];
    assert [] + GroupNames(ds) == ["backend", "frontend", "excluded"];
    ResolveThree(opts.group, "backend", "frontend", "excluded");
  }

  /** Resolution of three distinct declarations of which the first two are requested. */
  lemma ResolveThree(requested: seq<Name>, a: Name, b: Name, c: Name)
    requires a != b && a != c && b != c
    requires requested == [b, a] || requested == [a, b]
    ensures Resolve(requested, [a, b, c]) == [a, b]
  {
    assert [a, b, c][..2] == [a, b] && [a, b][..1] == [a];
    assert Resolve(requested, [a]) == [a];
    assert Resolve(requested, [a, b]) == [a, b];
  }

  /** `clearing?` on sessions: unset, `clear: false`, `clearing(true)`,
      `clearing(false)`. */
  method ClearingCases(cwd: Path)
  {
    var unset := new Session(NoOptions(), cwd);
    var on := unset.IsClearing();
    assert !on;

    var cleared := new Session(NoOptions().(clear := Some(false)), cwd);
    on := cleared.IsClearing();
    assert !on;

    var setOn := new Session(NoOptions(), cwd);
    setOn.Clearing(true);
    on := setOn.IsClearing();
    assert on;

    var setOff := new Session(NoOptions(), cwd);
    setOff.Clearing(false);
    on := setOff.IsClearing();
    assert !on;
  }

  /** Both ignore lists read `[]` until assigned and the assigned list after. */
  method IgnoreCases(cwd: Path)
  {
    var foo := [Pattern("foo")];
    var s := new Session(NoOptions(), cwd);
    assert s.guardfileIgnore == [] && s.guardfileIgnoreBang == [];
    s.SetGuardfileIgnore(foo);
    assert s.guardfileIgnore == foo && s.guardfileIgnoreBang == [];

    var t := new Session(NoOptions(), cwd);
    t.SetGuardfileIgnoreBang(foo);
    assert t.guardfileIgnoreBang == foo && t.guardfileIgnore == [];
  }

  /** The plugin and group scopes read straight after `Session.new(options)`. */
  method ScopeCases(cwd: Path)
  {
    var p := new Session(PluginOptions(), cwd);
    PluginScope(PluginOptions());
    var plugins := p.CmdlinePlugins();
    assert plugins == ["jasmine", "cucumber"];

    var g := new Session(GroupOptions(), cwd);
    GroupScope(GroupOptions());
    var groups := g.CmdlineGroups();
    assert groups == ["backend", "frontend"];
  }
}
