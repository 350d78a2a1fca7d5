/** The session: the options a run started with, the listener arguments
    computed from them, and the state the configuration script sets. */
module GuardSession {
  import opened SessionOptions
  import opened ListenerArgs
  import ClearingMode
  import opened Scope

  /** The part of a session the script can change. `plugins` and `groups`
      are the command-line scopes: the declared names the command line
      admits, each once, in declaration order. Names it does not admit are
      evaluated by the script but never registered. */
  datatype Config = Config(
    clearing: ClearingMode.ClearingState,
    ignore: seq<Pattern>,
    ignoreBang: seq<Pattern>,
    plugins: seq<Name>,
    groups: seq<Name>)

  /** The state of `Session.new(options)` before the script runs. */
  function InitialConfig(opts: Options): (c: Config)
    ensures c.ignore == [] && c.ignoreBang == [] && c.plugins == [] && c.groups == []
    ensures ClearingMode.IsClearing(c.clearing) <==> opts.clear == Some(true)
  {
    Config(ClearingMode.InitialClearing(opts.clear), [], [], [], [])
  }

  /** Registers `name` in `scope` when `requested` admits it and it is not there yet. */
  function Register(requested: seq<Name>, scope: seq<Name>, name: Name): seq<Name>
  {
    if Admits(requested, name) && name !in scope then scope + [name] else scope
  }

  /** One call of the script: a declaration registers an admitted name, a
      setter replaces its own field, and nothing else changes. */
  function Apply(opts: Options, c: Config, d: Declaration): (r: Config)
    ensures d.ClearingDecl? ==> r.clearing != ClearingMode.Unset
    ensures d.ClearingDecl? ==> (ClearingMode.IsClearing(r.clearing) <==> d.flag)
    ensures !d.ClearingDecl? ==> r.clearing == c.clearing
    ensures r.ignore == if d.IgnoreDecl? then d.patterns else c.ignore
    ensures r.ignoreBang == if d.IgnoreBangDecl? then d.patterns else c.ignoreBang
    ensures !d.PluginDecl? ==> r.plugins == c.plugins
    ensures !d.GroupDecl? ==> r.groups == c.groups
    ensures forall x :: x in r.plugins <==> x in c.plugins || (d.PluginDecl? && x == d.name && Admits(opts.plugin, x))
    ensures forall x :: x in r.groups <==> x in c.groups || (d.GroupDecl? && x == d.name && Admits(opts.group, x))
  {
    match d
    case PluginDecl(name) => c.(plugins := Register(opts.plugin, c.plugins, name))
    case GroupDecl(name) => c.(groups := Register(opts.group, c.groups, name))
    case ClearingDecl(flag) => c.(clearing := ClearingMode.SetClearing(c.clearing, flag))
    case IgnoreDecl(ps) => c.(ignore := ps)
    case IgnoreBangDecl(ps) => c.(ignoreBang := ps)
  }

  /** The state after the script's calls `ds`, applied in order. The
      scopes only grow: what was registered stays, in its place. */
  function Evaluate(opts: Options, c: Config, ds: seq<Declaration>): (r: Config)
    ensures c.plugins <= r.plugins && c.groups <= r.groups
  {
    if ds == [] then c else Apply(opts, Evaluate(opts, c, ds[..|ds| - 1]), ds[|ds| - 1])
  }

  /** The plugin names a script declares, in order. */
  function PluginNames(ds: seq<Declaration>): seq<Name>
  {
    if ds == [] then []
    else PluginNames(ds[..|ds| - 1]) + (if ds[|ds| - 1].PluginDecl? then [ds[|ds| - 1].name] else [])
  }

  /** The group names a script declares, in order. */
  function GroupNames(ds: seq<Declaration>): seq<Name>
  {
    if ds == [] then []
    else GroupNames(ds[..|ds| - 1]) + (if ds[|ds| - 1].GroupDecl? then [ds[|ds| - 1].name] else [])
  }

  /** The names a single call declares. */
  lemma NamesOfOne(d: Declaration)
    ensures PluginNames([d]) == if d.PluginDecl? then [d.name] else []
    ensures GroupNames([d]) == if d.GroupDecl? then [d.name] else []
  {
    assert [d][..0] == [];
  }

  /** Running one more call of the script. */
  lemma EvaluateStep(opts: Options, c: Config, ds: seq<Declaration>, i: nat)
    requires i < |ds|
    ensures Evaluate(opts, c, ds[..i + 1]) == Apply(opts, Evaluate(opts, c, ds[..i]), ds[i])
    ensures PluginNames(ds[..i + 1]) == PluginNames(ds[..i]) + PluginNames([ds[i]])
    ensures GroupNames(ds[..i + 1]) == GroupNames(ds[..i]) + GroupNames([ds[i]])
  {
    assert ds[..i + 1][..i] == ds[..i];
    NamesOfOne(ds[i]);
  }

  /** Registering the next declared name extends the resolution by that name. */
  lemma ResolveSnoc(requested: seq<Name>, declared: seq<Name>, name: Name)
    ensures Resolve(requested, declared + [name])
            == Register(requested, Resolve(requested, declared), name)
  {
    assert (declared + [name])[..|declared|] == declared;
  }

  /** The scopes a script leaves are the resolution of every name declared
      so far: the earlier ones (`plugins`, `groups`) and the script's own. */
  lemma {:induction false} EvaluateScopes(opts: Options, c: Config, ds: seq<Declaration>,
                                          plugins: seq<Name>, groups: seq<Name>)
    requires c.plugins == Resolve(opts.plugin, plugins)
    requires c.groups == Resolve(opts.group, groups)
    ensures Evaluate(opts, c, ds).plugins == Resolve(opts.plugin, plugins + PluginNames(ds))
    ensures Evaluate(opts, c, ds).groups == Resolve(opts.group, groups + GroupNames(ds))
  {
    if ds == [] {
      assert plugins + PluginNames(ds) == plugins;
      assert groups + GroupNames(ds) == groups;
    } else {
      var init := ds[..|ds| - 1];
      var d := ds[|ds| - 1];
      EvaluateScopes(opts, c, init, plugins, groups);
      if d.PluginDecl? {
        assert plugins + PluginNames(ds) == (plugins + PluginNames(init)) + [d.name];
        ResolveSnoc(opts.plugin, plugins + PluginNames(init), d.name);
      } else {
        assert plugins + PluginNames(ds) == plugins + PluginNames(init);
      }
      if d.GroupDecl? {
        assert groups + GroupNames(ds) == (groups + GroupNames(init)) + [d.name];
        ResolveSnoc(opts.group, groups + GroupNames(init), d.name);
      } else {
        assert groups + GroupNames(ds) == groups + GroupNames(init);
      }
    }
  }

  /** After a script runs in a fresh session, a plugin is in the command-line
      plugin scope exactly when the script declared it and the command line
      asked for it (or asked for nothing); likewise for groups. */
  lemma {:induction false} ScriptScope(opts: Options, ds: seq<Declaration>, x: Name)
    ensures x in Evaluate(opts, InitialConfig(opts), ds).plugins
            <==> x in PluginNames(ds) && Admits(opts.plugin, x)
    ensures x in Evaluate(opts, InitialConfig(opts), ds).groups
            <==> x in GroupNames(ds) && Admits(opts.group, x)
  {
    EvaluateScopes(opts, InitialConfig(opts), ds, [], []);
    assert [] + PluginNames(ds) == PluginNames(ds);
    assert [] + GroupNames(ds) == GroupNames(ds);
    ResolveMembers(opts.plugin, PluginNames(ds), x);
    ResolveMembers(opts.group, GroupNames(ds), x);
  }

  /** The last `clearing` call of the script decides `clearing?`. */
  lemma {:induction false} LastClearingDeclWins(opts: Options, c: Config, ds: seq<Declaration>, k: nat)
    requires k < |ds| && ds[k].ClearingDecl?
    requires forall j :: k < j < |ds| ==> !ds[j].ClearingDecl?
    ensures ClearingMode.IsClearing(Evaluate(opts, c, ds).clearing) <==> ds[k].flag
  {
    if k < |ds| - 1 {
      LastClearingDeclWins(opts, c, ds[..|ds| - 1], k);
    }
  }

  /** A script that never calls `clearing` leaves the command line's setting. */
  lemma {:induction false} NoClearingDeclKeepsClearing(opts: Options, c: Config, ds: seq<Declaration>)
    requires forall j :: 0 <= j < |ds| ==> !ds[j].ClearingDecl?
    ensures Evaluate(opts, c, ds).clearing == c.clearing
  {
    if ds != [] {
      NoClearingDeclKeepsClearing(opts, c, ds[..|ds| - 1]);
    }
  }

  /** `guardfile_ignore` reads back exactly the last list the script assigned. */
  lemma {:induction false} LastIgnoreDeclWins(opts: Options, c: Config, ds: seq<Declaration>, k: nat)
    requires k < |ds| && ds[k].IgnoreDecl?
    requires forall j :: k < j < |ds| ==> !ds[j].IgnoreDecl?
    ensures Evaluate(opts, c, ds).ignore == ds[k].patterns
  {
    if k < |ds| - 1 {
      LastIgnoreDeclWins(opts, c, ds[..|ds| - 1], k);
    }
  }

  /** `guardfile_ignore_bang` reads back exactly the last list the script assigned. */
  lemma {:induction false} LastIgnoreBangDeclWins(opts: Options, c: Config, ds: seq<Declaration>, k: nat)
    requires k < |ds| && ds[k].IgnoreBangDecl?
    requires forall j :: k < j < |ds| ==> !ds[j].IgnoreBangDecl?
    ensures Evaluate(opts, c, ds).ignoreBang == ds[k].patterns
  {
    if k < |ds| - 1 {
      LastIgnoreBangDeclWins(opts, c, ds[..|ds| - 1], k);
    }
  }

  /** Each ignore list keeps its value, and so reads `[]` in a fresh session,
      until the script assigns that list; assigning the other one does not touch it. */
  lemma {:induction false} UnassignedIgnoreKept(opts: Options, c: Config, ds: seq<Declaration>)
    ensures (forall j :: 0 <= j < |ds| ==> !ds[j].IgnoreDecl?) ==> Evaluate(opts, c, ds).ignore == c.ignore
    ensures (forall j :: 0 <= j < |ds| ==> !ds[j].IgnoreBangDecl?) ==> Evaluate(opts, c, ds).ignoreBang == c.ignoreBang
  {
    if ds != [] {
      UnassignedIgnoreKept(opts, c, ds[..|ds| - 1]);
    }
  }

  class Session {
    /** The options the session was created with. */
    const options: Options
    /** `listener_args`: computed once, when the session is created. */
    const listenerArgs: seq<ListenerArg>

    var clearing: ClearingMode.ClearingState
    var guardfileIgnore: seq<Pattern>
    var guardfileIgnoreBang: seq<Pattern>
    /** The command-line scopes: declared names the command line admits. */
    var cmdlinePlugins: seq<Name>
    var cmdlineGroups: seq<Name>
    /** Every name declared so far, admitted or not, in declaration order. */
    ghost var declaredPlugins: seq<Name>
    ghost var declaredGroups: seq<Name>

    ghost predicate Valid()
      reads this
    {
      && cmdlinePlugins == Resolve(options.plugin, declaredPlugins)
      && cmdlineGroups == Resolve(options.group, declaredGroups)
    }

    ghost function State(): Config
      reads this
    {
      Config(clearing, guardfileIgnore, guardfileIgnoreBang, cmdlinePlugins, cmdlineGroups)
    }

    /** `Session.new(options)`, with `cwd` the process's current directory:
        computes the listener arguments, then runs `guardfile_contents`. */
    constructor (opts: Options, cwd: Path)
      ensures Valid()
      ensures options == opts
      ensures listenerArgs == BuildListenerArgs(opts, cwd)
      ensures State() == Evaluate(opts, InitialConfig(opts), opts.guardfileContents)
      ensures declaredPlugins == PluginNames(opts.guardfileContents)
      ensures declaredGroups == GroupNames(opts.guardfileContents)
    {
      options := opts;
      listenerArgs := BuildListenerArgs(opts, cwd);
      clearing := ClearingMode.InitialClearing(opts.clear);
      guardfileIgnore := [];
      guardfileIgnoreBang := [];
      cmdlinePlugins := [];
      cmdlineGroups := [];
      declaredPlugins := [];
      declaredGroups := [];
      new;
      EvaluateScript(opts.guardfileContents);
      assert [] + PluginNames(opts.guardfileContents) == PluginNames(opts.guardfileContents);
      assert [] + GroupNames(opts.guardfileContents) == GroupNames(opts.guardfileContents);
    }

    /** `clearing(flag)`. */
    method Clearing(flag: bool)
      modifies this`clearing
      ensures clearing == ClearingMode.SetClearing(old(clearing), flag)
      ensures ClearingMode.IsClearing(clearing) <==> flag
    {
      clearing := ClearingMode.SetClearing(clearing, flag);
    }

    /** `clearing?`. */
    method IsClearing() returns (on: bool)
      ensures on <==> ClearingMode.IsClearing(clearing)
      ensures on <==> clearing == ClearingMode.On
    {
      on := ClearingMode.IsClearing(clearing);
    }

    /** `guardfile_ignore = patterns`. */
    method SetGuardfileIgnore(patterns: seq<Pattern>)
      modifies this`guardfileIgnore
      ensures guardfileIgnore == patterns
    {
      guardfileIgnore := patterns;
    }

    /** `guardfile_ignore_bang = patterns`. */
    method SetGuardfileIgnoreBang(patterns: seq<Pattern>)
      modifies this`guardfileIgnoreBang
      ensures guardfileIgnoreBang == patterns
    {
      guardfileIgnoreBang := patterns;
    }

    /** The script declares plugin `name`: it is registered in the
        command-line scope only when requested there and not yet present. */
    method DeclarePlugin(name: Name)
      requires Valid()
      modifies this`cmdlinePlugins, this`declaredPlugins
      ensures Valid()
      ensures declaredPlugins == old(declaredPlugins) + [name]
      ensures cmdlinePlugins == Register(options.plugin, old(cmdlinePlugins), name)
      ensures !Admits(options.plugin, name) ==> cmdlinePlugins == old(cmdlinePlugins)
    {
      ResolveSnoc(options.plugin, declaredPlugins, name);
      if Admits(options.plugin, name) && name !in cmdlinePlugins {
        cmdlinePlugins := cmdlinePlugins + [name];
      }
      declaredPlugins := declaredPlugins + [name];
    }

    /** The script declares group `name`; as for plugins. */
    method DeclareGroup(name: Name)
      requires Valid()
      modifies this`cmdlineGroups, this`declaredGroups
      ensures Valid()
      ensures declaredGroups == old(declaredGroups) + [name]
      ensures cmdlineGroups == Register(options.group, old(cmdlineGroups), name)
      ensures !Admits(options.group, name) ==> cmdlineGroups == old(cmdlineGroups)
    {
      ResolveSnoc(options.group, declaredGroups, name);
      if Admits(options.group, name) && name !in cmdlineGroups {
        cmdlineGroups := cmdlineGroups + [name];
      }
      declaredGroups := declaredGroups + [name];
    }

    /** One call of the script into the session. */
    method Declare(d: Declaration)
      requires Valid()
      modifies this
      ensures Valid()
      ensures State() == Apply(options, old(State()), d)
      ensures declaredPlugins == old(declaredPlugins) + PluginNames([d])
      ensures declaredGroups == old(declaredGroups) + GroupNames([d])
    {
      NamesOfOne(d);
      match d
      case PluginDecl(name) => DeclarePlugin(name);
      case GroupDecl(name) => DeclareGroup(name);
      case ClearingDecl(flag) => Clearing(flag);
      case IgnoreDecl(ps) => SetGuardfileIgnore(ps);
      case IgnoreBangDecl(ps) => SetGuardfileIgnoreBang(ps);
    }

    /** Evaluating the configuration script: its calls, in order. */
    method EvaluateScript(ds: seq<Declaration>)
      requires Valid()
      modifies this
      ensures Valid()
      ensures State() == Evaluate(options, old(State()), ds)
      ensures declaredPlugins == old(declaredPlugins) + PluginNames(ds)
      ensures declaredGroups == old(declaredGroups) + GroupNames(ds)
    {
      var i := 0;
      while i < |ds|
        invariant 0 <= i <= |ds|
        invariant Valid()
        invariant State() == Evaluate(options, old(State()), ds[..i])
        invariant declaredPlugins == old(declaredPlugins) + PluginNames(ds[..i])
        invariant declaredGroups == old(declaredGroups) + GroupNames(ds[..i])
      {
        EvaluateStep(options, old(State()), ds, i);
        Declare(ds[i]);
        i := i + 1;
      }
      assert ds[..|ds|] == ds;
    }

    /** `cmdline_plugins`: the declared plugins the command line selected. */
    method CmdlinePlugins() returns (names: seq<Name>)
      requires Valid()
      ensures names == Resolve(options.plugin, declaredPlugins)
      ensures Distinct(names)
      ensures forall x :: x in names <==> x in declaredPlugins && Admits(options.plugin, x)
    {
      names := cmdlinePlugins;
      ResolveDistinct(options.plugin, declaredPlugins);
      forall x ensures x in names <==> x in declaredPlugins && Admits(options.plugin, x) {
        ResolveMembers(options.plugin, declaredPlugins, x);
      }
    }

    /** `cmdline_groups`: the declared groups the command line selected. */
    method CmdlineGroups() returns (names: seq<Name>)
      requires Valid()
      ensures names == Resolve(options.group, declaredGroups)
      ensures Distinct(names)
      ensures forall x :: x in names <==> x in declaredGroups && Admits(options.group, x)
    {
      names := cmdlineGroups;
      ResolveDistinct(options.group, declaredGroups);
      forall x ensures x in names <==> x in declaredGroups && Admits(options.group, x) {
        ResolveMembers(options.group, declaredGroups, x);
      }
    }
  }
}
