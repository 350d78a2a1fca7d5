/** Scope resolution: the plugins (or groups) declared by the configuration
    script, kept when the command line asked for them. */
module Scope {
  import opened SessionOptions

  /** Whether the command-line list lets `name` into the scope; an empty
      list places no restriction. */
  function Admits(requested: seq<Name>, name: Name): (admitted: bool)
    ensures name in requested ==> admitted
    ensures admitted && requested != [] ==> name in requested
  {
    requested == [] || name in requested
  }

  /** The resolved scope after the script declared `declared`, in that order:
      each admitted name once, at its first declaration. */
  function Resolve(requested: seq<Name>, declared: seq<Name>): (scope: seq<Name>)
    ensures |scope| <= |declared|
    ensures forall x :: x in scope ==> x in declared && Admits(requested, x)
  {
    if declared == [] then []
    else
      var before := Resolve(requested, declared[..|declared| - 1]);
      var name := declared[|declared| - 1];
      if Admits(requested, name) && name !in before then before + [name] else before
  }

  /** Index of the first occurrence of `x` in `s`. */
  function FirstIndex(s: seq<Name>, x: Name): (k: nat)
    requires x in s
    ensures k < |s| && s[k] == x
    ensures forall j :: 0 <= j < k ==> s[j] != x
  {
    if s[0] == x then 0 else 1 + FirstIndex(s[1..], x)
  }

  /** No name appears twice. */
  predicate Distinct(s: seq<Name>)
  {
    forall i, j :: 0 <= i < j < |s| ==> s[i] != s[j]
  }

  /** A name is in the scope exactly when it was declared and requested
      (or nothing was requested): undeclared and unrequested names are out. */
  lemma {:induction false} ResolveMembers(requested: seq<Name>, declared: seq<Name>, x: Name)
    ensures x in Resolve(requested, declared) <==> x in declared && Admits(requested, x)
  {
    if declared != [] {
      var init := declared[..|declared| - 1];
      ResolveMembers(requested, init, x);
      assert declared == init + [declared[|declared| - 1]];
    }
  }

  /** The scope names each plugin or group once. */
  lemma {:induction false} ResolveDistinct(requested: seq<Name>, declared: seq<Name>)
    ensures Distinct(Resolve(requested, declared))
  {
    if declared != [] {
      ResolveDistinct(requested, declared[..|declared| - 1]);
    }
  }

  /** The scope follows the script's declaration order, not the command line's. */
  lemma {:induction false} ResolveOrder(requested: seq<Name>, declared: seq<Name>)
    ensures forall x :: x in Resolve(requested, declared) ==> x in declared
    ensures forall i, j :: 0 <= i < j < |Resolve(requested, declared)| ==>
              FirstIndex(declared, Resolve(requested, declared)[i])
              < FirstIndex(declared, Resolve(requested, declared)[j])
  {
    if declared != [] {
      var init := declared[..|declared| - 1];
      var name := declared[|declared| - 1];
      var before := Resolve(requested, init);
      ResolveOrder(requested, init);
      assert declared == init + [name];
      forall x | x in init
        ensures FirstIndex(declared, x) == FirstIndex(init, x)
      {
        FirstIndexPrefix(init, name, x);
      }
      if Admits(requested, name) && name !in before {
        ResolveMembers(requested, init, name);
        FirstIndexLast(init, name);
      }
    }
  }

  lemma {:induction false} FirstIndexPrefix(s: seq<Name>, y: Name, x: Name)
    requires x in s
    ensures FirstIndex(s + [y], x) == FirstIndex(s, x)
  {
    if s[0] != x {
      assert (s + [y])[1..] == s[1..] + [y];
      FirstIndexPrefix(s[1..], y, x);
    }
  }

  lemma {:induction false} FirstIndexLast(s: seq<Name>, y: Name)
    requires y !in s
    ensures FirstIndex(s + [y], y) == |s|
  {
    if s != [] {
      assert (s + [y])[1..] == s[1..] + [y];
      FirstIndexLast(s[1..], y);
    }
  }
}
