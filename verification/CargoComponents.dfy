/** The component that the inventory keeps for each package, built up target by
    target, and the checks it has to pass. */
module CargoComponents {
  import opened Wrappers
  import opened Graphs
  import opened Ordinal
  import opened Tables
  import opened CargoTree
  import opened CargoLine
  import opened CargoText

  const COMMIT := "zrotext:workspace-source-commit"
  const FEATURES := "zrotext:cargo-features:"
  const ENTRY := "zrotext:apk-entry"
  const TARGET := "zrotext:rust-target"

  type Property = (string, string)

  datatype Component = Component(hashes: seq<string>, license: Option<string>, properties: seq<Property>)

  const BLANK := Component([], None, [])

  /** A license expression, with alternatives spelled out. */
  function Expression(license: string): string {
    if license == "" then "" else (if license[0] == '/' then " OR " else [license[0]]) + Expression(license[1..])
  }

  function Sourced(c: Component, lock: Package, commit: string): Component {
    if lock.source != "" then c.(hashes := [lock.checksum])
    else if COMMIT in Names(c.properties) then c
    else c.(properties := c.properties + [(COMMIT, commit)])
  }

  /** A component after one more target named the package. */
  function Updated(c: Component, f: Facts, abi: string, commit: string): Component {
    var d := Sourced(c, f.lock, commit);
    var e := if f.license != "" then d.(license := Some(Expression(f.license))) else d;
    e.(properties := e.properties + [(FEATURES + abi, f.features)])
  }

  type Native = map<Id, Component>

  function Known(native: Native, x: Id): Component { if x in native then native[x] else BLANK }

  function WithFacts(native: Native, facts: map<Id, Facts>, abi: string, commit: string): Native {
    map x | x in native.Keys + facts.Keys ::
      if x in facts then Updated(Known(native, x), facts[x], abi, commit) else native[x]
  }

  // ----- The checks

  function FeatureNames(abis: seq<string>): set<string> { set abi | abi in abis :: FEATURES + abi }

  predicate Checked(x: Id, c: Component, abis: seq<string>, root: Id, commit: string) {
    && '?' !in x && Collected(c.properties).Some?
    && var props := Collected(c.properties).value;
       var features := set name | name in props && FEATURES <= name;
       && features != {} && features <= FeatureNames(abis)
       && (x == root ==> features == FeatureNames(abis))
       && (if COMMIT in props then props[COMMIT] == commit && c.hashes == []
           else |c.hashes| == 1 && Hex(c.hashes[0]))
  }

  // ----- What every target keeps

  ghost predicate NamedBy(c: Component, abis: seq<string>) {
    && NoRepeats(Names(c.properties))
    && (forall name | name in Names(c.properties) :: name == COMMIT || name in FeatureNames(abis))
  }

  ghost predicate SourcedBy(c: Component, lock: Package, commit: string) {
    if lock.source != "" then c.hashes == [lock.checksum] && Hex(lock.checksum) && COMMIT !in Names(c.properties)
    else c.hashes == [] && (COMMIT, commit) in c.properties
  }

  /** The component of a package that some of these targets named. */
  ghost predicate Formed(c: Component, abis: seq<string>, lock: Package, commit: string) {
    && NamedBy(c, abis) && SourcedBy(c, lock, commit)
    && exists name :: name in Names(c.properties) && name in FeatureNames(abis)
  }

  lemma CommitIsNoFeature(abis: seq<string>)
    ensures COMMIT !in FeatureNames(abis) && !(FEATURES <= COMMIT)
  {
    assert COMMIT[8] != FEATURES[8];
    forall abi | abi in abis ensures FEATURES + abi != COMMIT {
      assert (FEATURES + abi)[8] == FEATURES[8];
    }
  }

  lemma FreshFeature(abis: seq<string>, abi: string)
    requires abi !in abis
    ensures FEATURES + abi !in FeatureNames(abis)
  {
    forall other | other in abis ensures FEATURES + other != FEATURES + abi {
      assert (FEATURES + other)[|FEATURES|..] == other && (FEATURES + abi)[|FEATURES|..] == abi;
    }
  }

  lemma OneMoreName(xs: seq<string>, x: string)
    requires NoRepeats(xs) && x !in xs
    ensures NoRepeats(xs + [x])
  {
  }

  lemma MoreFeatures(abis: seq<string>, abi: string)
    ensures FeatureNames(abis + [abi]) == FeatureNames(abis) + {FEATURES + abi}
  {
    assert forall x :: x in abis + [abi] <==> x in abis || x == abi;
  }

  /** Before its first target a component is blank, and afterwards it is formed. */
  lemma SourcedKeeps(c: Component, abis: seq<string>, lock: Package, commit: string)
    requires c == BLANK || Formed(c, abis, lock, commit)
    requires lock.source != "" ==> Hex(lock.checksum)
    ensures NamedBy(Sourced(c, lock, commit), abis) && SourcedBy(Sourced(c, lock, commit), lock, commit)
    ensures forall name | name in Names(c.properties) :: name in Names(Sourced(c, lock, commit).properties)
  {
    CommitIsNoFeature(abis);
    NamesAppend(c.properties, (COMMIT, commit));
    if lock.source == "" && COMMIT !in Names(c.properties) {
      OneMoreName(Names(c.properties), COMMIT);
      assert (COMMIT, commit) in c.properties + [(COMMIT, commit)];
      if (COMMIT, commit) in c.properties {
        CommitIsNamed(c.properties, commit);
      }
    }
  }

  lemma CommitIsNamed(properties: seq<Property>, commit: string)
    requires (COMMIT, commit) in properties
    ensures COMMIT in Names(properties)
  {
    var i :| 0 <= i < |properties| && properties[i] == (COMMIT, commit);
    assert Names(properties)[i] == COMMIT;
  }

  lemma UpdatedKeeps(c: Component, f: Facts, abis: seq<string>, abi: string, commit: string)
    requires c == BLANK || Formed(c, abis, f.lock, commit)
    requires (f.lock.source != "" ==> Hex(f.lock.checksum)) && abi !in abis
    ensures Formed(Updated(c, f, abi, commit), abis + [abi], f.lock, commit)
    ensures forall name | name in Names(c.properties) :: name in Names(Updated(c, f, abi, commit).properties)
    ensures FEATURES + abi in Names(Updated(c, f, abi, commit).properties)
  {
    var d := Sourced(c, f.lock, commit);
    SourcedKeeps(c, abis, f.lock, commit);
    CommitIsNoFeature([abi]);
    FreshFeature(abis, abi);
    MoreFeatures(abis, abi);
    NamesAppend(d.properties, (FEATURES + abi, f.features));
    assert FEATURES + abi in FeatureNames([abi]);
    OneMoreName(Names(d.properties), FEATURES + abi);
    if f.lock.source == "" {
      assert (COMMIT, commit) in d.properties + [(FEATURES + abi, f.features)];
    }
  }

  lemma FormedLater(c: Component, abis: seq<string>, abi: string, lock: Package, commit: string)
    requires Formed(c, abis, lock, commit)
    ensures Formed(c, abis + [abi], lock, commit)
  {
    MoreFeatures(abis, abi);
  }

  // ----- A formed component passes

  lemma FeaturesFound(c: Component, abis: seq<string>, props: map<string, string>)
    requires NamedBy(c, abis) && forall name :: name in props <==> name in Names(c.properties)
    ensures var features := set name | name in props && FEATURES <= name;
            && features <= FeatureNames(abis)
            && forall name | name in FeatureNames(abis) && name in Names(c.properties) :: name in features
  {
    CommitIsNoFeature(abis);
  }

  lemma FormedIsChecked(x: Id, c: Component, abis: seq<string>, lock: Package, root: Id, commit: string)
    requires Formed(c, abis, lock, commit) && '?' !in x
    requires x == root ==> forall abi | abi in abis :: FEATURES + abi in Names(c.properties)
    ensures Checked(x, c, abis, root, commit)
  {
    CollectedExactly(c.properties);
    var props := Collected(c.properties).value;
    FeaturesFound(c, abis, props);
    var features := set name | name in props && FEATURES <= name;
    var some :| some in Names(c.properties) && some in FeatureNames(abis);
    assert some in features;
    if x == root {
      assert features == FeatureNames(abis);
    }
  }
}
