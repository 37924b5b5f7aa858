/**
 * `org.kitei.guice.RobotLegsBindingBuilder`: binding one implementation
 * class several times, once per context annotation, with its dependencies
 * marked `@RobotLeg` looked up under that same annotation.
 *
 * The provider scans the class's injection points and keeps one entry per
 * `@RobotLeg` dependency, from the context-tagged dependency to the
 * placeholder one. When Guice injects the parent injector, the provider
 * creates a child injector that binds the class and redirects every
 * placeholder key to its tagged key, failing on the first tagged key the
 * parent cannot supply.
 */
module RobotLegs {
  import opened Wrappers

  /** The binding annotation type that marks a placeholder dependency. */
  const ROBOT_LEG: string := "org.kitei.guice.RobotLeg"

  /** A Guice key: a type literal and, when annotated, the binding annotation's type. */
  datatype Key = Key(typeLiteral: string, qualifier: Option<string>)

  /** The member a dependency is injected into and the parameter's position in it. */
  datatype Site = Site(member: string, parameterIndex: int)

  /** A Guice `Dependency`: a key and the injection site it was read from; `Dependency.get(key)` has none. */
  datatype Dependency = Dependency(key: Key, site: Option<Site>)

  /** A constructor, method or field Guice injects, with its dependencies in parameter order. */
  datatype InjectionPoint = InjectionPoint(member: string, dependencies: seq<Dependency>)

  /**
   * The implementation class as Guice's reflection sees it: its injectable
   * constructor, and its injectable instance methods and fields.
   */
  datatype ImplementationClass = ImplementationClass(name: string, injectableConstructor: InjectionPoint, membersAndFields: seq<InjectionPoint>)

  /** The injection points the provider scans: the constructor first, then the instance methods and fields. */
  function InjectionPoints(c: ImplementationClass): (r: seq<InjectionPoint>)
    ensures |r| == 1 + |c.membersAndFields| && r[0] == c.injectableConstructor && r[1..] == c.membersAndFields
  {
    [c.injectableConstructor] + c.membersAndFields
  }

  /** The key a class is bound under by `binder.bind(clazz)`. */
  function ClassKey(c: ImplementationClass): Key
  {
    Key(c.name, None)
  }

  predicate IsPlaceholder(d: Dependency)
  {
    d.key.qualifier == Some(ROBOT_LEG)
  }

  /** `Dependency.get(Key.get(typeLiteral, context))` for a placeholder dependency. */
  function Tagged(d: Dependency, context: string): Dependency
  {
    Dependency(Key(d.key.typeLiteral, Some(context)), None)
  }

  /** One entry of the provider's map: the tagged dependency (the map's key) and the placeholder it replaces (its value). */
  datatype Entry = Entry(tagged: Dependency, placeholder: Dependency)

  /** Whether one of `points` declares the dependency `d`. */
  ghost predicate Declares(points: seq<InjectionPoint>, d: Dependency)
  {
    exists i :: 0 <= i < |points| && d in points[i].dependencies
  }

  /** The entries one injection point contributes, in parameter order. */
  function DependencyEntries(deps: seq<Dependency>, context: string): seq<Entry>
    decreases |deps|
  {
    if deps == [] then []
    else
      var d := deps[|deps| - 1];
      DependencyEntries(deps[..|deps| - 1], context) + (if IsPlaceholder(d) then [Entry(Tagged(d, context), d)] else [])
  }

  /** The entries of all injection points, in scan order: what the constructor's nested loops put in the map builder. */
  function PointEntries(points: seq<InjectionPoint>, context: string): seq<Entry>
    decreases |points|
  {
    if points == [] then []
    else PointEntries(points[..|points| - 1], context) + DependencyEntries(points[|points| - 1].dependencies, context)
  }

  lemma {:induction false} DependencyEntriesSound(deps: seq<Dependency>, context: string)
    ensures forall e :: e in DependencyEntries(deps, context)
              ==> IsPlaceholder(e.placeholder) && e.placeholder in deps && e.tagged == Tagged(e.placeholder, context)
    decreases |deps|
  {
    if deps != [] {
      var init := deps[..|deps| - 1];
      DependencyEntriesSound(init, context);
      assert forall d :: d in init ==> d in deps;
    }
  }

  lemma {:induction false} PointEntriesSound(points: seq<InjectionPoint>, context: string)
    ensures forall e :: e in PointEntries(points, context)
              ==> IsPlaceholder(e.placeholder) && Declares(points, e.placeholder) && e.tagged == Tagged(e.placeholder, context)
    decreases |points|
  {
    if points != [] {
      var init := points[..|points| - 1];
      var last := points[|points| - 1];
      PointEntriesSound(init, context);
      DependencyEntriesSound(last.dependencies, context);
      forall e | e in PointEntries(points, context)
        ensures Declares(points, e.placeholder)
      {
        if e in PointEntries(init, context) {
          var i :| 0 <= i < |init| && e.placeholder in init[i].dependencies;
          assert points[i] == init[i];
        } else {
          assert e in DependencyEntries(last.dependencies, context);
          assert e.placeholder in points[|points| - 1].dependencies;
        }
      }
    }
  }

  lemma {:induction false} DependencyEntriesComplete(deps: seq<Dependency>, context: string, d: Dependency)
    requires d in deps && IsPlaceholder(d)
    ensures Entry(Tagged(d, context), d) in DependencyEntries(deps, context)
    decreases |deps|
  {
    if deps[|deps| - 1] != d {
      var init := deps[..|deps| - 1];
      assert d in init by {
        var k :| 0 <= k < |deps| && deps[k] == d;
        assert init[k] == d;
      }
      DependencyEntriesComplete(init, context, d);
    }
  }

  lemma {:induction false} PointEntriesComplete(points: seq<InjectionPoint>, context: string, d: Dependency)
    requires Declares(points, d) && IsPlaceholder(d)
    ensures Entry(Tagged(d, context), d) in PointEntries(points, context)
    decreases |points|
  {
    var init := points[..|points| - 1];
    var last := points[|points| - 1];
    if d in last.dependencies {
      DependencyEntriesComplete(last.dependencies, context, d);
    } else {
      var i :| 0 <= i < |points| && d in points[i].dependencies;
      assert init[i] == points[i];
      PointEntriesComplete(init, context, d);
    }
  }

  /**
   * The provider's map holds an entry exactly for each `@RobotLeg`
   * dependency declared by an injection point, from the dependency with the
   * same type literal under the context annotation to that placeholder;
   * every other dependency, such as an unannotated one, gets none.
   */
  lemma EntryFor(points: seq<InjectionPoint>, context: string, tagged: Dependency, placeholder: Dependency)
    ensures Entry(tagged, placeholder) in PointEntries(points, context)
            <==> Declares(points, placeholder) && IsPlaceholder(placeholder) && tagged == Tagged(placeholder, context)
  {
    if Declares(points, placeholder) && IsPlaceholder(placeholder) && tagged == Tagged(placeholder, context) {
      PointEntriesComplete(points, context, placeholder);
    } else {
      PointEntriesSound(points, context);
    }
  }

  /**
   * Both the constructor and the instance methods and fields are scanned: a
   * `@RobotLeg` parameter of an injected method is rewritten too.
   */
  lemma MemberDependencyRewritten(c: ImplementationClass, context: string, m: InjectionPoint, d: Dependency)
    requires m in c.membersAndFields && d in m.dependencies && IsPlaceholder(d)
    ensures Entry(Tagged(d, context), d) in PointEntries(InjectionPoints(c), context)
  {
    var points := InjectionPoints(c);
    var k :| 0 <= k < |c.membersAndFields| && c.membersAndFields[k] == m;
    assert points[k + 1] == m;
    EntryFor(points, context, Tagged(d, context), d);
  }

  /** No two entries share a tagged dependency: `ImmutableMap.Builder` would refuse duplicate keys. */
  predicate DistinctKeys(entries: seq<Entry>)
  {
    forall i, j :: 0 <= i < j < |entries| ==> entries[i].tagged != entries[j].tagged
  }

  /** The parent injector: the keys for which `getExistingBinding` returns a binding. */
  datatype Injector = Injector(bindings: set<Key>)

  /** The child injector: its parent, the class it binds, and the linked bindings from placeholder keys to tagged keys. */
  datatype ChildInjector = ChildInjector(parent: Injector, constructed: Key, redirects: map<Key, Key>)

  /** The `ProvisionException` thrown by `setInjector`, carrying the key its message names. */
  datatype ProvisionError = NoBindingFor(key: Key)

  /** The first entry, in map order, whose tagged key the parent cannot supply. */
  function FirstUnbound(parent: Injector, entries: seq<Entry>): Option<Key>
    decreases |entries|
  {
    if entries == [] then None
    else if entries[0].tagged.key !in parent.bindings then Some(entries[0].tagged.key)
    else FirstUnbound(parent, entries[1..])
  }

  /**
   * `FirstUnbound` finds nothing exactly when the parent supplies every
   * tagged key, and otherwise the tagged key of an entry the parent cannot
   * supply, all earlier entries being supplied.
   */
  lemma {:induction false} FirstUnboundIsFirst(parent: Injector, entries: seq<Entry>)
    ensures var r := FirstUnbound(parent, entries);
            && (r.None? <==> forall e :: e in entries ==> e.tagged.key in parent.bindings)
            && (r.Some? ==> exists i :: 0 <= i < |entries| && entries[i].tagged.key == r.value && r.value !in parent.bindings
                                      && forall j :: 0 <= j < i ==> entries[j].tagged.key in parent.bindings)
    decreases |entries|
  {
    if entries != [] && entries[0].tagged.key in parent.bindings {
      var rest := entries[1..];
      FirstUnboundIsFirst(parent, rest);
      var r := FirstUnbound(parent, rest);
      assert forall e :: e in entries ==> e == entries[0] || e in rest;
      if r.Some? {
        var i :| 0 <= i < |rest| && rest[i].tagged.key == r.value && r.value !in parent.bindings
                 && forall j :: 0 <= j < i ==> rest[j].tagged.key in parent.bindings;
        forall j | 0 <= j < i + 1
          ensures entries[j].tagged.key in parent.bindings
        {
          if j > 0 {
            assert entries[j] == rest[j - 1];
          }
        }
        assert entries[i + 1] == rest[i];
      }
    } else if entries != [] {
      assert entries[0] in entries;
    }
  }

  /** The linked bindings the child's module makes: each placeholder key to its tagged key. */
  function Redirects(entries: seq<Entry>): map<Key, Key>
    decreases |entries|
  {
    if entries == [] then map[]
    else Redirects(entries[..|entries| - 1])[entries[|entries| - 1].placeholder.key := entries[|entries| - 1].tagged.key]
  }

  /** The child binds exactly the placeholder keys of the entries. */
  lemma {:induction false} RedirectsDomain(entries: seq<Entry>)
    ensures Redirects(entries).Keys == set e | e in entries :: e.placeholder.key
    decreases |entries|
  {
    if entries != [] {
      var init := entries[..|entries| - 1];
      RedirectsDomain(init);
      assert entries == init + [entries[|entries| - 1]];
    }
  }

  /** Entries whose tagged key has the placeholder's type literal under `context`. */
  ghost predicate TaggedUnder(entries: seq<Entry>, context: string)
  {
    forall e :: e in entries ==> e.tagged.key == Key(e.placeholder.key.typeLiteral, Some(context))
  }

  /** Every redirect of a provider built for `context` leads to the same type literal under `context`. */
  lemma {:induction false} RedirectsToContext(entries: seq<Entry>, context: string)
    requires TaggedUnder(entries, context)
    ensures forall k :: k in Redirects(entries) ==> Redirects(entries)[k] == Key(k.typeLiteral, Some(context))
    decreases |entries|
  {
    if entries != [] {
      var init := entries[..|entries| - 1];
      assert TaggedUnder(init, context) by {
        forall e | e in init
          ensures e in entries
        {
          var k :| 0 <= k < |init| && init[k] == e;
          assert entries[k] == e;
        }
      }
      RedirectsToContext(init, context);
    }
  }

  /** One iteration of the child module's loop over the entries. */
  lemma ConfigureStep(parent: Injector, entries: seq<Entry>, i: nat)
    requires i < |entries|
    ensures Redirects(entries[..i + 1]) == Redirects(entries[..i])[entries[i].placeholder.key := entries[i].tagged.key]
    ensures FirstUnbound(parent, entries[i..])
            == if entries[i].tagged.key in parent.bindings then FirstUnbound(parent, entries[i + 1..]) else Some(entries[i].tagged.key)
  {
    assert entries[..i + 1][..i] == entries[..i];
    assert entries[i..][1..] == entries[i + 1..];
  }

  /** The child injector `setInjector` builds from `parent`, or the exception its module throws. */
  function ConfiguredChild(parent: Injector, clazz: ImplementationClass, entries: seq<Entry>): Result<ChildInjector, ProvisionError>
  {
    match FirstUnbound(parent, entries)
    case Some(k) => Failure(NoBindingFor(k))
    case None => Success(ChildInjector(parent, ClassKey(clazz), Redirects(entries)))
  }

  /**
   * For a provider built for `context`: the child injector is created
   * exactly when the parent binds every `@RobotLeg` type under `context`;
   * otherwise the error names such a tagged key the parent lacks; and the
   * child binds the class plus one redirect per placeholder key, to the same
   * type under `context`, and nothing else.
   */
  lemma ConfiguredChildFor(parent: Injector, clazz: ImplementationClass, context: string)
    ensures var points := InjectionPoints(clazz);
            var child := ConfiguredChild(parent, clazz, PointEntries(points, context));
            && (child.Success? <==> forall d :: Declares(points, d) && IsPlaceholder(d) ==> Key(d.key.typeLiteral, Some(context)) in parent.bindings)
            && (child.Failure? ==> child.error.key !in parent.bindings
                                   && exists d :: Declares(points, d) && IsPlaceholder(d) && child.error.key == Key(d.key.typeLiteral, Some(context)))
            && (child.Success? ==> child.value.constructed == ClassKey(clazz)
                                   && (forall k :: k in child.value.redirects <==> exists d :: Declares(points, d) && IsPlaceholder(d) && k == d.key)
                                   && (forall k :: k in child.value.redirects ==> child.value.redirects[k] == Key(k.typeLiteral, Some(context))))
  {
    var points := InjectionPoints(clazz);
    var entries := PointEntries(points, context);
    var child := ConfiguredChild(parent, clazz, entries);
    FirstUnboundIsFirst(parent, entries);
    PointEntriesSound(points, context);
    RedirectsDomain(entries);
    forall d | Declares(points, d) && IsPlaceholder(d)
      ensures Entry(Tagged(d, context), d) in entries
    {
      EntryFor(points, context, Tagged(d, context), d);
    }
    if child.Success? {
      assert TaggedUnder(entries, context);
      RedirectsToContext(entries, context);
    }
  }

  /** All dependencies of the class, injection point by injection point. */
  function Flattened(points: seq<InjectionPoint>): seq<Dependency>
    decreases |points|
  {
    if points == [] then []
    else Flattened(points[..|points| - 1]) + points[|points| - 1].dependencies
  }

  lemma {:induction false} FlattenedDeclared(points: seq<InjectionPoint>)
    ensures forall d :: d in Flattened(points) ==> Declares(points, d)
    decreases |points|
  {
    if points != [] {
      var init := points[..|points| - 1];
      FlattenedDeclared(init);
      forall d | d in Flattened(points)
        ensures Declares(points, d)
      {
        if d in Flattened(init) {
          var i :| 0 <= i < |init| && d in init[i].dependencies;
          assert points[i] == init[i];
        } else {
          assert d in points[|points| - 1].dependencies;
        }
      }
    }
  }

  /** The key in the parent that supplies `key` inside the child: its redirect target, or the key itself. */
  function Source(child: ChildInjector, key: Key): Key
  {
    if key in child.redirects then child.redirects[key] else key
  }

  /** Where each dependency of the class comes from when the child injector builds it. */
  function Resolved(child: ChildInjector, deps: seq<Dependency>): seq<Key>
  {
    seq(|deps|, i requires 0 <= i < |deps| => Source(child, deps[i].key))
  }

  /** The supplier a dependency should have under `context`: the context-tagged key for a placeholder, its own key otherwise. */
  function Supplier(d: Dependency, context: string): Key
  {
    if IsPlaceholder(d) then Key(d.key.typeLiteral, Some(context)) else d.key
  }

  /**
   * Inside the child injector of a provider built for `context`, every
   * `@RobotLeg` dependency of the class is supplied by the parent's binding
   * of the same type under `context`, and every other dependency by its own
   * key.
   */
  lemma ResolvedUnderContext(parent: Injector, clazz: ImplementationClass, context: string)
    requires ConfiguredChild(parent, clazz, PointEntries(InjectionPoints(clazz), context)).Success?
    ensures var child := ConfiguredChild(parent, clazz, PointEntries(InjectionPoints(clazz), context)).value;
            var deps := Flattened(InjectionPoints(clazz));
            var r := Resolved(child, deps);
            |r| == |deps| && forall i :: 0 <= i < |deps| ==> r[i] == Supplier(deps[i], context)
  {
    var points := InjectionPoints(clazz);
    var child := ConfiguredChild(parent, clazz, PointEntries(points, context)).value;
    var deps := Flattened(points);
    ConfiguredChildFor(parent, clazz, context);
    FlattenedDeclared(points);
    forall i | 0 <= i < |deps|
      ensures Source(child, deps[i].key) == Supplier(deps[i], context)
    {
      var d := deps[i];
      if IsPlaceholder(d) {
        assert d.key in child.redirects;
      }
    }
  }

  /** What `get()` returns: an instance of the class together with the parent key supplying each of its dependencies. */
  datatype Instance = Instance(implementation: string, suppliers: seq<Key>)

  class RobotLegsProvider {
    const clazz: ImplementationClass
    /** The context annotation the provider was built for; the source does not keep it past the constructor. */
    ghost const annotation: string
    /** The map from tagged to placeholder dependencies, in insertion order. */
    const dependencies: seq<Entry>
    var robotLegsInjector: Option<ChildInjector>

    ghost predicate Valid()
      reads this
    {
      && dependencies == PointEntries(InjectionPoints(clazz), annotation)
      && DistinctKeys(dependencies)
      && (robotLegsInjector.Some? ==> ConfiguredChild(robotLegsInjector.value.parent, clazz, dependencies) == Success(robotLegsInjector.value))
    }

    /**
     * Scans the constructor, then the instance methods and fields, and puts
     * an entry in the map for every `@RobotLeg` dependency.
     */
    constructor (clazz: ImplementationClass, annotation: string)
      requires DistinctKeys(PointEntries(InjectionPoints(clazz), annotation))
      ensures Valid()
      ensures this.clazz == clazz && this.annotation == annotation && robotLegsInjector == None
    {
      var points := InjectionPoints(clazz);
      var builder: seq<Entry> := [];
      var i := 0;
      while i < |points|
        invariant 0 <= i <= |points|
        invariant builder == PointEntries(points[..i], annotation)
      {
        var deps := points[i].dependencies;
        var j := 0;
        while j < |deps|
          invariant 0 <= j <= |deps|
          invariant builder == PointEntries(points[..i], annotation) + DependencyEntries(deps[..j], annotation)
        {
          var dependency := deps[j];
          assert deps[..j + 1][..j] == deps[..j];
          if dependency.key.qualifier.Some? && dependency.key.qualifier.value == ROBOT_LEG {
            var annotatedDependency := Dependency(Key(dependency.key.typeLiteral, Some(annotation)), None);
            builder := builder + [Entry(annotatedDependency, dependency)];
          }
          j := j + 1;
        }
        assert deps[..j] == deps;
        assert points[..i + 1][..i] == points[..i];
        i := i + 1;
      }
      assert points[..i] == points;
      this.clazz := clazz;
      this.annotation := annotation;
      this.dependencies := builder;
      robotLegsInjector := None;
    }

    /**
     * Guice's injection of the parent injector: configures the child module,
     * binding the class and, entry by entry, the placeholder key to the
     * tagged key, and throws on the first tagged key the parent cannot
     * supply, in which case no child injector is stored.
     */
    method SetInjector(injector: Injector) returns (error: Option<ProvisionError>)
      requires Valid()
      modifies this
      ensures Valid()
      ensures var child := ConfiguredChild(injector, clazz, dependencies);
              && (child.Success? ==> error == None && robotLegsInjector == Some(child.value))
              && (child.Failure? ==> error == Some(child.error) && robotLegsInjector == old(robotLegsInjector))
    {
      var redirects: map<Key, Key> := map[];
      var i := 0;
      while i < |dependencies|
        invariant 0 <= i <= |dependencies|
        invariant redirects == Redirects(dependencies[..i])
        invariant FirstUnbound(injector, dependencies) == FirstUnbound(injector, dependencies[i..])
        invariant robotLegsInjector == old(robotLegsInjector)
      {
        var entry := dependencies[i];
        ConfigureStep(injector, dependencies, i);
        if entry.tagged.key in injector.bindings {
          var destKey := entry.placeholder.key;
          var srcKey := entry.tagged.key;
          redirects := redirects[destKey := srcKey];
          i := i + 1;
        } else {
          return Some(NoBindingFor(entry.tagged.key));
        }
      }
      assert dependencies[..i] == dependencies;
      assert dependencies[i..] == [];
      robotLegsInjector := Some(ChildInjector(injector, ClassKey(clazz), redirects));
      error := None;
    }

    /**
     * `get()`: the class as the child injector builds it. Its `@RobotLeg`
     * dependencies come from the context annotation's bindings, the others
     * from their own keys.
     */
    function Get(): (r: Instance)
      reads this
      requires Valid() && robotLegsInjector.Some?
      ensures r.implementation == clazz.name
      ensures var deps := Flattened(InjectionPoints(clazz));
              |r.suppliers| == |deps| && forall i :: 0 <= i < |deps| ==> r.suppliers[i] == Supplier(deps[i], annotation)
    {
      ResolvedUnderContext(robotLegsInjector.value.parent, clazz, annotation);
      Instance(clazz.name, Resolved(robotLegsInjector.value, Flattened(InjectionPoints(clazz))))
    }

    /** `getDependencies()`: the map's keys, the tagged dependencies, one per `@RobotLeg` type. */
    function GetDependencies(): (r: set<Dependency>)
      reads this
      requires Valid()
      ensures forall d :: d in r <==> exists p :: Declares(InjectionPoints(clazz), p) && IsPlaceholder(p) && d == Tagged(p, annotation)
    {
      var r := set e | e in dependencies :: e.tagged;
      assert forall d :: d in r <==> exists p :: Declares(InjectionPoints(clazz), p) && IsPlaceholder(p) && d == Tagged(p, annotation) by {
        forall d
          ensures d in r <==> exists p :: Declares(InjectionPoints(clazz), p) && IsPlaceholder(p) && d == Tagged(p, annotation)
        {
          if d in r {
            var e :| e in dependencies && e.tagged == d;
            EntryFor(InjectionPoints(clazz), annotation, e.tagged, e.placeholder);
          }
          if p :| Declares(InjectionPoints(clazz), p) && IsPlaceholder(p) && d == Tagged(p, annotation) {
            EntryFor(InjectionPoints(clazz), annotation, d, p);
          }
        }
      }
      r
    }
  }

  /** A binding made through `binder.bind(clazz).annotatedWith(annotation).toProvider(provider)`. */
  datatype ProviderBinding = ProviderBinding(key: Key, provider: RobotLegsProvider)

  /** The Guice binder of the enclosing module, reduced to the provider bindings it records. */
  class Binder {
    var bindings: seq<ProviderBinding>

    constructor ()
      ensures bindings == []
    {
      bindings := [];
    }

    method BindToProvider(key: Key, provider: RobotLegsProvider)
      modifies this
      ensures bindings == old(bindings) + [ProviderBinding(key, provider)]
    {
      bindings := bindings + [ProviderBinding(key, provider)];
    }
  }

  /** The builder returned to the module; `in` and `asEagerSingleton` forward to Guice's scoped binding builder. */
  class RobotLegsBindingBuilder {
    const delegate: RobotLegsProvider

    constructor (delegate: RobotLegsProvider)
      ensures this.delegate == delegate
    {
      this.delegate := delegate;
    }
  }

  /**
   * The four-argument `bindRobotLegs`: a fresh provider for the
   * implementation class under `annotation`, bound to `clazz` annotated with
   * `annotation`.
   */
  method BindRobotLegsImplementation(binder: Binder, clazz: string, implementation: ImplementationClass, annotation: string)
      returns (builder: RobotLegsBindingBuilder)
    requires DistinctKeys(PointEntries(InjectionPoints(implementation), annotation))
    modifies binder
    ensures fresh(builder) && fresh(builder.delegate)
    ensures builder.delegate.Valid() && builder.delegate.robotLegsInjector == None
    ensures builder.delegate.clazz == implementation && builder.delegate.annotation == annotation
    ensures binder.bindings == old(binder.bindings) + [ProviderBinding(Key(clazz, Some(annotation)), builder.delegate)]
  {
    var provider := new RobotLegsProvider(implementation, annotation);
    binder.BindToProvider(Key(clazz, Some(annotation)), provider);
    builder := new RobotLegsBindingBuilder(provider);
  }

  /** The three-argument `bindRobotLegs`: the bound class is its own implementation. */
  method BindRobotLegs(binder: Binder, clazz: ImplementationClass, annotation: string) returns (builder: RobotLegsBindingBuilder)
    requires DistinctKeys(PointEntries(InjectionPoints(clazz), annotation))
    modifies binder
    ensures fresh(builder) && fresh(builder.delegate)
    ensures builder.delegate.Valid() && builder.delegate.robotLegsInjector == None
    ensures builder.delegate.clazz == clazz && builder.delegate.annotation == annotation
    ensures binder.bindings == old(binder.bindings) + [ProviderBinding(Key(clazz.name, Some(annotation)), builder.delegate)]
  {
    builder := BindRobotLegsImplementation(binder, clazz.name, clazz, annotation);
  }
}
