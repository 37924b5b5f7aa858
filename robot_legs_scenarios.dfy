/**
 * The robot-legs setup of `TestRobotLegsBindingBuilder.testSimple`: `Bar`
 * takes a `@RobotLeg Foo` and a plain `Baz` in its constructor, and is bound
 * once under `ForA` and once under `ForB`.
 */
module RobotLegsScenarios {
  import opened Wrappers
  import opened RobotLegs

  const FOR_A: string := "org.kitei.guice.robotlegs.ForA"
  const FOR_B: string := "org.kitei.guice.robotlegs.ForB"
  const FOO: string := "org.kitei.guice.robotlegs.Foo"
  const BAZ: string := "org.kitei.guice.robotlegs.Baz"

  /** `Bar`'s constructor parameter `@RobotLeg Foo foo`. */
  const FooParameter: Dependency := Dependency(Key(FOO, Some(ROBOT_LEG)), Some(Site("Bar.<init>", 0)))

  /** `Bar`'s constructor parameter `Baz baz`. */
  const BazParameter: Dependency := Dependency(Key(BAZ, None), Some(Site("Bar.<init>", 1)))

  const Bar: ImplementationClass :=
    ImplementationClass("org.kitei.guice.robotlegs.Bar", InjectionPoint("Bar.<init>", [FooParameter, BazParameter]), [])

  /** The injector of `testSimple`: `Foo` under `ForA` and under `ForB`, and `Baz`. */
  const Parent: Injector := Injector({Key(FOO, Some(FOR_A)), Key(FOO, Some(FOR_B)), Key(BAZ, None)})

  /** `Bar`'s entries under any context: one, for the `Foo` parameter. */
  lemma BarEntries(context: string)
    ensures PointEntries(InjectionPoints(Bar), context) == [Entry(Dependency(Key(FOO, Some(context)), None), FooParameter)]
  {
    var points := InjectionPoints(Bar);
    var deps := [FooParameter, BazParameter];
    assert points == [InjectionPoint("Bar.<init>", deps)];
    assert points[..0] == [];
    assert deps[..1] == [FooParameter];
    assert [FooParameter][..0] == [];
    assert IsPlaceholder(FooParameter) && !IsPlaceholder(BazParameter);
    assert DependencyEntries([FooParameter], context) == [Entry(Tagged(FooParameter, context), FooParameter)];
    assert DependencyEntries(deps, context) == DependencyEntries([FooParameter], context);
  }

  /**
   * Under either context `Bar` gets one entry, for `Foo` only; the child
   * injector is created, and it takes `Foo` from the context's binding and
   * `Baz` from the one binding both contexts share.
   */
  lemma BarUnderEachContext(context: string)
    requires context == FOR_A || context == FOR_B
    ensures var entries := PointEntries(InjectionPoints(Bar), context);
            && entries == [Entry(Dependency(Key(FOO, Some(context)), None), FooParameter)]
            && ConfiguredChild(Parent, Bar, entries).Success?
            && Resolved(ConfiguredChild(Parent, Bar, entries).value, Flattened(InjectionPoints(Bar)))
               == [Key(FOO, Some(context)), Key(BAZ, None)]
  {
    var points := InjectionPoints(Bar);
    var entries := PointEntries(points, context);
    BarEntries(context);
    assert Key(FOO, Some(context)) in Parent.bindings;
    assert entries[1..] == [];
    assert FirstUnbound(Parent, entries) == None;
    assert points[..0] == [];
    var deps := Flattened(points);
    assert deps == [FooParameter, BazParameter];
    ResolvedUnderContext(Parent, Bar, context);
    var r := Resolved(ConfiguredChild(Parent, Bar, entries).value, deps);
    assert r[0] == Supplier(FooParameter, context) == Key(FOO, Some(context));
    assert r[1] == Supplier(BazParameter, context) == Key(BAZ, None);
  }

  /** Without a `Foo` bound under `ForB`, binding `Bar` under `ForB` fails naming that key. */
  lemma MissingContextBinding()
    ensures var parent := Injector({Key(FOO, Some(FOR_A)), Key(BAZ, None)});
            ConfiguredChild(parent, Bar, PointEntries(InjectionPoints(Bar), FOR_B)) == Failure(NoBindingFor(Key(FOO, Some(FOR_B))))
  {
    BarEntries(FOR_B);
  }
}
