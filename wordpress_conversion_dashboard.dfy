/**
 * The conversion dashboard's list of generated components
 * (src/components/wordpress/WordPressConversionDashboard.tsx): a component generated under
 * a name already listed replaces the listed one, a new name is appended.
 */
module WordPressConversionDashboard {
  import opened JsArray
  import opened AdminTypes

  function NameIs(name: string): GeneratedComponent -> bool { (c: GeneratedComponent) => c.name == name }
  function NameIsNot(name: string): GeneratedComponent -> bool { (c: GeneratedComponent) => c.name != name }

  /** `prev.map(c => c.name === component.name ? component : c)`. */
  function ReplaceNamed(prev: seq<GeneratedComponent>, component: GeneratedComponent): (r: seq<GeneratedComponent>)
    ensures |r| == |prev|
    ensures forall i :: 0 <= i < |prev| ==> r[i] == if prev[i].name == component.name then component else prev[i]
  {
    if prev == [] then []
    else [if prev[0].name == component.name then component else prev[0]] + ReplaceNamed(prev[1..], component)
  }

  /** The updater `handleComponentGenerated` hands to the state setter. */
  function Upsert(prev: seq<GeneratedComponent>, component: GeneratedComponent): seq<GeneratedComponent> {
    if Exists(prev, NameIs(component.name)) then ReplaceNamed(prev, component) else prev + [component]
  }

  /** Names are unique in the list. */
  predicate UniqueNames(s: seq<GeneratedComponent>) {
    forall i, j :: 0 <= i < j < |s| ==> s[i].name != s[j].name
  }

  /**
   * A listed name: the length is kept and every entry of that name becomes the component.
   * A new name: the component is appended.
   */
  lemma UpsertShape(prev: seq<GeneratedComponent>, component: GeneratedComponent)
    ensures var r := Upsert(prev, component);
      && ((exists i :: 0 <= i < |prev| && prev[i].name == component.name) ==>
           |r| == |prev| && forall i :: 0 <= i < |prev| && prev[i].name == component.name ==> r[i] == component)
      && ((forall i :: 0 <= i < |prev| ==> prev[i].name != component.name) ==> r == prev + [component])
  {
    if exists i :: 0 <= i < |prev| && prev[i].name == component.name {
      var i :| 0 <= i < |prev| && prev[i].name == component.name;
      assert NameIs(component.name)(prev[i]);
    }
  }

  /** The entries of other names are those of before, in their order. */
  lemma {:induction false} ReplaceNamedKeepsOthers(prev: seq<GeneratedComponent>, component: GeneratedComponent)
    ensures Filter(ReplaceNamed(prev, component), NameIsNot(component.name)) == Filter(prev, NameIsNot(component.name))
  {
    if prev != [] {
      ReplaceNamedKeepsOthers(prev[1..], component);
      var head := if prev[0].name == component.name then component else prev[0];
      assert ReplaceNamed(prev, component) == [head] + ReplaceNamed(prev[1..], component);
      FilterConcat([head], ReplaceNamed(prev[1..], component), NameIsNot(component.name));
      FilterConcat([prev[0]], prev[1..], NameIsNot(component.name));
      assert [prev[0]] + prev[1..] == prev;
    }
  }

  lemma UpsertKeepsOthers(prev: seq<GeneratedComponent>, component: GeneratedComponent)
    ensures Filter(Upsert(prev, component), NameIsNot(component.name)) == Filter(prev, NameIsNot(component.name))
  {
    if Exists(prev, NameIs(component.name)) {
      ReplaceNamedKeepsOthers(prev, component);
    } else {
      FilterConcat(prev, [component], NameIsNot(component.name));
    }
  }

  /** With unique names before, names stay unique, and the component is the one entry of its name. */
  lemma UpsertKeepsNamesUnique(prev: seq<GeneratedComponent>, component: GeneratedComponent)
    requires UniqueNames(prev)
    ensures UniqueNames(Upsert(prev, component))
    ensures var r := Upsert(prev, component);
      exists i :: 0 <= i < |r| && r[i] == component && forall j :: 0 <= j < |r| && j != i ==> r[j].name != component.name
  {
    var r := Upsert(prev, component);
    UpsertShape(prev, component);
    if exists i :: 0 <= i < |prev| && prev[i].name == component.name {
      var i :| 0 <= i < |prev| && prev[i].name == component.name;
      assert r[i] == component;
    } else {
      assert r[|prev|] == component;
    }
  }

  /** Generating the same component twice lists it as generating it once does. */
  lemma UpsertIdempotent(prev: seq<GeneratedComponent>, component: GeneratedComponent)
    ensures Upsert(Upsert(prev, component), component) == Upsert(prev, component)
  {
    var once := Upsert(prev, component);
    UpsertShape(prev, component);
    assert exists i :: 0 <= i < |once| && once[i].name == component.name by {
      if exists i :: 0 <= i < |prev| && prev[i].name == component.name {
        var i :| 0 <= i < |prev| && prev[i].name == component.name;
        assert once[i] == component;
      } else {
        assert once[|prev|] == component;
      }
    }
    var i :| 0 <= i < |once| && once[i].name == component.name;
    assert NameIs(component.name)(once[i]);
    var twice := ReplaceNamed(once, component);
    assert forall k :: 0 <= k < |once| ==> twice[k] == once[k];
  }

  class ConversionDashboard {
    var generatedComponents: seq<GeneratedComponent>

    constructor()
      ensures generatedComponents == []
    {
      generatedComponents := [];
    }

    /** `handleComponentGenerated`. */
    method HandleComponentGenerated(component: GeneratedComponent)
      modifies this
      ensures generatedComponents == Upsert(old(generatedComponents), component)
    {
      generatedComponents := Upsert(generatedComponents, component);
    }
  }
}
