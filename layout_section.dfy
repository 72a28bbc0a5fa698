/**
 * The component list of the design form (src/components/wordpress/design/LayoutSection.tsx),
 * together with the list the parent form keeps and edits through the section's callbacks
 * (src/components/wordpress/DesignSpecification.tsx).
 *
 * The parent's state is a `ComponentList` object; the callbacks are calls on it.
 */
module LayoutSection {
  import opened JsArray

  /** The parent form's initial components. */
  const DEFAULT_COMPONENTS := ["Hero", "Features", "Testimonials", "Contact"]

  predicate NoDuplicates(s: seq<string>) {
    forall i, j :: 0 <= i < j < |s| ==> s[i] != s[j]
  }

  /** The list holds no name twice and no empty name. */
  predicate WellFormed(s: seq<string>) {
    NoDuplicates(s) && "" !in s
  }

  /** The guard of `handleAddComponent`: a non-empty name not yet listed. */
  predicate Accepts(components: seq<string>, name: string) {
    name != "" && name !in components
  }

  /** The parent's add: appended at the end. */
  function Added(components: seq<string>, name: string): seq<string> {
    components + [name]
  }

  function IsNot(name: string): string -> bool { (c: string) => c != name }

  /** The parent's remove: every entry of that name goes, the others stay in order. */
  function Removed(components: seq<string>, name: string): seq<string> {
    Filter(components, IsNot(name))
  }

  lemma DefaultWellFormed()
    ensures WellFormed(DEFAULT_COMPONENTS)
  {
  }

  /** The guard keeps the list well formed across the parent's append. */
  lemma AddKeepsWellFormed(components: seq<string>, name: string)
    requires WellFormed(components) && Accepts(components, name)
    ensures WellFormed(Added(components, name))
  {
  }

  /** Filtering never introduces a name nor repeats one. */
  lemma {:induction false} FilterKeepsNoDuplicates(s: seq<string>, p: string -> bool)
    requires NoDuplicates(s)
    ensures NoDuplicates(Filter(s, p))
  {
    if s != [] {
      assert NoDuplicates(s[1..]) by {
        forall i, j | 0 <= i < j < |s| - 1 ensures s[1..][i] != s[1..][j] {
          assert s[1..][i] == s[i + 1] && s[1..][j] == s[j + 1];
        }
      }
      FilterKeepsNoDuplicates(s[1..], p);
      if p(s[0]) {
        var rest := Filter(s[1..], p);
        assert s[0] !in s[1..];
        assert s[0] !in rest;
        assert Filter(s, p) == [s[0]] + rest;
        forall i, j | 0 <= i < j < |[s[0]] + rest| ensures ([s[0]] + rest)[i] != ([s[0]] + rest)[j] {
          if i == 0 {
            assert ([s[0]] + rest)[j] == rest[j - 1];
          } else {
            assert ([s[0]] + rest)[i] == rest[i - 1] && ([s[0]] + rest)[j] == rest[j - 1];
          }
        }
      }
    }
  }

  /** Removing leaves no entry of the name, keeps every other one, and keeps the list well formed. */
  lemma RemoveProperties(components: seq<string>, name: string)
    requires WellFormed(components)
    ensures name !in Removed(components, name)
    ensures forall c :: c != name ==> (c in Removed(components, name) <==> c in components)
    ensures WellFormed(Removed(components, name))
  {
    FilterKeepsNoDuplicates(components, IsNot(name));
  }

  /** The parent form's component list. */
  class ComponentList {
    var components: seq<string>

    constructor()
      ensures components == DEFAULT_COMPONENTS && WellFormed(components)
    {
      components := DEFAULT_COMPONENTS;
    }

    /** `onAddComponent`. */
    method OnAddComponent(name: string)
      modifies this
      ensures components == Added(old(components), name)
    {
      components := Added(components, name);
    }

    /** `onRemoveComponent`. */
    method OnRemoveComponent(name: string)
      modifies this
      ensures components == Removed(old(components), name)
    {
      components := Removed(components, name);
    }
  }

  /** The section's own state: the text of the new-component input. */
  class Section {
    var newComponent: string

    constructor()
      ensures newComponent == ""
    {
      newComponent := "";
    }

    /** The input's change handler. */
    method OnInputChange(text: string)
      modifies this
      ensures newComponent == text
    {
      newComponent := text;
    }

    /**
     * `handleAddComponent`: with a non-empty name not yet listed, hands it to the parent
     * once and clears the input; otherwise no callback is made and the input stays.
     */
    method HandleAddComponent(parent: ComponentList)
      modifies this, parent
      ensures Accepts(old(parent.components), old(newComponent)) ==>
        parent.components == Added(old(parent.components), old(newComponent)) && newComponent == ""
      ensures !Accepts(old(parent.components), old(newComponent)) ==>
        parent.components == old(parent.components) && newComponent == old(newComponent)
      ensures WellFormed(old(parent.components)) ==> WellFormed(parent.components)
    {
      if newComponent != "" && newComponent !in parent.components {
        if WellFormed(parent.components) {
          AddKeepsWellFormed(parent.components, newComponent);
        }
        parent.OnAddComponent(newComponent);
        newComponent := "";
      }
    }
  }
}
