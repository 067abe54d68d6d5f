/**
 * An entity: a numeric id and a list of components of any type, appended to
 * and queried by type. The query keeps the components of the asked type in the
 * order they were added. The open set of Rust types a component can have is
 * modelled as a closed set of kinds; a downcast succeeds exactly when the kinds
 * agree.
 */
module Entity {
  /** The component types the game defines. */
  datatype Kind = ModelKind | TransformKind

  /** A boxed component: its type and an opaque handle to its value. */
  datatype Component = Component(kind: Kind, value: nat)

  /** The components of `s` of type `kind`, in the order of `s`. */
  function OfKind(s: seq<Component>, kind: Kind): (r: seq<Component>)
    ensures |r| <= |s|
    ensures forall i :: 0 <= i < |r| ==> r[i].kind == kind && r[i] in s
    ensures forall c :: c in s && c.kind == kind ==> c in r
  {
    if |s| == 0 then []
    else
      var rest := OfKind(s[..|s| - 1], kind);
      assert forall c :: c in s ==> c in s[..|s| - 1] || c == s[|s| - 1];
      if s[|s| - 1].kind == kind then rest + [s[|s| - 1]] else rest
  }

  /** The query distributes over concatenation: what comes first in the list comes first in the result. */
  lemma {:induction false} OfKindConcat(a: seq<Component>, b: seq<Component>, kind: Kind)
    ensures OfKind(a + b, kind) == OfKind(a, kind) + OfKind(b, kind)
    decreases |b|
  {
    if |b| == 0 {
      assert a + b == a;
    } else {
      assert (a + b)[..|a + b| - 1] == a + b[..|b| - 1];
      OfKindConcat(a, b[..|b| - 1], kind);
    }
  }

  /** Adding a component of another type does not change the result for `kind`. */
  lemma AppendOtherKind(s: seq<Component>, c: Component, kind: Kind)
    requires c.kind != kind
    ensures OfKind(s + [c], kind) == OfKind(s, kind)
  {
    assert (s + [c])[..|s|] == s;
  }

  /** Adding a component of the asked type puts it at the end of the result. */
  lemma AppendSameKind(s: seq<Component>, c: Component)
    ensures OfKind(s + [c], c.kind) == OfKind(s, c.kind) + [c]
  {
    assert (s + [c])[..|s|] == s;
  }

  /** Querying the result of a query again changes nothing. */
  lemma {:induction false} OfKindIdempotent(s: seq<Component>, kind: Kind)
    ensures OfKind(OfKind(s, kind), kind) == OfKind(s, kind)
  {
    if |s| > 0 {
      var rest := OfKind(s[..|s| - 1], kind);
      OfKindIdempotent(s[..|s| - 1], kind);
      if s[|s| - 1].kind == kind {
        AppendSameKind(rest, s[|s| - 1]);
      }
    }
  }

  /** The positions in `s` holding a component of type `kind`, in increasing order. */
  function SlotsOf(s: seq<Component>, kind: Kind): (r: seq<nat>)
    ensures forall j :: 0 <= j < |r| ==> r[j] < |s|
  {
    if |s| == 0 then []
    else SlotsOf(s[..|s| - 1], kind) + (if s[|s| - 1].kind == kind then [|s| - 1] else [])
  }

  /** The positions hold exactly what the query returns, one for one and in order. */
  lemma {:induction false} SlotsOfMatch(s: seq<Component>, kind: Kind)
    ensures |SlotsOf(s, kind)| == |OfKind(s, kind)|
    ensures forall j :: 0 <= j < |SlotsOf(s, kind)| ==> s[SlotsOf(s, kind)[j]] == OfKind(s, kind)[j]
  {
    if |s| > 0 {
      var prefix := s[..|s| - 1];
      SlotsOfMatch(prefix, kind);
      forall j | 0 <= j < |SlotsOf(prefix, kind)|
        ensures s[SlotsOf(prefix, kind)[j]] == prefix[SlotsOf(prefix, kind)[j]]
      {
      }
    }
  }

  /** The positions are strictly increasing. */
  lemma {:induction false} SlotsOfIncreasing(s: seq<Component>, kind: Kind)
    ensures forall j, k :: 0 <= j < k < |SlotsOf(s, kind)| ==> SlotsOf(s, kind)[j] < SlotsOf(s, kind)[k]
  {
    if |s| > 0 {
      SlotsOfIncreasing(s[..|s| - 1], kind);
    }
  }

  /** A position is selected exactly when its component has the asked type. */
  lemma {:induction false} SlotsOfComplete(s: seq<Component>, kind: Kind, p: nat)
    requires p < |s|
    ensures p in SlotsOf(s, kind) <==> s[p].kind == kind
  {
    var prefix := s[..|s| - 1];
    if p < |s| - 1 {
      SlotsOfComplete(prefix, kind, p);
      assert s[p] == prefix[p];
    }
  }

  class Entity {
    const uuid: nat
    var components: seq<Component>

    /** An entity with the given id and no components. */
    constructor (uuid: nat)
      ensures this.uuid == uuid && components == []
    {
      this.uuid := uuid;
      components := [];
    }

    /** Appends one component; the earlier ones stay where they were. */
    method AddComponent(component: Component)
      modifies this
      ensures components == old(components) + [component]
    {
      components := components + [component];
    }

    /** The components of type `kind`, in insertion order. */
    method GetComponents(kind: Kind) returns (result: seq<Component>)
      ensures result == OfKind(components, kind)
    {
      result := [];
      var i := 0;
      while i < |components|
        invariant 0 <= i <= |components|
        invariant result == OfKind(components[..i], kind)
      {
        assert components[..i + 1][..i] == components[..i];
        if components[i].kind == kind {
          result := result + [components[i]];
        }
        i := i + 1;
      }
      assert components[..i] == components;
    }

    /**
     * The mutable query: the positions of the components of type `kind`, and
     * they hold, in order, exactly what `GetComponents` returns.
     */
    method GetComponentsMut(kind: Kind) returns (slots: seq<nat>)
      ensures slots == SlotsOf(components, kind)
      ensures |slots| == |OfKind(components, kind)|
      ensures forall j :: 0 <= j < |slots| ==> components[slots[j]] == OfKind(components, kind)[j]
    {
      var list := components;
      slots := [];
      var i: nat := 0;
      while i < |list|
        invariant i <= |list|
        invariant slots == SlotsOf(list[..i], kind)
      {
        assert list[..i + 1][..i] == list[..i];
        if list[i].kind == kind {
          slots := slots + [i];
        }
        i := i + 1;
      }
      assert list[..i] == list;
      SlotsOfMatch(list, kind);
    }
  }

  /** Adding a transform never changes what a model query returns. */
  method AddTransformKeepsModels(entity: Entity, transform: Component) returns (before: seq<Component>, after: seq<Component>)
    requires transform.kind == TransformKind
    modifies entity
    ensures before == after
  {
    before := entity.GetComponents(ModelKind);
    entity.AddComponent(transform);
    after := entity.GetComponents(ModelKind);
    AppendOtherKind(old(entity.components), transform, ModelKind);
  }
}
