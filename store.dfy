/**
  MetaverseCompetition/Utilities/Store.swift: `Store<State>` is a Combine
  `CurrentValueSubject`. The model keeps its current `value` and, as a ghost log,
  every value it has published (the one it was created with first), which is
  what a subscriber attached at creation receives.
*/
module StateStore {

  /** A writable key path: how to read one field of an `S` and how to write it. */
  datatype KeyPath<!S, !T> = KeyPath(get: S -> T, put: (S, T) -> S)

  /** The laws every stored-property key path obeys. */
  ghost predicate Lawful<S(!new), T(!new)>(k: KeyPath<S, T>) {
    && (forall s, v :: k.get(k.put(s, v)) == v)
    && (forall s :: k.put(s, k.get(s)) == s)
    && (forall s, v, w :: k.put(k.put(s, v), w) == k.put(s, w))
  }

  /** Writing through `k` never changes what `j` reads. */
  ghost predicate Independent<S(!new), T(!new), U>(j: KeyPath<S, U>, k: KeyPath<S, T>) {
    forall s, v :: j.get(k.put(s, v)) == j.get(s)
  }

  /** `map(keyPath)`: the field as seen in each published value. */
  function Project<S, T>(k: KeyPath<S, T>, states: seq<S>): (r: seq<T>)
    ensures |r| == |states|
    ensures forall i :: 0 <= i < |r| ==> r[i] == k.get(states[i])
  {
    if |states| == 0 then [] else [k.get(states[0])] + Project(k, states[1..])
  }

  /** Combine's `removeDuplicates()`: an element equal to the one before it is dropped. */
  function RemoveDuplicates<T(==)>(xs: seq<T>): (r: seq<T>)
    ensures |xs| > 0 ==> |r| > 0 && r[0] == xs[0] && r[|r| - 1] == xs[|xs| - 1]
    ensures |r| <= |xs|
  {
    if |xs| <= 1 then xs
    else if xs[0] == xs[1] then RemoveDuplicates(xs[1..])
    else [xs[0]] + RemoveDuplicates(xs[1..])
  }

  predicate NoAdjacentDuplicates<T(==)>(xs: seq<T>) {
    forall i :: 0 <= i < |xs| - 1 ==> xs[i] != xs[i + 1]
  }

  /** `a` can be obtained from `b` by deleting elements. */
  predicate IsSubsequence<T(==)>(a: seq<T>, b: seq<T>) {
    if |a| == 0 then true
    else if |b| == 0 then false
    else if a[0] == b[0] then IsSubsequence(a[1..], b[1..])
    else IsSubsequence(a, b[1..])
  }

  lemma {:induction false} RemoveDuplicatesHasNoAdjacentDuplicates<T>(xs: seq<T>)
    ensures NoAdjacentDuplicates(RemoveDuplicates(xs))
  {
    if |xs| > 1 {
      RemoveDuplicatesHasNoAdjacentDuplicates(xs[1..]);
    }
  }

  lemma {:induction false} RemoveDuplicatesIsSubsequence<T>(xs: seq<T>)
    ensures IsSubsequence(RemoveDuplicates(xs), xs)
  {
    if |xs| > 1 {
      RemoveDuplicatesIsSubsequence(xs[1..]);
      if xs[0] == xs[1] {
        SubsequenceOfTail(RemoveDuplicates(xs[1..]), xs);
      }
    }
  }

  lemma {:induction false} SubsequenceOfTail<T>(a: seq<T>, b: seq<T>)
    requires |b| > 0 && IsSubsequence(a, b[1..])
    ensures IsSubsequence(a, b)
    decreases |b|, 0
  {
    if |a| > 0 && a[0] == b[0] {
      SubsequenceWithoutHead(a, b[1..]);
    }
  }

  lemma {:induction false} SubsequenceWithoutHead<T>(a: seq<T>, c: seq<T>)
    requires |a| > 0 && IsSubsequence(a, c)
    ensures IsSubsequence(a[1..], c)
    decreases |c|, 1
  {
    if a[0] == c[0] {
      SubsequenceOfTail(a[1..], c);
    } else {
      SubsequenceWithoutHead(a, c[1..]);
      SubsequenceOfTail(a[1..], c);
    }
  }

  /** Every value that occurred is still seen: removing duplicates loses no value. */
  lemma {:induction false} RemoveDuplicatesKeepsValues<T>(xs: seq<T>, x: T)
    ensures x in RemoveDuplicates(xs) <==> x in xs
  {
    if |xs| > 1 {
      RemoveDuplicatesKeepsValues(xs[1..], x);
      assert xs == [xs[0]] + xs[1..];
    }
  }

  /** A sequence already free of adjacent duplicates passes through unchanged. */
  lemma {:induction false} RemoveDuplicatesOfDistinctNeighbours<T>(xs: seq<T>)
    requires NoAdjacentDuplicates(xs)
    ensures RemoveDuplicates(xs) == xs
  {
    if |xs| > 1 {
      RemoveDuplicatesOfDistinctNeighbours(xs[1..]);
    }
  }

  class Store<S(!new)> {
    var value: S
    /** Every value published so far, oldest first. */
    ghost var log: seq<S>

    ghost predicate Valid()
      reads this
    {
      |log| > 0 && log[|log| - 1] == value
    }

    constructor (initial: S)
      ensures Valid() && value == initial && log == [initial]
    {
      value := initial;
      log := [initial];
    }

    /** The subscript getter. */
    function Read<T>(k: KeyPath<S, T>): T
      reads this
    {
      k.get(value)
    }

    /** The subscript setter: writes, and so publishes, only a value that differs. */
    method Set<T(==,!new)>(k: KeyPath<S, T>, newValue: T)
      requires Valid()
      modifies this
      ensures Valid()
      ensures old(Read(k)) == newValue ==> value == old(value) && log == old(log)
      ensures old(Read(k)) != newValue ==> value == k.put(old(value), newValue) && log == old(log) + [value]
      ensures Lawful(k) ==> Read(k) == newValue
    {
      var v := value;
      if k.get(v) != newValue {
        v := k.put(v, newValue);
        value := v;
        log := log + [v];
      }
    }

    /** Assigning `value` directly: the subject always publishes it. */
    method Send(newValue: S)
      requires Valid()
      modifies this
      ensures Valid()
      ensures value == newValue && log == old(log) + [newValue]
    {
      value := newValue;
      log := log + [newValue];
    }

    /** `bulkUpdate`: applies the update once and publishes, even when nothing changed. */
    method BulkUpdate(update: S -> S)
      requires Valid()
      modifies this
      ensures Valid()
      ensures value == update(old(value)) && log == old(log) + [value]
    {
      var v := value;
      v := update(v);
      value := v;
      log := log + [v];
    }

    /** `updates(for:)`: what a subscriber attached at creation has received for one field. */
    ghost function Updates<T>(k: KeyPath<S, T>): (r: seq<T>)
      reads this
      requires Valid()
      ensures |r| > 0 && r[|r| - 1] == Read(k)
      ensures NoAdjacentDuplicates(r)
      ensures IsSubsequence(r, Project(k, log))
    {
      RemoveDuplicatesHasNoAdjacentDuplicates(Project(k, log));
      RemoveDuplicatesIsSubsequence(Project(k, log));
      RemoveDuplicates(Project(k, log))
    }
  }

  /**
    A SwiftUI `Binding` after `onSet(perform)`: `writes` counts the writes that
    reach the underlying storage, `performed` the values handed to `perform`.
  */
  class Binding<V(==)> {
    var wrappedValue: V
    ghost var writes: nat
    ghost var performed: seq<V>

    constructor (initial: V)
      ensures wrappedValue == initial && writes == 0 && performed == []
    {
      wrappedValue := initial;
      writes := 0;
      performed := [];
    }

    method OnSet(v: V)
      modifies this
      ensures wrappedValue == v
      ensures writes == old(writes) + (if old(wrappedValue) != v then 1 else 0)
      ensures performed == old(performed) + [v]
    {
      if wrappedValue != v {
        wrappedValue := v;
        writes := writes + 1;
      }
      performed := performed + [v];
    }
  }
}
