// Primitives: the selection flag of a molecular primitive and the
// PrimitiveQueue, a table holding one list of primitives per primitive type.

module Primitives {

  /** The kinds of primitive the core distinguishes, in enumeration order. */
  datatype PrimitiveType = MoleculeType | AtomType | BondType | ResidueType | OtherType

  /** First and one-past-last position of the enumeration. */
  const FirstType: nat := 0
  const LastType: nat := 5

  /** Position of a type in the enumeration; the queue is indexed by it. */
  function Ordinal(t: PrimitiveType): (i: nat)
    ensures FirstType <= i < LastType
  {
    match t
    case MoleculeType => 0
    case AtomType => 1
    case BondType => 2
    case ResidueType => 3
    case OtherType => 4
  }

  /** A primitive: a type fixed at construction and a selection flag. */
  class Primitive {
    const primitiveType: PrimitiveType
    var selected: bool

    /** The default constructor: an unselected primitive of type OtherType. */
    constructor ()
      ensures primitiveType == OtherType && !selected
    {
      primitiveType := OtherType;
      selected := false;
    }

    /** The typed constructor: an unselected primitive of the given type. */
    constructor OfType(t: PrimitiveType)
      ensures primitiveType == t && !selected
    {
      primitiveType := t;
      selected := false;
    }

    function IsSelected(): (r: bool)
      reads this
      ensures r == selected
    {
      selected
    }

    method SetSelected(s: bool)
      modifies this
      ensures IsSelected() == s
    {
      selected := s;
    }

    method ToggleSelected()
      modifies this
      ensures IsSelected() == !old(IsSelected())
    {
      selected := !selected;
    }
  }

  /** Toggling twice gives back the original flag. */
  method ToggleTwiceRestores(p: Primitive)
    modifies p
    ensures p.IsSelected() == old(p.IsSelected())
  {
    p.ToggleSelected();
    p.ToggleSelected();
  }

  /** Total number of entries over all lists, accumulated from the last list. */
  function TotalSize<T>(lists: seq<seq<T>>): nat
  {
    if lists == [] then 0 else TotalSize(lists[..|lists| - 1]) + |lists[|lists| - 1]|
  }

  /** A list with every occurrence of x removed, the rest in order. */
  function RemoveAll<T(==)>(s: seq<T>, x: T): (r: seq<T>)
    ensures multiset(r) == multiset(s)[x := 0]
    ensures |r| == |s| - multiset(s)[x]
    ensures x !in r
    ensures forall y :: y in r ==> y in s
  {
    if s == [] then []
    else
      assert s == [s[0]] + s[1..];
      var rest := RemoveAll(s[1..], x);
      if s[0] == x then rest else [s[0]] + rest
  }

  lemma {:induction false} TotalSizeUpdate<T>(lists: seq<seq<T>>, i: nat, l: seq<T>)
    requires i < |lists|
    ensures TotalSize(lists[i := l]) == TotalSize(lists) - |lists[i]| + |l|
    decreases |lists|
  {
    var n := |lists| - 1;
    var updated := lists[i := l];
    if i < n {
      assert updated[..n] == lists[..n][i := l];
      TotalSizeUpdate(lists[..n], i, l);
    } else {
      assert updated[..n] == lists[..n];
    }
  }

  lemma {:induction false} TotalSizePrefix<T>(lists: seq<seq<T>>, i: nat)
    requires i < |lists|
    ensures TotalSize(lists[..i + 1]) == TotalSize(lists[..i]) + |lists[i]|
  {
    assert lists[..i + 1][..i] == lists[..i];
  }

  /** A table of empty lists holds nothing. */
  lemma {:induction false} TotalSizeOfEmptyLists<T>(lists: seq<seq<T>>)
    requires forall i :: 0 <= i < |lists| ==> lists[i] == []
    ensures TotalSize(lists) == 0
    decreases |lists|
  {
    if lists != [] {
      TotalSizeOfEmptyLists(lists[..|lists| - 1]);
    }
  }

  /** No list is longer than the whole table's size. */
  lemma {:induction false} TotalSizeCountsEveryList<T>(lists: seq<seq<T>>, i: nat)
    requires i < |lists|
    ensures |lists[i]| <= TotalSize(lists)
  {
    TotalSizeUpdate(lists, i, []);
  }

  /** The per-type table: list i holds primitives of the type with ordinal i. */
  class PrimitiveQueue {
    var queue: seq<seq<Primitive>>

    ghost predicate Valid()
      reads this
    {
      |queue| == LastType &&
      forall i, p :: 0 <= i < |queue| && p in queue[i] ==> Ordinal(p.primitiveType) == i
    }

    /** One empty list for every type from FirstType up to LastType. */
    constructor ()
      ensures Valid()
      ensures queue == seq(LastType, _ => [])
      ensures TotalSize(queue) == 0
    {
      var lists: seq<seq<Primitive>> := [];
      var t := FirstType;
      while t < LastType
        invariant FirstType <= t <= LastType
        invariant lists == seq(t - FirstType, _ => [])
      {
        lists := lists + [[]];
        t := t + 1;
      }
      TotalSizeOfEmptyLists(lists);
      queue := lists;
    }

    /** The list for type t: every primitive in it has type t. */
    function PrimitiveList(t: PrimitiveType): (l: seq<Primitive>)
      reads this
      requires Valid()
      ensures forall p :: p in l ==> p.primitiveType == t
    {
      var l := queue[Ordinal(t)];
      assert forall p :: p in l ==> Ordinal(p.primitiveType) == Ordinal(t);
      l
    }

    method AddPrimitive(p: Primitive)
      requires Valid()
      modifies this
      ensures Valid()
      ensures queue == old(queue)[Ordinal(p.primitiveType) := old(queue)[Ordinal(p.primitiveType)] + [p]]
      ensures TotalSize(queue) == old(TotalSize(queue)) + 1
    {
      var i := Ordinal(p.primitiveType);
      TotalSizeUpdate(queue, i, queue[i] + [p]);
      queue := queue[i := queue[i] + [p]];
    }

    method RemovePrimitive(p: Primitive)
      requires Valid()
      modifies this
      ensures Valid()
      ensures queue == old(queue)[Ordinal(p.primitiveType) := RemoveAll(old(queue)[Ordinal(p.primitiveType)], p)]
      ensures forall i :: 0 <= i < |queue| ==> p !in queue[i]
      ensures TotalSize(queue) == old(TotalSize(queue)) - multiset(old(queue)[Ordinal(p.primitiveType)])[p]
    {
      var i := Ordinal(p.primitiveType);
      TotalSizeUpdate(queue, i, RemoveAll(queue[i], p));
      queue := queue[i := RemoveAll(queue[i], p)];
    }

    /** The number of primitives held, summed over the lists. */
    method Size() returns (sum: int)
      requires Valid()
      ensures sum == TotalSize(queue)
    {
      sum := 0;
      var i := 0;
      while i < |queue|
        invariant 0 <= i <= |queue|
        invariant sum == TotalSize(queue[..i])
      {
        TotalSizePrefix(queue, i);
        sum := sum + |queue[i]|;
        i := i + 1;
      }
      assert queue[..i] == queue;
    }

    method Clear()
      requires Valid()
      modifies this
      ensures Valid()
      ensures queue == seq(|old(queue)|, _ => [])
      ensures TotalSize(queue) == 0
    {
      var i := 0;
      while i < |queue|
        invariant 0 <= i <= |queue| == |old(queue)|
        invariant forall k :: 0 <= k < i ==> queue[k] == []
        invariant forall k :: i <= k < |queue| ==> queue[k] == old(queue)[k]
      {
        queue := queue[i := []];
        i := i + 1;
      }
      TotalSizeOfEmptyLists(queue);
    }
  }

  /** Clearing twice is the same as clearing once. */
  method ClearIsIdempotent(q: PrimitiveQueue)
    requires q.Valid()
    modifies q
    ensures q.Valid() && q.queue == seq(LastType, _ => []) && TotalSize(q.queue) == 0
  {
    q.Clear();
    var once := q.queue;
    q.Clear();
    assert q.queue == once;
  }
}
