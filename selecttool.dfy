// SelectTool: the selection tool's press/move/release gesture, the decoding
// of pick records into atoms and bonds, and the rule that turns a click or a
// dragged box into a change of the widget's selection. Picking itself (the
// renderer answering which names lie under a rectangle) is an input.

module SelectTool {
  import opened Primitives
  import opened Wrappers

  /** A position in window coordinates. */
  datatype Point = Point(x: int, y: int)

  function Minus(p: Point, q: Point): Point
  {
    Point(p.x - q.x, p.y - q.y)
  }

  function Abs(n: int): nat
  {
    if n < 0 then -n else n
  }

  function ManhattanLength(p: Point): nat
  {
    Abs(p.x) + Abs(p.y)
  }

  /** A rectangle by its top-left corner, width and height. */
  datatype Rect = Rect(x: int, y: int, w: int, h: int)

  predicate Contains(r: Rect, p: Point)
  {
    r.x <= p.x <= r.x + r.w && r.y <= p.y <= r.y + r.h
  }

  /** A pick record: the type and the name the renderer pushed for a primitive. */
  datatype GLHit = GLHit(hitType: PrimitiveType, name: int)

  /** An atom or a bond of the molecule, by its index. */
  datatype PrimRef = AtomRef(idx: int) | BondRef(idx: int)

  /** The names the renderer pushes: an atom's index, a bond's index plus one. */
  function RenderedHit(p: PrimRef): (h: GLHit)
    ensures h.hitType == AtomType <==> p.AtomRef?
    ensures h.hitType == BondType <==> p.BondRef?
    ensures h.name == if p.BondRef? then p.idx + 1 else p.idx
  {
    match p
    case AtomRef(i) => GLHit(AtomType, i)
    case BondRef(i) => GLHit(BondType, i + 1)
  }

  /** The primitive a pick record names; records of other types name none. */
  function PickedPrimitive(hit: GLHit): (r: Option<PrimRef>)
    ensures r.None? <==> hit.hitType != AtomType && hit.hitType != BondType
    ensures r.Some? ==> RenderedHit(r.value) == hit
    ensures forall p :: RenderedHit(p) == hit ==> r == Some(p)
  {
    if hit.hitType == AtomType then Some(AtomRef(hit.name))
    else if hit.hitType == BondType then Some(BondRef(hit.name - 1))
    else None
  }

  /** The box path's decoding as written: a bond is looked up by the undecremented name. */
  function BoxPickedAsWritten(hit: GLHit): (r: Option<PrimRef>)
    ensures r.None? <==> PickedPrimitive(hit).None?
    ensures hit.hitType == AtomType ==> r == PickedPrimitive(hit)
    ensures hit.hitType == BondType ==> r == Some(BondRef(PickedPrimitive(hit).value.idx + 1))
  {
    if hit.hitType == AtomType then Some(AtomRef(hit.name))
    else if hit.hitType == BondType then Some(BondRef(hit.name))
    else None
  }

  /** As written, a bond caught in a dragged box is taken for the bond after it. */
  lemma BoxBondOffByOne(i: int)
    ensures BoxPickedAsWritten(RenderedHit(BondRef(i))) == Some(BondRef(i + 1))
    ensures PickedPrimitive(RenderedHit(BondRef(i))) == Some(BondRef(i))
  {
  }

  /** The first primitive named in the records, in record order. */
  function FirstPicked(hits: seq<GLHit>): (r: Option<PrimRef>)
    ensures r.None? <==> forall j :: 0 <= j < |hits| ==> PickedPrimitive(hits[j]).None?
    ensures r.Some? ==> exists j :: 0 <= j < |hits| && PickedPrimitive(hits[j]) == r &&
                          forall k :: 0 <= k < j ==> PickedPrimitive(hits[k]).None?
  {
    if hits == [] then None
    else if PickedPrimitive(hits[0]).Some? then PickedPrimitive(hits[0])
    else
      var r := FirstPicked(hits[1..]);
      assert forall j :: 0 < j < |hits| ==> hits[j] == hits[1..][j - 1];
      if r.Some? then
        var j :| 0 <= j < |hits[1..]| && PickedPrimitive(hits[1..][j]) == r &&
                 forall k :: 0 <= k < j ==> PickedPrimitive(hits[1..][k]).None?;
        assert PickedPrimitive(hits[j + 1]) == r;
        r
      else r
  }

  /** Every primitive named in the records, in record order. */
  function BoxPicks(hits: seq<GLHit>): (r: seq<PrimRef>)
    ensures |r| <= |hits|
    ensures forall p :: p in r <==> exists j :: 0 <= j < |hits| && PickedPrimitive(hits[j]) == Some(p)
  {
    if hits == [] then []
    else
      var n := |hits| - 1;
      var front := BoxPicks(hits[..n]);
      assert forall j :: 0 <= j < n ==> hits[..n][j] == hits[j];
      match PickedPrimitive(hits[n])
      case None => front
      case Some(p) => front + [p]
  }

  /** Every primitive named in the records, decoded as the box path is written. */
  function BoxPicksAsWritten(hits: seq<GLHit>): (r: seq<PrimRef>)
    ensures |r| <= |hits|
    ensures forall p :: p in r <==> exists j :: 0 <= j < |hits| && BoxPickedAsWritten(hits[j]) == Some(p)
  {
    if hits == [] then []
    else
      var n := |hits| - 1;
      var front := BoxPicksAsWritten(hits[..n]);
      assert forall j :: 0 <= j < n ==> hits[..n][j] == hits[j];
      match BoxPickedAsWritten(hits[n])
      case None => front
      case Some(p) => front + [p]
  }

  /** The primitive one index further on, for a bond; an atom stays itself. */
  function NextBond(p: PrimRef): PrimRef
  {
    if p.BondRef? then BondRef(p.idx + 1) else p
  }

  /** The records the renderer pushes for a list of primitives. */
  function Rendered(ps: seq<PrimRef>): (hits: seq<GLHit>)
    ensures |hits| == |ps|
  {
    if ps == [] then [] else Rendered(ps[..|ps| - 1]) + [RenderedHit(ps[|ps| - 1])]
  }

  /** Decoding the records of a box gives back exactly the primitives rendered in it. */
  lemma {:induction false} BoxPicksRoundTrip(ps: seq<PrimRef>)
    ensures BoxPicks(Rendered(ps)) == ps
  {
    if ps != [] {
      var n := |ps| - 1;
      var hits := Rendered(ps);
      assert hits[..n] == Rendered(ps[..n]);
      BoxPicksRoundTrip(ps[..n]);
      assert PickedPrimitive(hits[n]) == Some(ps[n]);
      assert ps[..n] + [ps[n]] == ps;
    }
  }

  /** Decoding the records of one more rendered primitive appends that primitive, shifted if a bond. */
  lemma BoxPicksAsWrittenStep(ps: seq<PrimRef>)
    requires ps != []
    ensures BoxPicksAsWritten(Rendered(ps)) == BoxPicksAsWritten(Rendered(ps[..|ps| - 1])) + [NextBond(ps[|ps| - 1])]
  {
    var n := |ps| - 1;
    var hits := Rendered(ps);
    assert hits[..n] == Rendered(ps[..n]);
    assert BoxPickedAsWritten(hits[n]) == Some(NextBond(ps[n]));
  }

  /** As written, the box path gives back every rendered bond as the bond after it, and every atom as itself. */
  lemma {:induction false} BoxPicksAsWrittenShifts(ps: seq<PrimRef>)
    ensures |BoxPicksAsWritten(Rendered(ps))| == |ps|
    ensures forall j :: 0 <= j < |ps| ==> BoxPicksAsWritten(Rendered(ps))[j] == NextBond(ps[j])
  {
    if ps != [] {
      var n := |ps| - 1;
      BoxPicksAsWrittenStep(ps);
      BoxPicksAsWrittenShifts(ps[..n]);
    }
  }

  /**
   * The small square picked around a press: `halfSize` and `size` are the
   * selection box's half size and size, whose values are not part of this model.
   */
  function PressBox(pos: Point, halfSize: int, size: int): (r: Rect)
    ensures r.w == size && r.h == size
    ensures 0 <= halfSize && size == 2 * halfSize ==> Contains(r, pos) && r.x + r.w - pos.x == pos.x - r.x
  {
    Rect(pos.x - halfSize, pos.y - halfSize, size, size)
  }

  /** The rectangle between two drag positions, whichever way the drag went. */
  function NormalizedBox(a: Point, b: Point): (r: Rect)
    ensures r.w >= 0 && r.h >= 0
    ensures Contains(r, a) && Contains(r, b)
    ensures (r.x == a.x || r.x == b.x) && (r.x + r.w == a.x || r.x + r.w == b.x)
    ensures (r.y == a.y || r.y == b.y) && (r.y + r.h == a.y || r.y + r.h == b.y)
  {
    var sx := if a.x <= b.x then a.x else b.x;
    var ex := if a.x <= b.x then b.x else a.x;
    var sy := if a.y <= b.y then a.y else b.y;
    var ey := if a.y <= b.y then b.y else a.y;
    Rect(sx, sy, ex - sx, ey - sy)
  }

  /** The box is the same whichever of the two positions is the anchor. */
  lemma NormalizedBoxSymmetric(a: Point, b: Point)
    ensures NormalizedBox(a, b) == NormalizedBox(b, a)
  {
  }

  /** Toggle each primitive of the list in turn. */
  function Toggled(sel: set<PrimRef>, list: seq<PrimRef>): set<PrimRef>
    decreases |list|
  {
    if list == [] then sel
    else
      var p := list[0];
      Toggled(if p in sel then sel - {p} else sel + {p}, list[1..])
  }

  predicate Distinct(list: seq<PrimRef>)
  {
    forall i, j :: 0 <= i < j < |list| ==> list[i] != list[j]
  }

  /** Toggling a list without repeats flips exactly the primitives on it. */
  lemma {:induction false} ToggledFlips(sel: set<PrimRef>, list: seq<PrimRef>)
    requires Distinct(list)
    ensures forall q :: q in Toggled(sel, list) <==> (q in sel) != (q in list)
    decreases |list|
  {
    if list != [] {
      var p := list[0];
      var next := if p in sel then sel - {p} else sel + {p};
      ToggledFlips(next, list[1..]);
      assert forall q :: q in list <==> q == p || q in list[1..];
    }
  }

  function AtomRefs(atoms: seq<int>): (s: set<PrimRef>)
    ensures forall q :: q in s <==> q.AtomRef? && q.idx in atoms
  {
    set a | a in atoms :: AtomRef(a)
  }

  /** Set every primitive of a group to one state. */
  function SetAll(sel: set<PrimRef>, group: set<PrimRef>, select: bool): set<PrimRef>
  {
    if select then sel + group else sel - group
  }

  /** The atoms of an atom's residue and of its fragment, as the molecule reports them. */
  datatype Topology = Topology(residueAtoms: int -> seq<int>, fragmentAtoms: int -> seq<int>)

  /**
   * The selection after a click that picked `picked`: in residue mode (2)
   * and molecule mode (3) a picked atom's whole residue or fragment is set to
   * the opposite of the atom's own state; in any other mode the pick is toggled.
   */
  function ClickSelection(sel: set<PrimRef>, picked: Option<PrimRef>, mode: int, topology: Topology): (r: set<PrimRef>)
    ensures picked.None? ==> r == sel
    ensures (mode == 2 || mode == 3) && picked.Some? && picked.value.BondRef? ==> r == sel
    ensures mode == 2 && picked.Some? && picked.value.AtomRef? ==>
      var a := picked.value.idx;
      forall q :: q in r <==> if q.AtomRef? && q.idx in topology.residueAtoms(a) then picked.value !in sel else q in sel
    ensures mode == 3 && picked.Some? && picked.value.AtomRef? ==>
      var a := picked.value.idx;
      forall q :: q in r <==> if q.AtomRef? && q.idx in topology.fragmentAtoms(a) then picked.value !in sel else q in sel
    ensures mode != 2 && mode != 3 && picked.Some? ==>
      forall q :: q in r <==> (q in sel) != (q == picked.value)
  {
    match picked
    case None => sel
    case Some(p) =>
      if mode == 2 then
        (if p.AtomRef? then SetAll(sel, AtomRefs(topology.residueAtoms(p.idx)), p !in sel) else sel)
      else if mode == 3 then
        (if p.AtomRef? then SetAll(sel, AtomRefs(topology.fragmentAtoms(p.idx)), p !in sel) else sel)
      else
        ToggledFlips(sel, [p]);
        Toggled(sel, [p])
  }

  /** In residue or molecule mode a click selects the group of an unselected atom and clears that of a selected one. */
  lemma ClickSelectsWholeGroup(sel: set<PrimRef>, a: int, mode: int, topology: Topology)
    requires mode == 2 || mode == 3
    requires a in (if mode == 2 then topology.residueAtoms(a) else topology.fragmentAtoms(a))
    ensures AtomRef(a) in ClickSelection(sel, Some(AtomRef(a)), mode, topology) <==> AtomRef(a) !in sel
  {
  }

  /** The widget's selection, which the tool reads and changes. */
  class GLWidget {
    var selection: set<PrimRef>

    constructor (selection: set<PrimRef>)
      ensures this.selection == selection
    {
      this.selection := selection;
    }

    function IsSelected(p: PrimRef): bool
      reads this
    {
      p in selection
    }

    method ToggleSelected(list: seq<PrimRef>)
      modifies this
      ensures selection == Toggled(old(selection), list)
    {
      selection := Toggled(selection, list);
    }

    method SetSelected(list: seq<PrimRef>, select: bool)
      modifies this
      ensures selection == if select then old(selection) + set p | p in list else old(selection) - set p | p in list
    {
      var group := set p | p in list;
      selection := if select then selection + group else selection - group;
    }
  }

  /** The first pick from record i on is record i's pick, or else the first pick after it. */
  lemma FirstPickedStep(hits: seq<GLHit>, i: nat)
    requires i < |hits|
    ensures FirstPicked(hits[i..]) == if PickedPrimitive(hits[i]).Some? then PickedPrimitive(hits[i]) else FirstPicked(hits[i + 1..])
  {
    assert hits[i..][0] == hits[i] && hits[i..][1..] == hits[i + 1..];
  }

  /** The click path: the first atom or bond named in the records, if any. */
  method ClickHitList(hits: seq<GLHit>) returns (hitList: seq<PrimRef>)
    ensures hitList == if FirstPicked(hits).Some? then [FirstPicked(hits).value] else []
  {
    hitList := [];
    var i := 0;
    while i < |hits|
      invariant 0 <= i <= |hits|
      invariant hitList == []
      invariant FirstPicked(hits) == FirstPicked(hits[i..])
    {
      FirstPickedStep(hits, i);
      var hit := hits[i];
      if hit.hitType == AtomType {
        assert FirstPicked(hits) == Some(AtomRef(hit.name));
        hitList := hitList + [AtomRef(hit.name)];
        break;
      } else if hit.hitType == BondType {
        assert FirstPicked(hits) == Some(BondRef(hit.name - 1));
        hitList := hitList + [BondRef(hit.name - 1)];
        break;
      }
      i := i + 1;
    }
    if hitList == [] {
      assert hits[i..] == [];
    }
  }

  /** The box path: every atom and bond named in the records, in record order. */
  method BoxHitList(hits: seq<GLHit>) returns (hitList: seq<PrimRef>)
    ensures hitList == BoxPicks(hits)
  {
    hitList := [];
    var i := 0;
    while i < |hits|
      invariant 0 <= i <= |hits|
      invariant hitList == BoxPicks(hits[..i])
    {
      assert hits[..i + 1][..i] == hits[..i];
      var hit := hits[i];
      if hit.hitType == AtomType {
        hitList := hitList + [AtomRef(hit.name)];
      }
      if hit.hitType == BondType {
        hitList := hitList + [BondRef(hit.name - 1)];
      }
      i := i + 1;
    }
    assert hits[..i] == hits;
  }

  /** The moved flag after a press at `initial` followed by moves to each of `moves`. */
  function MovedAfter(initial: Point, moves: seq<Point>): bool
  {
    if moves == [] then false
    else MovedAfter(initial, moves[..|moves| - 1]) || ManhattanLength(Minus(moves[|moves| - 1], initial)) > 2
  }

  /** A gesture counts as moved exactly when some move went more than 2 away from the press. */
  lemma {:induction false} MovedAfterFarMove(initial: Point, moves: seq<Point>)
    ensures MovedAfter(initial, moves) <==> exists j :: 0 <= j < |moves| && ManhattanLength(Minus(moves[j], initial)) > 2
  {
    if moves != [] {
      var n := |moves| - 1;
      MovedAfterFarMove(initial, moves[..n]);
      assert forall j :: 0 <= j < n ==> moves[..n][j] == moves[j];
    }
  }

  /**
   * A press at `pos` followed by moves to each of `moves`, in order: the tool's
   * moved flag is the one MovedAfter describes.
   */
  method PressAndDrag(t: SelectRotateTool, pos: Point, pick: Rect -> seq<GLHit>, halfSize: int, size: int, moves: seq<Point>)
    modifies t
    ensures t.initialDraggingPosition == pos && t.hits == pick(PressBox(pos, halfSize, size))
    ensures t.lastDraggingPosition == if moves == [] then pos else moves[|moves| - 1]
    ensures t.movedSinceButtonPressed == MovedAfter(pos, moves)
    ensures t.movedSinceButtonPressed <==> exists j :: 0 <= j < |moves| && ManhattanLength(Minus(moves[j], pos)) > 2
  {
    t.MousePress(pos, pick, halfSize, size);
    ghost var pressHits := t.hits;
    var i := 0;
    while i < |moves|
      invariant 0 <= i <= |moves|
      invariant t.initialDraggingPosition == pos && t.hits == pressHits
      invariant t.lastDraggingPosition == if i == 0 then pos else moves[i - 1]
      invariant t.movedSinceButtonPressed == MovedAfter(pos, moves[..i])
    {
      MovedAfterStep(pos, moves, i);
      t.MouseMove(moves[i]);
      i := i + 1;
    }
    assert moves[..i] == moves;
    assert MovedAfter(pos, moves) <==> exists j :: 0 <= j < |moves| && ManhattanLength(Minus(moves[j], pos)) > 2 by {
      MovedAfterFarMove(pos, moves);
    }
  }

  /** One more move extends the fold by that move's distance test. */
  lemma MovedAfterStep(initial: Point, moves: seq<Point>, i: nat)
    requires i < |moves|
    ensures MovedAfter(initial, moves[..i + 1]) == (MovedAfter(initial, moves[..i]) || ManhattanLength(Minus(moves[i], initial)) > 2)
  {
    assert moves[..i + 1][..i] == moves[..i];
  }

  class SelectRotateTool {
    var movedSinceButtonPressed: bool
    var lastDraggingPosition: Point
    var initialDraggingPosition: Point
    var hits: seq<GLHit>
    var selectionMode: int

    /** The mode and the moved flag are not set by the tool's constructor, so they are inputs here. */
    constructor (selectionMode: int, moved: bool)
      ensures this.selectionMode == selectionMode && movedSinceButtonPressed == moved && hits == []
    {
      this.selectionMode := selectionMode;
      movedSinceButtonPressed := moved;
      lastDraggingPosition := Point(0, 0);
      initialDraggingPosition := Point(0, 0);
      hits := [];
    }

    /** `pick` is what picking reports for a rectangle; the press picks the small box around `pos`. */
    method MousePress(pos: Point, pick: Rect -> seq<GLHit>, halfSize: int, size: int)
      modifies this`movedSinceButtonPressed, this`lastDraggingPosition, this`initialDraggingPosition, this`hits
      ensures !movedSinceButtonPressed
      ensures lastDraggingPosition == pos && initialDraggingPosition == pos
      ensures hits == pick(PressBox(pos, halfSize, size))
    {
      movedSinceButtonPressed := false;
      lastDraggingPosition := pos;
      initialDraggingPosition := pos;
      hits := pick(PressBox(pos, halfSize, size));
    }

    method MouseMove(pos: Point)
      modifies this`movedSinceButtonPressed, this`lastDraggingPosition
      ensures lastDraggingPosition == pos
      ensures movedSinceButtonPressed == (old(movedSinceButtonPressed) || ManhattanLength(Minus(pos, initialDraggingPosition)) > 2)
    {
      lastDraggingPosition := pos;
      if ManhattanLength(Minus(pos, initialDraggingPosition)) > 2 {
        movedSinceButtonPressed := true;
      }
    }

    /**
     * Ends a gesture. `moleculePresent` says whether the widget shows a
     * molecule; `pick` is what picking reports for a rectangle.
     */
    method MouseRelease(widget: GLWidget, moleculePresent: bool, topology: Topology, pick: Rect -> seq<GLHit>)
      modifies widget
      ensures !moleculePresent ==> widget.selection == old(widget.selection)
      ensures moleculePresent && !movedSinceButtonPressed && hits != [] ==>
        widget.selection == ClickSelection(old(widget.selection), FirstPicked(hits), selectionMode, topology)
      ensures moleculePresent && movedSinceButtonPressed && hits == [] ==>
        widget.selection == Toggled(old(widget.selection), BoxPicks(pick(NormalizedBox(initialDraggingPosition, lastDraggingPosition))))
      ensures (movedSinceButtonPressed && hits != []) || (!movedSinceButtonPressed && hits == []) ==>
        widget.selection == old(widget.selection)
    {
      if !moleculePresent {
        return;
      }
      if !movedSinceButtonPressed && |hits| > 0 {
        var hitList := ClickHitList(hits);
        // hitList holds at most one primitive
        if selectionMode == 2 {
          if hitList != [] && hitList[0].AtomRef? {
            var select := !widget.IsSelected(hitList[0]);
            widget.SetSelected(AtomList(topology.residueAtoms(hitList[0].idx)), select);
          }
        } else if selectionMode == 3 {
          if hitList != [] && hitList[0].AtomRef? {
            var select := !widget.IsSelected(hitList[0]);
            widget.SetSelected(AtomList(topology.fragmentAtoms(hitList[0].idx)), select);
          }
        } else {
          widget.ToggleSelected(hitList);
        }
      } else if movedSinceButtonPressed && |hits| == 0 {
        var box := NormalizedBox(initialDraggingPosition, lastDraggingPosition);
        var hitList := BoxHitList(pick(box));
        widget.ToggleSelected(hitList);
      }
    }

    method SetSelectionMode(i: int)
      modifies this`selectionMode
      ensures selectionMode == i
    {
      selectionMode := i;
    }

    function SelectionMode(): (mode: int)
      reads this
      ensures mode == selectionMode
    {
      selectionMode
    }

    /** The mode box lists Atom, Residue, Molecule; entry i is mode i + 1. */
    method SelectionModeChanged(index: int)
      modifies this`selectionMode
      ensures selectionMode == index + 1
    {
      SetSelectionMode(index + 1);
    }
  }

  /** The atoms of a group as the primitives handed to the widget. */
  function AtomList(atoms: seq<int>): (list: seq<PrimRef>)
    ensures |list| == |atoms|
    ensures forall q :: q in list <==> q.AtomRef? && q.idx in atoms
  {
    if atoms == [] then [] else [AtomRef(atoms[0])] + AtomList(atoms[1..])
  }
}
