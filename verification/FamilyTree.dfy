/** The family of a monitored root as a tree, and its preorder walk, newest child first. */
module FamilyTree {

  /** The address of a task structure. */
  type Ptr = nat

  datatype Tree = Node(id: Ptr, kids: seq<Tree>)

  function Preorder(t: Tree): (s: seq<Ptr>)
    ensures s != [] && s[0] == t.id
  {
    [t.id] + PreorderAll(t.kids)
  }

  function PreorderAll(ts: seq<Tree>): seq<Ptr> {
    if ts == [] then [] else Preorder(ts[0]) + PreorderAll(ts[1..])
  }

  /** A new child of the node called `parent`, in front of its siblings. */
  function AddChild(t: Tree, parent: Ptr, child: Ptr): (r: Tree)
    ensures r.id == t.id
  {
    if t.id == parent then Node(t.id, [Node(child, [])] + t.kids)
    else Node(t.id, AddChildAll(t.kids, parent, child))
  }

  function AddChildAll(ts: seq<Tree>, parent: Ptr, child: Ptr): (r: seq<Tree>)
    ensures |r| == |ts|
  {
    if ts == [] then [] else [AddChild(ts[0], parent, child)] + AddChildAll(ts[1..], parent, child)
  }

  /** How many children the node called x has. */
  function Degree(t: Tree, x: Ptr): nat {
    (if t.id == x then |t.kids| else 0) + DegreeAll(t.kids, x)
  }

  function DegreeAll(ts: seq<Tree>, x: Ptr): nat {
    if ts == [] then 0 else Degree(ts[0], x) + DegreeAll(ts[1..], x)
  }

  /** list_add behind the first x. */
  function InsertAfter(s: seq<Ptr>, x: Ptr, y: Ptr): (r: seq<Ptr>)
    ensures x !in s ==> r == s
    ensures x in s ==> |r| == |s| + 1
  {
    if s == [] then []
    else if s[0] == x then [x, y] + s[1..]
    else [s[0]] + InsertAfter(s[1..], x, y)
  }

  ghost predicate Distinct(s: seq<Ptr>) {
    forall i, j :: 0 <= i < j < |s| ==> s[i] != s[j]
  }

  lemma DistinctParts(a: seq<Ptr>, b: seq<Ptr>)
    requires Distinct(a + b)
    ensures Distinct(a) && Distinct(b) && forall x :: x in a ==> x !in b
  {
    forall i, j | 0 <= i < j < |b|
      ensures b[i] != b[j]
    {
      assert (a + b)[|a| + i] != (a + b)[|a| + j];
    }
    forall i, j | 0 <= i < |a| && 0 <= j < |b|
      ensures a[i] != b[j]
    {
      assert (a + b)[i] != (a + b)[|a| + j];
    }
    forall i, j | 0 <= i < j < |a|
      ensures a[i] != a[j]
    {
      assert (a + b)[i] != (a + b)[j];
    }
  }

  lemma DistinctJoin(a: seq<Ptr>, b: seq<Ptr>)
    requires Distinct(a) && Distinct(b) && forall x :: x in a ==> x !in b
    ensures Distinct(a + b)
  {
    forall i, j | 0 <= i < j < |a + b|
      ensures (a + b)[i] != (a + b)[j]
    {
      assert i < |a| <= j ==> a[i] in a && b[j - |a|] in b;
    }
  }

  lemma {:induction false} InsertAfterJoin(a: seq<Ptr>, b: seq<Ptr>, x: Ptr, y: Ptr)
    ensures x in a ==> InsertAfter(a + b, x, y) == InsertAfter(a, x, y) + b
    ensures x !in a ==> InsertAfter(a + b, x, y) == a + InsertAfter(b, x, y)
  {
    hide InsertAfter;
    if a == [] {
      assert a + b == b;
      assert a + InsertAfter(b, x, y) == InsertAfter(b, x, y);
    } else {
      InsertAfterJoin(a[1..], b, x, y);
      Unfold(a, x, y);
      Unfold(a + b, x, y);
      assert (a + b)[1..] == a[1..] + b;
      Assoc(if a[0] == x then [x, y] else [a[0]], if a[0] == x then a[1..] else InsertAfter(a[1..], x, y), b);
      Assoc([a[0]], a[1..], InsertAfter(b, x, y));
      assert a == [a[0]] + a[1..];
    }
  }

  lemma Unfold(s: seq<Ptr>, x: Ptr, y: Ptr)
    requires s != []
    ensures InsertAfter(s, x, y) == if s[0] == x then [x, y] + s[1..] else [s[0]] + InsertAfter(s[1..], x, y)
  {
  }

  lemma Assoc(a: seq<Ptr>, b: seq<Ptr>, c: seq<Ptr>)
    ensures (a + b) + c == a + (b + c)
  {
  }

  /** Adding a newest child puts it right behind its parent in the preorder walk. */
  lemma {:induction false} PreorderAddChild(t: Tree, parent: Ptr, child: Ptr)
    requires Distinct(Preorder(t))
    ensures Preorder(AddChild(t, parent, child)) == InsertAfter(Preorder(t), parent, child)
    decreases t, 1
  {
    DistinctParts([t.id], PreorderAll(t.kids));
    var r := AddChild(t, parent, child);
    if t.id == parent {
      var kids := [Node(child, [])] + t.kids;
      assert kids[1..] == t.kids;
      assert PreorderAll(kids) == [child] + PreorderAll(t.kids) by {
        assert Preorder(kids[0]) == [child] by { assert PreorderAll([]) == []; }
      }
      assert Preorder(t)[1..] == PreorderAll(t.kids);
      assert [t.id] + ([child] + PreorderAll(t.kids)) == [t.id, child] + PreorderAll(t.kids);
    } else {
      PreorderAddChildAll(t.kids, parent, child);
      InsertAfterJoin([t.id], PreorderAll(t.kids), parent, child);
    }
  }

  lemma {:induction false} PreorderAddChildAll(ts: seq<Tree>, parent: Ptr, child: Ptr)
    requires Distinct(PreorderAll(ts))
    ensures PreorderAll(AddChildAll(ts, parent, child)) == InsertAfter(PreorderAll(ts), parent, child)
    decreases ts, 0
  {
    if ts != [] {
      var a, b := Preorder(ts[0]), PreorderAll(ts[1..]);
      DistinctParts(a, b);
      PreorderAddChild(ts[0], parent, child);
      PreorderAddChildAll(ts[1..], parent, child);
      InsertAfterJoin(a, b, parent, child);
      var r := AddChildAll(ts, parent, child);
      assert r[1..] == AddChildAll(ts[1..], parent, child);
    }
  }

  /** Only the parent's number of children changes, by one; the child starts without. */
  lemma {:induction false} DegreeAddChild(t: Tree, parent: Ptr, child: Ptr, x: Ptr)
    requires Distinct(Preorder(t)) && child !in Preorder(t)
    ensures Degree(AddChild(t, parent, child), x) ==
      Degree(t, x) + if x == parent && parent in Preorder(t) then 1 else 0
    ensures x !in Preorder(t) ==> Degree(t, x) == 0
    decreases t, 1
  {
    DistinctParts([t.id], PreorderAll(t.kids));
    DegreeAddChildAll(t.kids, parent, child, x);
    if t.id == parent {
      var kids := [Node(child, [])] + t.kids;
      assert kids[1..] == t.kids;
      assert Degree(Node(child, []), x) == 0 by { assert DegreeAll([], x) == 0; }
      assert DegreeAll(kids, x) == Degree(kids[0], x) + DegreeAll(kids[1..], x);
    }
  }

  lemma {:induction false} DegreeAddChildAll(ts: seq<Tree>, parent: Ptr, child: Ptr, x: Ptr)
    requires Distinct(PreorderAll(ts)) && child !in PreorderAll(ts)
    ensures DegreeAll(AddChildAll(ts, parent, child), x) ==
      DegreeAll(ts, x) + if x == parent && parent in PreorderAll(ts) then 1 else 0
    ensures x !in PreorderAll(ts) ==> DegreeAll(ts, x) == 0
    decreases ts, 0
  {
    if ts != [] {
      DistinctParts(Preorder(ts[0]), PreorderAll(ts[1..]));
      DegreeAddChild(ts[0], parent, child, x);
      DegreeAddChildAll(ts[1..], parent, child, x);
      assert AddChildAll(ts, parent, child)[1..] == AddChildAll(ts[1..], parent, child);
    }
  }

  lemma {:induction false} InsertAfterDistinct(s: seq<Ptr>, x: Ptr, y: Ptr)
    requires Distinct(s) && x in s && y !in s
    ensures Distinct(InsertAfter(s, x, y))
    ensures forall z :: z in InsertAfter(s, x, y) <==> z in s || z == y
    ensures exists i :: 0 <= i < |s| && s[i] == x && InsertAfter(s, x, y) == s[..i + 1] + [y] + s[i + 1..]
  {
    var i := Split(s, x, y);
    assert s[..i + 1] + s[i + 1..] == s;
  }

  lemma {:induction false} Split(s: seq<Ptr>, x: Ptr, y: Ptr) returns (i: nat)
    requires x in s
    ensures i < |s| && s[i] == x && InsertAfter(s, x, y) == s[..i + 1] + [y] + s[i + 1..]
  {
    if s[0] == x {
      i := 0;
      assert [x, y] + s[1..] == s[..1] + [y] + s[1..];
    } else {
      i := Split(s[1..], x, y);
      assert [s[0]] + (s[1..][..i + 1] + [y] + s[1..][i + 1..]) == s[..i + 2] + [y] + s[i + 2..];
      i := i + 1;
    }
  }
}
