/** driver/sched.c and driver/task.c: which tasks are monitored, on which list, in which
    family, and who holds the environment and the ring buffer. Kernel memory is a map from
    addresses to structures, so that kfree is visible: reading a freed structure would be
    reading outside the map. */
module Sched {
  import opened Wrappers
  import opened FamilyTree
  import opened Environment

  type Proc = nat
  type Cpu = nat

  /** struct smon_task; next and prev are its `children` list head. */
  datatype Task = Task(
    pid: nat, p: Option<Proc>, envir: Ptr, rb: Option<Ptr>,
    next: Ptr, prev: Ptr, nChildren: nat,
    extra: Option<Ptr>)   // for roots: task->extra->rb

  /** What the hooks hand to the ring buffer. */
  datatype Msg =
    | InfoMsg
    | PmcMsg(pid: nat)
    | ForkMsg(parent: nat, child: nat)
    | CpuMsg(pid: nat, oldCpu: Cpu, newCpu: Cpu)
    | EofMsg

  /** The writers' side of a ring buffer: reference count and everything written. */
  datatype Rb = Rb(active: nat, log: seq<Msg>)

  /** A registered root: its descendants, environment and ring buffer. */
  datatype Family = Family(tree: Tree, env: Ptr, ring: Ptr)

  type Tasks = map<Ptr, Task>

  // ---- the children rings ----

  ghost predicate Linked(tasks: Tasks, a: Ptr, b: Ptr) {
    a in tasks && b in tasks && tasks[a].next == b && tasks[b].prev == a
  }

  ghost predicate Chain(tasks: Tasks, s: seq<Ptr>) {
    forall i :: 0 <= i < |s| - 1 ==> Linked(tasks, s[i], s[i + 1])
  }

  /** s, in this order and then back to the start, is one circular list. */
  ghost predicate Ring(tasks: Tasks, s: seq<Ptr>) {
    s != [] && Distinct(s) && Chain(tasks, s + [s[0]])
  }

  /** `list_add`: entry goes right behind head. */
  function ListAdd(tasks: Tasks, entry: Ptr, head: Ptr): Tasks
    requires entry in tasks && head in tasks && tasks[head].next in tasks
  {
    var next := tasks[head].next;
    var t1 := tasks[next := tasks[next].(prev := entry)];
    var t2 := t1[entry := t1[entry].(next := next, prev := head)];
    t2[head := t2[head].(next := entry)]
  }

  /** `list_del`: the neighbours close up. */
  function ListDel(tasks: Tasks, entry: Ptr): Tasks
    requires entry in tasks && tasks[entry].next in tasks && tasks[entry].prev in tasks
  {
    var next, prev := tasks[entry].next, tasks[entry].prev;
    var t1 := tasks[next := tasks[next].(prev := prev)];
    t1[prev := t1[prev].(next := next)]
  }

  /** Equal except for list links. */
  ghost predicate SameButLinks(a: Tasks, b: Tasks) {
    a.Keys == b.Keys && forall t :: t in a ==> a[t] == b[t].(next := a[t].next, prev := a[t].prev)
  }

  /** list_add behind the i-th element of a ring. */
  lemma RingInsert(tasks: Tasks, s: seq<Ptr>, i: nat, c: Ptr)
    requires Ring(tasks, s) && i < |s| && c in tasks && c !in s
    ensures s[i] in tasks && tasks[s[i]].next in tasks
    ensures Ring(ListAdd(tasks, c, s[i]), s[..i + 1] + [c] + s[i + 1..])
    ensures SameButLinks(ListAdd(tasks, c, s[i]), tasks)
    ensures forall x :: x in tasks && x !in s && x != c ==> ListAdd(tasks, c, s[i])[x] == tasks[x]
  {
    var ch := s + [s[0]];
    assert Linked(tasks, ch[i], ch[i + 1]);
    var t := ListAdd(tasks, c, s[i]);
    var s' := s[..i + 1] + [c] + s[i + 1..];
    var ch' := s' + [s'[0]];
    assert s'[0] == s[0];
    forall k | 0 <= k < |ch'| - 1
      ensures Linked(t, ch'[k], ch'[k + 1])
    {
      if k < i {
        assert Linked(tasks, ch[k], ch[k + 1]);
      } else if k > i + 1 {
        assert Linked(tasks, ch[k - 1], ch[k]);
      }
    }
  }

  /** list_del of the element behind the first. */
  lemma RingDelete(tasks: Tasks, s: seq<Ptr>)
    requires Ring(tasks, s) && |s| > 1
    ensures s[1] in tasks && tasks[s[1]].next in tasks && tasks[s[1]].prev in tasks
    ensures Ring(ListDel(tasks, s[1]), [s[0]] + s[2..])
    ensures SameButLinks(ListDel(tasks, s[1]), tasks)
    ensures forall x :: x in tasks && x !in s ==> ListDel(tasks, s[1])[x] == tasks[x]
    ensures s[0] in tasks && tasks[s[0]].next == s[1]
    ensures tasks[s[1]].next == if |s| > 2 then s[2] else s[0]
  {
    var ch := s + [s[0]];
    assert Linked(tasks, ch[0], ch[1]);
    assert Linked(tasks, ch[1], ch[2]);
    var t := ListDel(tasks, s[1]);
    var s' := [s[0]] + s[2..];
    var ch' := s' + [s'[0]];
    forall k | 0 <= k < |ch'| - 1
      ensures Linked(t, ch'[k], ch'[k + 1])
    {
      assert Linked(tasks, ch[k + 1], ch[k + 2]);
    }
  }

  /** A ring is untouched by changes to structures outside it. */
  lemma RingFrame(a: Tasks, b: Tasks, s: seq<Ptr>)
    requires Ring(a, s)
    requires forall x :: x in s ==> x in a && x in b && b[x].next == a[x].next && b[x].prev == a[x].prev
    ensures Ring(b, s)
  {
    var ch := s + [s[0]];
    forall k | 0 <= k < |ch| - 1
      ensures Linked(b, ch[k], ch[k + 1])
    {
      assert Linked(a, ch[k], ch[k + 1]);
      assert ch[k] in s && ch[k + 1] in s;
    }
  }

  // ---- families ----

  /** Each root's ring, read off its links, is the preorder walk of its family. */
  ghost predicate Rings(tasks: Tasks, fams: map<Ptr, Family>) {
    forall r :: r in fams ==> fams[r].tree.id == r && Ring(tasks, Preorder(fams[r].tree))
  }

  /** Every task structure belongs to exactly one family. */
  ghost predicate Members(live: set<Ptr>, fams: map<Ptr, Family>, rootOf: map<Ptr, Ptr>) {
    && rootOf.Keys == live
    && (forall r, x :: r in fams && x in Preorder(fams[r].tree) ==> x in live && rootOf[x] == r)
    && (forall t :: t in live ==> InFamily(t, fams, rootOf[t]))
  }

  ghost predicate InFamily(t: Ptr, fams: map<Ptr, Family>, r: Ptr) {
    r in fams && t in Preorder(fams[r].tree)
  }

  /** n_children counts direct children only. */
  ghost predicate Degrees(tasks: Tasks, fams: map<Ptr, Family>, rootOf: map<Ptr, Ptr>) {
    forall t :: t in tasks ==> DegreeAt(tasks, fams, rootOf, t)
  }

  ghost predicate DegreeAt(tasks: Tasks, fams: map<Ptr, Family>, rootOf: map<Ptr, Ptr>, t: Ptr)
    requires t in tasks
  {
    t in rootOf && rootOf[t] in fams && tasks[t].nChildren == Degree(fams[rootOf[t]].tree, t)
  }

  ghost predicate FamilyOk(tasks: Tasks, fams: map<Ptr, Family>, rootOf: map<Ptr, Ptr>) {
    Rings(tasks, fams) && Members(tasks.Keys, fams, rootOf) && Degrees(tasks, fams, rootOf)
  }

  /** Everyone in a family holds its environment, and its ring buffer while alive; no two
      families share either. */
  ghost predicate SharedOk(tasks: Tasks, fams: map<Ptr, Family>, rootOf: map<Ptr, Ptr>) {
    Apart(fams) && forall t :: t in tasks ==> SharedAt(tasks[t], t, fams, rootOf)
  }

  ghost predicate SharedAt(task: Task, t: Ptr, fams: map<Ptr, Family>, rootOf: map<Ptr, Ptr>) {
    && t in rootOf && rootOf[t] in fams
    && task.envir == fams[rootOf[t]].env
    && (task.rb.Some? ==> task.rb.value == fams[rootOf[t]].ring)
    && (task.extra.Some? ==> task.extra.value == fams[rootOf[t]].ring)
  }

  ghost predicate Apart(fams: map<Ptr, Family>) {
    forall r, q :: r in fams && q in fams && r != q ==>
      fams[r].env != fams[q].env && fams[r].ring != fams[q].ring
  }

  // ---- references ----

  function Holders(tasks: Tasks, e: Ptr): set<Ptr> {
    set t | t in tasks && tasks[t].envir == e
  }

  function Writers(tasks: Tasks, b: Ptr): set<Ptr> {
    set t | t in tasks && tasks[t].rb == Some(b)
  }

  /** The count of every environment is the number of tasks holding it, and never 0. */
  ghost predicate EnvOk(tasks: Tasks, envs: map<Ptr, Envir>) {
    && (forall t :: t in tasks ==> tasks[t].envir in envs)
    && (forall e :: e in envs ==> envs[e].count == |Holders(tasks, e)| > 0)
  }

  /** EOF is written once, as the last thing, when the last writer leaves. */
  ghost predicate LogOk(b: Rb) {
    if b.active > 0 || b.log == [] then EofMsg !in b.log
    else b.log[|b.log| - 1] == EofMsg && EofMsg !in b.log[..|b.log| - 1]
  }

  ghost predicate RbOk(tasks: Tasks, rbs: map<Ptr, Rb>) {
    && (forall t :: t in tasks && tasks[t].rb.Some? ==> tasks[t].rb.value in rbs)
    && (forall b :: b in rbs ==> rbs[b].active == |Writers(tasks, b)| && LogOk(rbs[b]))
  }

  /** A ring buffer some root has been registered with. */
  predicate Used(b: Rb) {
    b.active > 0 || b.log != []
  }

  /** Every root keeps a pointer to its ring buffer for its own samples, alive or not. */
  ghost predicate RootsOk(tasks: Tasks, fams: map<Ptr, Family>, rbs: map<Ptr, Rb>) {
    forall r :: r in fams ==> RootOk(tasks, fams[r], rbs, r)
  }

  ghost predicate RootOk(tasks: Tasks, f: Family, rbs: map<Ptr, Rb>, r: Ptr) {
    r in tasks && tasks[r].extra == Some(f.ring) && f.ring in rbs && Used(rbs[f.ring])
  }

  lemma RootsKept(a: Tasks, b: Tasks, fams: map<Ptr, Family>, g: map<Ptr, Family>,
                  rbs: map<Ptr, Rb>, rbs': map<Ptr, Rb>)
    requires RootsOk(a, fams, rbs)
    requires forall r :: r in g ==> r in fams && g[r].ring == fams[r].ring && r in b
    requires forall t :: t in a && t in b ==> b[t].extra == a[t].extra
    requires forall x :: x in rbs ==> x in rbs' && (Used(rbs[x]) ==> Used(rbs'[x]))
    ensures RootsOk(b, g, rbs')
  {
    forall r | r in g
      ensures RootOk(b, g[r], rbs', r)
    {
      assert RootOk(a, fams[r], rbs, r);
    }
  }

  // ---- run lists ----

  ghost predicate LiveOk(tasks: Tasks, cpuOf: map<Proc, Cpu>, nCpus: nat) {
    && (forall q :: q in cpuOf ==> cpuOf[q] < nCpus)
    && (forall t :: t in tasks ==> tasks[t].p.Some? == tasks[t].rb.Some?)
    && (forall t :: t in tasks && tasks[t].p.Some? ==> tasks[t].p.value in cpuOf)
    && (forall t, u :: t in tasks && u in tasks && tasks[t].p.Some? && tasks[t].p == tasks[u].p ==> t == u)
  }

  /** A list without repetitions, holding exactly the members of a set. */
  ghost predicate Lists(list: seq<Ptr>, members: set<Ptr>) {
    Distinct(list) && forall t :: t in list <==> t in members
  }

  function Waiting(tasks: Tasks, pending: set<Ptr>): set<Ptr> {
    set t | t in tasks && tasks[t].p.Some? && t in pending
  }

  function RunningOn(tasks: Tasks, pending: set<Ptr>, cpuOf: map<Proc, Cpu>, c: Cpu): set<Ptr> {
    set t | t in tasks && tasks[t].p.Some? && t !in pending
      && tasks[t].p.value in cpuOf && cpuOf[tasks[t].p.value] == c
  }

  /** Every live monitored task is on exactly one list: the wait list until it execs, then
      the list of the CPU its process is on. Exited tasks are on none. */
  ghost predicate ListsOk(tasks: Tasks, pending: set<Ptr>, cpuOf: map<Proc, Cpu>,
                          waitList: seq<Ptr>, cpuList: seq<seq<Ptr>>) {
    && Lists(waitList, Waiting(tasks, pending))
    && forall c :: 0 <= c < |cpuList| ==> Lists(cpuList[c], RunningOn(tasks, pending, cpuOf, c))
  }

  function Without(list: seq<Ptr>, t: Ptr): seq<Ptr> {
    if list == [] then []
    else if list[0] == t then list[1..]
    else [list[0]] + Without(list[1..], t)
  }

  lemma {:induction false} WithoutLists(list: seq<Ptr>, t: Ptr)
    requires Distinct(list)
    ensures Distinct(Without(list, t)) && forall x :: x in Without(list, t) <==> x in list && x != t
  {
    if list != [] {
      assert [list[0]] + list[1..] == list;
      DistinctParts([list[0]], list[1..]);
      WithoutLists(list[1..], t);
      DistinctJoin([list[0]], Without(list[1..], t));
    }
  }

  lemma ListsWithout(list: seq<Ptr>, members: set<Ptr>, t: Ptr)
    requires Lists(list, members)
    ensures Lists(Without(list, t), members - {t})
  {
    WithoutLists(list, t);
  }

  lemma ListsWith(list: seq<Ptr>, members: set<Ptr>, t: Ptr)
    requires Lists(list, members) && t !in members
    ensures Lists([t] + list, members + {t})
  {
  }

  // ---- one structure more, or less ----

  /** A new task structure joins the holders of its environment and ring buffer. */
  lemma HoldersAdd(tasks: Tasks, t: Ptr, task: Task, e: Ptr)
    requires t !in tasks
    ensures Holders(tasks[t := task], e) == Holders(tasks, e) + (if task.envir == e then {t} else {})
    ensures |Holders(tasks[t := task], e)| == |Holders(tasks, e)| + (if task.envir == e then 1 else 0)
  {
    assert Holders(tasks[t := task], e) == Holders(tasks, e) + (if task.envir == e then {t} else {});
  }

  lemma WritersAdd(tasks: Tasks, t: Ptr, task: Task, b: Ptr)
    requires t !in tasks
    ensures Writers(tasks[t := task], b) == Writers(tasks, b) + (if task.rb == Some(b) then {t} else {})
    ensures |Writers(tasks[t := task], b)| == |Writers(tasks, b)| + (if task.rb == Some(b) then 1 else 0)
  {
    assert Writers(tasks[t := task], b) == Writers(tasks, b) + (if task.rb == Some(b) then {t} else {});
  }

  lemma HoldersRemove(tasks: Tasks, t: Ptr, e: Ptr)
    requires t in tasks
    ensures Holders(tasks - {t}, e) == Holders(tasks, e) - {t}
    ensures |Holders(tasks - {t}, e)| == |Holders(tasks, e)| - (if tasks[t].envir == e then 1 else 0)
  {
    assert Holders(tasks - {t}, e) == Holders(tasks, e) - {t};
  }

  /** Dropping the reference to a ring buffer. */
  lemma WritersDrop(tasks: Tasks, t: Ptr, b: Ptr)
    requires t in tasks
    ensures Writers(tasks[t := tasks[t].(p := None, rb := None)], b) == Writers(tasks, b) - {t}
    ensures |Writers(tasks[t := tasks[t].(p := None, rb := None)], b)|
      == |Writers(tasks, b)| - (if tasks[t].rb == Some(b) then 1 else 0)
  {
    assert Writers(tasks[t := tasks[t].(p := None, rb := None)], b) == Writers(tasks, b) - {t};
  }

  lemma SameHolders(a: Tasks, b: Tasks)
    requires a.Keys == b.Keys && forall t :: t in a ==> a[t].envir == b[t].envir && a[t].rb == b[t].rb
    ensures forall e :: Holders(a, e) == Holders(b, e) && Writers(a, e) == Writers(b, e)
  {
    forall e
      ensures Holders(a, e) == Holders(b, e) && Writers(a, e) == Writers(b, e)
    {
      assert forall t :: t in Holders(a, e) <==> t in Holders(b, e);
      assert forall t :: t in Writers(a, e) <==> t in Writers(b, e);
    }
  }

  // ---- what each hook keeps ----

  /** Links, child counts and membership decide the families. */
  lemma FamilyFrame(a: Tasks, b: Tasks, fams: map<Ptr, Family>, rootOf: map<Ptr, Ptr>)
    requires FamilyOk(a, fams, rootOf) && a.Keys == b.Keys
    requires forall t :: t in a ==>
      b[t].next == a[t].next && b[t].prev == a[t].prev && b[t].nChildren == a[t].nChildren
    ensures FamilyOk(b, fams, rootOf)
  {
    hide Ring, Preorder, Degree;
    forall r | r in fams
      ensures Ring(b, Preorder(fams[r].tree))
    {
      assert forall x :: x in Preorder(fams[r].tree) ==> x in a;
      RingFrame(a, b, Preorder(fams[r].tree));
    }
  }

  /** A root on its own: a ring of one. */
  lemma RegisterFamily(tasks: Tasks, fams: map<Ptr, Family>, rootOf: map<Ptr, Ptr>, t: Ptr, task: Task, f: Family)
    requires FamilyOk(tasks, fams, rootOf) && t !in tasks && t !in fams
    requires task.next == t && task.prev == t && task.nChildren == 0 && f.tree == Node(t, [])
    ensures FamilyOk(tasks[t := task], fams[t := f], rootOf[t := t])
  {
    hide Ring, Preorder, Degree, DegreeAt;
    var b, g := tasks[t := task], fams[t := f];
    Singleton(b, t);
    RegisterMembers(tasks.Keys, fams, rootOf, t, f);
    assert b.Keys == tasks.Keys + {t};
    forall x | x in b
      ensures DegreeAt(b, g, rootOf[t := t], x)
    {
      assert x != t ==> DegreeAt(tasks, fams, rootOf, x);
      OneDegree(tasks, b, fams, g, rootOf, rootOf[t := t], t, x);
    }
    forall r | r in fams
      ensures Ring(b, Preorder(fams[r].tree))
    {
      assert forall x :: x in Preorder(fams[r].tree) ==> x in tasks;
      RingFrame(tasks, b, Preorder(fams[r].tree));
    }
  }

  lemma RegisterMembers(keys: set<Ptr>, fams: map<Ptr, Family>, rootOf: map<Ptr, Ptr>, t: Ptr, f: Family)
    requires Members(keys, fams, rootOf) && t !in keys && t !in fams && Preorder(f.tree) == [t]
    ensures Members(keys + {t}, fams[t := f], rootOf[t := t])
  {
    hide Preorder;
    var g, roots := fams[t := f], rootOf[t := t];
    forall x | x in keys + {t}
      ensures InFamily(x, g, roots[x])
    {
      assert x != t ==> InFamily(x, fams, rootOf[x]);
    }
  }

  lemma OneDegree(a: Tasks, b: Tasks, fams: map<Ptr, Family>, g: map<Ptr, Family>, rootOf: map<Ptr, Ptr>,
                  roots: map<Ptr, Ptr>, t: Ptr, x: Ptr)
    requires t !in a && t !in fams && x in b && b.Keys == a.Keys + {t} && (x != t ==> b[x] == a[x])
    requires t in g && g == fams[t := g[t]] && roots == rootOf[t := t]
    requires b[t].nChildren == 0 == Degree(g[t].tree, t)
    requires x != t ==> DegreeAt(a, fams, rootOf, x)
    ensures DegreeAt(b, g, roots, x)
  {
    hide Degree;
  }

  lemma Singleton(tasks: Tasks, t: Ptr)
    requires t in tasks && tasks[t].next == t && tasks[t].prev == t
    ensures Preorder(Node(t, [])) == [t] && Degree(Node(t, []), t) == 0 && Ring(tasks, [t])
  {
    assert PreorderAll([]) == [] && DegreeAll([], t) == 0;
    assert Linked(tasks, t, t);
  }

  /** The child structure and the links made for it by a fork of `parent`. */
  function ForkTasks(tasks: Tasks, parent: Ptr, c: Ptr, child: Task): Tasks
    requires parent in tasks && c !in tasks && tasks[parent].next in tasks
  {
    var t := ListAdd(tasks[c := child], c, parent);
    t[parent := t[parent].(nChildren := t[parent].nChildren + 1)]
  }

  /** The children ring stays the preorder walk: list_add behind any member, however deep,
      is a newest child of that member. */
  lemma ForkFamily(tasks: Tasks, fams: map<Ptr, Family>, rootOf: map<Ptr, Ptr>, parent: Ptr, c: Ptr, child: Task)
    requires FamilyOk(tasks, fams, rootOf) && parent in tasks && c !in tasks && child.nChildren == 0
    ensures tasks[parent].next in tasks && rootOf[parent] in fams
    ensures var r := rootOf[parent];
      FamilyOk(ForkTasks(tasks, parent, c, child),
               fams[r := fams[r].(tree := AddChild(fams[r].tree, parent, c))], rootOf[c := r])
    ensures SameButRing(ForkTasks(tasks, parent, c, child), tasks[c := child])
  {
    hide Ring, Preorder, Degree, AddChild, InsertAfter;
    assert InFamily(parent, fams, rootOf[parent]);
    var r := rootOf[parent];
    var tree := fams[r].tree;
    ForkRing(tasks, tree, parent, c, child);
    var t3, tree' := ForkTasks(tasks, parent, c, child), AddChild(tree, parent, c);
    ForkMembers(tasks.Keys, fams, rootOf, r, c, tree');
    ForkRings(tasks, t3, fams, rootOf, r, tree');
    ForkDegrees(tasks, t3, fams, rootOf, parent, c, child);
  }

  lemma ForkMembers(keys: set<Ptr>, fams: map<Ptr, Family>, rootOf: map<Ptr, Ptr>, r: Ptr, c: Ptr, tree: Tree)
    requires Members(keys, fams, rootOf) && r in fams && c !in keys
    requires forall x :: x in Preorder(tree) <==> x in Preorder(fams[r].tree) || x == c
    ensures Members(keys + {c}, fams[r := fams[r].(tree := tree)], rootOf[c := r])
  {
    hide Preorder;
    var g, root := fams[r := fams[r].(tree := tree)], rootOf[c := r];
    forall t | t in keys + {c}
      ensures InFamily(t, g, root[t])
    {
      assert t in keys ==> InFamily(t, fams, rootOf[t]);
    }
  }

  lemma ForkRings(a: Tasks, b: Tasks, fams: map<Ptr, Family>, rootOf: map<Ptr, Ptr>, r: Ptr, tree: Tree)
    requires Rings(a, fams) && Members(a.Keys, fams, rootOf) && r in fams && a.Keys <= b.Keys
    requires tree.id == r && Ring(b, Preorder(tree))
    requires forall x :: x in a && x !in Preorder(fams[r].tree) ==> b[x] == a[x]
    ensures Rings(b, fams[r := fams[r].(tree := tree)])
  {
    hide Ring, Preorder;
    forall q | q in fams && q != r
      ensures Ring(b, Preorder(fams[q].tree))
    {
      forall x | x in Preorder(fams[q].tree)
        ensures x in a && x !in Preorder(fams[r].tree)
      {
        assert rootOf[x] == q;
      }
      RingFrame(a, b, Preorder(fams[q].tree));
    }
  }

  lemma ForkDegrees(a: Tasks, b: Tasks, fams: map<Ptr, Family>, rootOf: map<Ptr, Ptr>, parent: Ptr, c: Ptr, child: Task)
    requires Degrees(a, fams, rootOf) && Members(a.Keys, fams, rootOf)
    requires parent in a && c !in a && child.nChildren == 0 && b.Keys == a.Keys + {c}
    requires Distinct(Preorder(fams[rootOf[parent]].tree))
    requires forall x :: x in b ==>
      b[x].nChildren == (if x == c then 0 else a[x].nChildren) + (if x == parent then 1 else 0)
    ensures var r := rootOf[parent];
      Degrees(b, fams[r := fams[r].(tree := AddChild(fams[r].tree, parent, c))], rootOf[c := r])
  {
    hide Preorder, Degree, AddChild, DegreeAt;
    var r := rootOf[parent];
    assert InFamily(parent, fams, r);
    var g, root := fams[r := fams[r].(tree := AddChild(fams[r].tree, parent, c))], rootOf[c := r];
    forall x | x in b
      ensures DegreeAt(b, g, root, x)
    {
      DegreeAddChild(fams[r].tree, parent, c, x);
      assert x != c ==> DegreeAt(a, fams, rootOf, x);
      ForkDegree(a, b, fams, rootOf, parent, c, x);
    }
  }

  lemma ForkDegree(a: Tasks, b: Tasks, fams: map<Ptr, Family>, rootOf: map<Ptr, Ptr>, parent: Ptr, c: Ptr, x: Ptr)
    requires x in b && b.Keys == a.Keys + {c} && c !in a && parent in a && parent in rootOf && rootOf[parent] in fams
    requires x != c ==> DegreeAt(a, fams, rootOf, x)
    requires b[x].nChildren == (if x == c then 0 else a[x].nChildren) + (if x == parent then 1 else 0)
    requires var tree := fams[rootOf[parent]].tree;
      && Degree(AddChild(tree, parent, c), x) == Degree(tree, x) + (if x == parent then 1 else 0)
      && (x == c ==> Degree(tree, x) == 0)
    ensures var r := rootOf[parent];
      DegreeAt(b, fams[r := fams[r].(tree := AddChild(fams[r].tree, parent, c))], rootOf[c := r], x)
  {
    hide Degree, AddChild;
  }

  /** Equal except for links and child counts. */
  ghost predicate SameButRing(a: Tasks, b: Tasks) {
    a.Keys == b.Keys &&
    forall t :: t in a ==> a[t] == b[t].(next := a[t].next, prev := a[t].prev, nChildren := a[t].nChildren)
  }

  lemma ForkRing(tasks: Tasks, tree: Tree, parent: Ptr, c: Ptr, child: Task)
    requires Ring(tasks, Preorder(tree)) && parent in Preorder(tree) && parent in tasks && c !in tasks
    requires c !in Preorder(tree)
    ensures tasks[parent].next in tasks
    ensures Ring(ForkTasks(tasks, parent, c, child), Preorder(AddChild(tree, parent, c)))
    ensures Preorder(AddChild(tree, parent, c)) == InsertAfter(Preorder(tree), parent, c)
    ensures forall x :: x in InsertAfter(Preorder(tree), parent, c) <==> x in Preorder(tree) || x == c
    ensures SameButRing(ForkTasks(tasks, parent, c, child), tasks[c := child])
    ensures forall x :: x in tasks && x !in Preorder(tree) ==> ForkTasks(tasks, parent, c, child)[x] == tasks[x]
    ensures forall x :: x in ForkTasks(tasks, parent, c, child) ==>
      ForkTasks(tasks, parent, c, child)[x].nChildren
        == (if x == c then child.nChildren else tasks[x].nChildren) + (if x == parent then 1 else 0)
    ensures Distinct(Preorder(tree))
  {
    hide Preorder, InsertAfter, AddChild;
    var s, t1 := Preorder(tree), tasks[c := child];
    var i := IndexIn(tasks, s, parent, c);
    RingFrame(tasks, t1, s);
    RingInsert(t1, s, i, c);
    PreorderAddChild(tree, parent, c);
    RingFrame(ListAdd(t1, c, parent), ForkTasks(tasks, parent, c, child), s[..i + 1] + [c] + s[i + 1..]);
  }

  /** Where list_add behind `parent` puts the new entry, and that parent has a successor. */
  lemma IndexIn(tasks: Tasks, s: seq<Ptr>, parent: Ptr, c: Ptr) returns (i: nat)
    requires Ring(tasks, s) && parent in s && c !in s
    ensures i < |s| && s[i] == parent && InsertAfter(s, parent, c) == s[..i + 1] + [c] + s[i + 1..]
    ensures forall x :: x in InsertAfter(s, parent, c) <==> x in s || x == c
    ensures parent in tasks && tasks[parent].next in tasks
    ensures forall x :: x in s ==> x in tasks
  {
    InsertAfterDistinct(s, parent, c);
    i :| 0 <= i < |s| && s[i] == parent && InsertAfter(s, parent, c) == s[..i + 1] + [c] + s[i + 1..];
    var ch := s + [s[0]];
    forall k | 0 <= k < |s|
      ensures s[k] in tasks
    {
      assert Linked(tasks, ch[k], ch[k + 1]);
    }
    assert Linked(tasks, ch[i], ch[i + 1]);
  }

  /** A new structure of a family, holding what the family shares. */
  lemma SharedAdd(tasks: Tasks, b: Tasks, fams: map<Ptr, Family>, rootOf: map<Ptr, Ptr>,
                  c: Ptr, child: Task, r: Ptr, f: Family)
    requires SharedOk(tasks, fams, rootOf) && c !in tasks && SameButRing(b, tasks[c := child])
    requires child.envir == f.env && (child.rb.Some? ==> child.rb.value == f.ring)
    requires child.extra.Some? ==> child.extra.value == f.ring
    requires if r in fams then f.env == fams[r].env && f.ring == fams[r].ring
      else forall q :: q in fams ==> fams[q].env != f.env && fams[q].ring != f.ring
    ensures SharedOk(b, fams[r := f], rootOf[c := r])
  {
    var g, root := fams[r := f], rootOf[c := r];
    forall t | t in b
      ensures SharedAt(b[t], t, g, root)
    {
      assert t != c ==> SharedAt(tasks[t], t, fams, rootOf);
    }
  }

  /** `smon_get_envir` for a child, or the first reference of a new environment. */
  lemma EnvAdd(tasks: Tasks, b: Tasks, envs: map<Ptr, Envir>, c: Ptr, child: Task, env: Envir)
    requires EnvOk(tasks, envs) && c !in tasks && SameButRing(b, tasks[c := child])
    requires env.count == 1 + if child.envir in envs then envs[child.envir].count else 0
    ensures EnvOk(b, envs[child.envir := env])
  {
    SameHolders(tasks[c := child], b);
    var e := child.envir;
    if e !in envs {
      assert Holders(tasks, e) == {};
    }
    forall x
      ensures |Holders(b, x)| == |Holders(tasks, x)| + (if e == x then 1 else 0)
    {
      HoldersAdd(tasks, c, child, x);
    }
  }

  /** `smon_get_rb`, before EOF has been written. */
  lemma WriterAdd(tasks: Tasks, b: Tasks, rbs: map<Ptr, Rb>, c: Ptr, child: Task)
    requires RbOk(tasks, rbs) && c !in tasks && SameButRing(b, tasks[c := child])
    requires child.rb.Some? && child.rb.value in rbs && EofMsg !in rbs[child.rb.value].log
    ensures var x := child.rb.value;
      RbOk(b, rbs[x := rbs[x].(active := rbs[x].active + 1)])
  {
    SameHolders(tasks[c := child], b);
    forall x | x in rbs
      ensures |Writers(b, x)| == |Writers(tasks, x)| + (if child.rb.value == x then 1 else 0)
    {
      WritersAdd(tasks, c, child, x);
    }
  }

  lemma LiveWriter(tasks: Tasks, rbs: map<Ptr, Rb>, t: Ptr)
    requires RbOk(tasks, rbs) && t in tasks && tasks[t].rb.Some?
    ensures tasks[t].rb.value in rbs && rbs[tasks[t].rb.value].active > 0
    ensures EofMsg !in rbs[tasks[t].rb.value].log
  {
    assert t in Writers(tasks, tasks[t].rb.value);
  }

  /** A hook of a live task writes a sample before EOF. */
  lemma LogWrite(tasks: Tasks, rbs: map<Ptr, Rb>, b: Ptr, m: Msg)
    requires RbOk(tasks, rbs) && b in rbs && rbs[b].active > 0 && m != EofMsg
    ensures RbOk(tasks, rbs[b := rbs[b].(log := rbs[b].log + [m])])
  {
  }

  /** A monitored process forks: the child starts on the list of its own CPU. */
  lemma ForkLists(tasks: Tasks, b: Tasks, pending: set<Ptr>, cpuOf: map<Proc, Cpu>, waitList: seq<Ptr>,
                  cpuList: seq<seq<Ptr>>, c: Ptr, child: Task, cpu: Cpu)
    requires ListsOk(tasks, pending, cpuOf, waitList, cpuList) && LiveOk(tasks, cpuOf, |cpuList|)
    requires c !in tasks && c !in pending && SameButRing(b, tasks[c := child])
    requires child.p.Some? && child.rb.Some? && child.p.value in cpuOf && cpuOf[child.p.value] == cpu
    requires forall t :: t in tasks ==> tasks[t].p != child.p
    ensures cpu < |cpuList| && ListsOk(b, pending, cpuOf, waitList, cpuList[cpu := [c] + cpuList[cpu]])
    ensures LiveOk(b, cpuOf, |cpuList|)
  {
    assert forall t :: t in tasks ==> b[t].p == tasks[t].p && b[t].rb == tasks[t].rb;
    assert b[c].p == child.p && b[c].rb == child.rb;
    assert Waiting(b, pending) == Waiting(tasks, pending);
    forall x | 0 <= x < |cpuList|
      ensures RunningOn(b, pending, cpuOf, x) == RunningOn(tasks, pending, cpuOf, x) + if x == cpu then {c} else {}
    {
    }
    ListsWith(cpuList[cpu], RunningOn(tasks, pending, cpuOf, cpu), c);
  }

  /** A registered process: onto the wait list with the exec option, else onto its CPU's. */
  lemma RegisterLists(tasks: Tasks, pending: set<Ptr>, cpuOf: map<Proc, Cpu>, waitList: seq<Ptr>,
                      cpuList: seq<seq<Ptr>>, t: Ptr, task: Task, exec: bool)
    requires ListsOk(tasks, pending, cpuOf, waitList, cpuList) && LiveOk(tasks, cpuOf, |cpuList|)
    requires t !in tasks && t !in pending && task.rb.Some? && task.p.Some? && task.p.value in cpuOf
    requires forall u :: u in tasks ==> tasks[u].p != task.p
    ensures LiveOk(tasks[t := task], cpuOf, |cpuList|) && cpuOf[task.p.value] < |cpuList|
    ensures var c := cpuOf[task.p.value];
      if exec then ListsOk(tasks[t := task], pending + {t}, cpuOf, [t] + waitList, cpuList)
      else ListsOk(tasks[t := task], pending, cpuOf, waitList, cpuList[c := [t] + cpuList[c]])
  {
    var b, c := tasks[t := task], cpuOf[task.p.value];
    var now := if exec then pending + {t} else pending;
    assert Waiting(b, now) == Waiting(tasks, pending) + if exec then {t} else {};
    forall x | 0 <= x < |cpuList|
      ensures RunningOn(b, now, cpuOf, x)
        == RunningOn(tasks, pending, cpuOf, x) + if !exec && x == c then {t} else {}
    {
    }
    if exec {
      ListsWith(waitList, Waiting(tasks, pending), t);
    } else {
      ListsWith(cpuList[c], RunningOn(tasks, pending, cpuOf, c), t);
    }
  }

  /** A process dies: its task leaves the one list it is on, and gives up process and ring. */
  lemma ExitLists(tasks: Tasks, pending: set<Ptr>, cpuOf: map<Proc, Cpu>, waitList: seq<Ptr>, cpuList: seq<seq<Ptr>>,
                  t: Ptr)
    requires ListsOk(tasks, pending, cpuOf, waitList, cpuList) && LiveOk(tasks, cpuOf, |cpuList|)
    requires t in tasks && tasks[t].p.Some?
    ensures tasks[t].rb.Some?
    ensures var p, gone := tasks[t].p.value, tasks[t := tasks[t].(p := None, rb := None)];
      && LiveOk(gone, cpuOf - {p}, |cpuList|)
      && ListsOk(gone, pending, cpuOf - {p},
           if t in pending then Without(waitList, t) else waitList,
           if t in pending then cpuList else cpuList[cpuOf[p] := Without(cpuList[cpuOf[p]], t)])
  {
    var p, gone := tasks[t].p.value, tasks[t := tasks[t].(p := None, rb := None)];
    assert Waiting(gone, pending) == Waiting(tasks, pending) - {t};
    forall c | 0 <= c < |cpuList|
      ensures RunningOn(gone, pending, cpuOf - {p}, c) == RunningOn(tasks, pending, cpuOf, c) - {t}
    {
    }
    if t in pending {
      ListsWithout(waitList, Waiting(tasks, pending), t);
    } else {
      ListsWithout(cpuList[cpuOf[p]], RunningOn(tasks, pending, cpuOf, cpuOf[p]), t);
    }
  }

  lemma ExitRb(tasks: Tasks, rbs: map<Ptr, Rb>, t: Ptr)
    requires RbOk(tasks, rbs) && t in tasks && tasks[t].rb.Some?
    ensures tasks[t].rb.value in rbs && rbs[tasks[t].rb.value].active > 0
    ensures var b := tasks[t].rb.value;
      RbOk(tasks[t := tasks[t].(p := None, rb := None)], rbs[b := Release(rbs[b])])
  {
    var b := tasks[t].rb.value;
    assert t in Writers(tasks, b);
    hide Writers, Release, LogOk;
    forall x | x in rbs
      ensures |Writers(tasks[t := tasks[t].(p := None, rb := None)], x)|
        == |Writers(tasks, x)| - (if x == b then 1 else 0)
    {
      WritersDrop(tasks, t, x);
    }
    ReleaseLog(rbs[b]);
  }

  lemma ReleaseLog(b: Rb)
    requires LogOk(b) && b.active > 0
    ensures LogOk(Release(b))
  {
    assert (b.log + [EofMsg])[..|b.log|] == b.log;
  }

  /** `smon_release_rb` seen from the writers: the last one leaves EOF. */
  function Release(b: Rb): Rb
    requires b.active > 0
  {
    Rb(b.active - 1, if b.active == 1 then b.log + [EofMsg] else b.log)
  }

  /** The wait list is left for a CPU list, for good. */
  lemma ExecLists(tasks: Tasks, pending: set<Ptr>, cpuOf: map<Proc, Cpu>, waitList: seq<Ptr>, cpuList: seq<seq<Ptr>>,
                  t: Ptr)
    requires ListsOk(tasks, pending, cpuOf, waitList, cpuList) && LiveOk(tasks, cpuOf, |cpuList|)
    requires t in waitList
    ensures t in tasks && tasks[t].p.Some? && t in pending
    ensures var c := cpuOf[tasks[t].p.value];
      ListsOk(tasks, pending - {t}, cpuOf, Without(waitList, t), cpuList[c := [t] + cpuList[c]])
  {
    assert t in Waiting(tasks, pending);
    var c := cpuOf[tasks[t].p.value];
    assert Waiting(tasks, pending - {t}) == Waiting(tasks, pending) - {t};
    forall x | 0 <= x < |cpuList|
      ensures RunningOn(tasks, pending - {t}, cpuOf, x)
        == RunningOn(tasks, pending, cpuOf, x) + if x == c then {t} else {}
    {
    }
    ListsWithout(waitList, Waiting(tasks, pending), t);
    ListsWith(cpuList[c], RunningOn(tasks, pending, cpuOf, c), t);
  }

  /** A process moves: a task on a CPU list moves with it, any other list stays. */
  lemma MigrateLists(tasks: Tasks, pending: set<Ptr>, cpuOf: map<Proc, Cpu>, waitList: seq<Ptr>, cpuList: seq<seq<Ptr>>,
                     p: Proc, dest: Cpu)
    requires ListsOk(tasks, pending, cpuOf, waitList, cpuList) && LiveOk(tasks, cpuOf, |cpuList|)
    requires p in cpuOf && dest < |cpuList|
    ensures LiveOk(tasks, cpuOf[p := dest], |cpuList|)
    ensures (forall t :: t in cpuList[cpuOf[p]] ==> tasks[t].p != Some(p)) ==>
      ListsOk(tasks, pending, cpuOf[p := dest], waitList, cpuList)
    ensures forall t :: t in cpuList[cpuOf[p]] && tasks[t].p == Some(p) ==>
      var left := cpuList[cpuOf[p] := Without(cpuList[cpuOf[p]], t)];
      ListsOk(tasks, pending, cpuOf[p := dest], waitList, left[dest := [t] + left[dest]])
  {
    var c, now := cpuOf[p], cpuOf[p := dest];
    if forall t :: t in cpuList[c] ==> tasks[t].p != Some(p) {
      forall x | 0 <= x < |cpuList|
        ensures RunningOn(tasks, pending, now, x) == RunningOn(tasks, pending, cpuOf, x)
      {
        assert forall t :: t in RunningOn(tasks, pending, cpuOf, c) ==> tasks[t].p != Some(p);
        assert forall t :: t in tasks && t !in pending && tasks[t].p == Some(p) ==>
          t in RunningOn(tasks, pending, cpuOf, c);
      }
    }
    forall t | t in cpuList[c] && tasks[t].p == Some(p)
      ensures var left := cpuList[c := Without(cpuList[c], t)];
        ListsOk(tasks, pending, now, waitList, left[dest := [t] + left[dest]])
    {
      MoveLists(tasks, pending, cpuOf, cpuList, t, dest);
    }
  }

  lemma MoveLists(tasks: Tasks, pending: set<Ptr>, cpuOf: map<Proc, Cpu>, cpuList: seq<seq<Ptr>>, t: Ptr, dest: Cpu)
    requires LiveOk(tasks, cpuOf, |cpuList|) && dest < |cpuList|
    requires forall c :: 0 <= c < |cpuList| ==> Lists(cpuList[c], RunningOn(tasks, pending, cpuOf, c))
    requires t in tasks && tasks[t].p.Some? && t !in pending
    ensures var p := tasks[t].p.value; var c := cpuOf[p];
      var left := cpuList[c := Without(cpuList[c], t)];
      var moved := left[dest := [t] + left[dest]];
      forall x :: 0 <= x < |cpuList| ==> Lists(moved[x], RunningOn(tasks, pending, cpuOf[p := dest], x))
  {
    var p := tasks[t].p.value;
    var c, now := cpuOf[p], cpuOf[p := dest];
    var left := cpuList[c := Without(cpuList[c], t)];
    var moved := left[dest := [t] + left[dest]];
    forall x | 0 <= x < |cpuList|
      ensures Lists(moved[x], RunningOn(tasks, pending, now, x))
    {
      var was := RunningOn(tasks, pending, cpuOf, x);
      assert RunningOn(tasks, pending, now, x) == was - {t} + if x == dest then {t} else {};
      ListsWithout(cpuList[x], was, t);
      if x == c {
        assert Lists(left[x], was - {t});
      } else {
        assert was - {t} == was;
      }
      if x == dest {
        ListsWith(left[x], was - {t}, t);
      }
    }
  }

  // ---- unregistering ----

  function Elements(s: seq<Ptr>): set<Ptr> {
    set x | x in s
  }

  /** Midway through the destruction of root's descendants: `done` have been freed, `rest`
      are still linked behind root, in order; nothing outside the family has changed, and the
      environment lives as long as root does. */
  ghost predicate Sweeping(was: Tasks, envs0: map<Ptr, Envir>, tasks: Tasks, envs: map<Ptr, Envir>,
                           root: Ptr, env: Ptr, done: seq<Ptr>, rest: seq<Ptr>) {
    && Swept(was, tasks, root, done, rest)
    && (forall x :: x in [root] + rest ==> x in tasks && tasks[x].envir == env && tasks[x].rb == None)
    && EnvOk(tasks, envs) && env in envs
    && envs - {env} == envs0 - {env}
  }

  ghost predicate Swept(was: Tasks, tasks: Tasks, root: Ptr, done: seq<Ptr>, rest: seq<Ptr>) {
    && Ring(tasks, [root] + rest)
    && Distinct(done) && (forall x :: x in done ==> x in was && x !in [root] + rest)
    && tasks.Keys == was.Keys - Elements(done)
    && (forall x :: x in tasks && x !in [root] + rest ==> tasks[x] == was[x])
    && (forall x :: x in tasks ==> tasks[x] == was[x].(next := tasks[x].next, prev := tasks[x].prev))
  }

  /** list_del and destruction of the first descendant left. */
  lemma SweepStep(was: Tasks, envs0: map<Ptr, Envir>, tasks: Tasks, envs: map<Ptr, Envir>,
                  root: Ptr, env: Ptr, done: seq<Ptr>, rest: seq<Ptr>)
    requires Sweeping(was, envs0, tasks, envs, root, env, done, rest) && rest != []
    ensures var c := rest[0];
      && c in tasks && tasks[c].next in tasks && tasks[c].prev in tasks
      && tasks[c].next == (if |rest| > 1 then rest[1] else root)
      && c in ListDel(tasks, c) && ListDel(tasks, c)[c].envir == env && ListDel(tasks, c)[c].rb == None
      && envs[env].count > 1
      && Sweeping(was, envs0, ListDel(tasks, c) - {c}, envs[env := envs[env].(count := envs[env].count - 1)],
                  root, env, done + [c], rest[1..])
  {
    hide Ring, EnvOk, Elements, Swept;
    var c := rest[0];
    assert [root] + rest == [root, c] + rest[1..];
    assert root in [root] + rest && c in [root] + rest;
    SweptStep(was, tasks, root, done, rest);
    SweepEnv(tasks, ListDel(tasks, c), envs, env, root, c);
    assert envs[env := envs[env].(count := envs[env].count - 1)] - {env} == envs - {env};
    assert forall x :: x in [root] + rest[1..] ==> x in [root] + rest;
  }

  lemma SweptStep(was: Tasks, tasks: Tasks, root: Ptr, done: seq<Ptr>, rest: seq<Ptr>)
    requires Swept(was, tasks, root, done, rest) && rest != []
    ensures var c := rest[0];
      && c in tasks && tasks[c].next in tasks && tasks[c].prev in tasks && c != root && c !in rest[1..]
      && tasks[c].next == (if |rest| > 1 then rest[1] else root)
      && SameButLinks(ListDel(tasks, c), tasks)
      && Swept(was, ListDel(tasks, c) - {c}, root, done + [c], rest[1..])
  {
    hide Ring, ListDel;
    var c, s := rest[0], [root] + rest;
    FirstOut(tasks, root, rest);
    var t1 := ListDel(tasks, c);
    RingKept(t1, t1 - {c}, [root] + rest[1..], c);
    SweptSets(was, tasks, t1, root, done, rest);
  }

  /** list_del of the first entry behind root. */
  lemma FirstOut(tasks: Tasks, root: Ptr, rest: seq<Ptr>)
    requires Ring(tasks, [root] + rest) && rest != []
    ensures var c := rest[0];
      && c in tasks && tasks[c].next in tasks && tasks[c].prev in tasks && c !in [root] + rest[1..]
      && tasks[c].next == (if |rest| > 1 then rest[1] else root)
      && SameButLinks(ListDel(tasks, c), tasks) && Ring(ListDel(tasks, c), [root] + rest[1..])
      && forall x :: x in tasks && x !in [root] + rest ==> ListDel(tasks, c)[x] == tasks[x]
  {
    hide ListDel;
    var c, s := rest[0], [root] + rest;
    RingDelete(tasks, s);
    assert [s[0]] + s[2..] == [root] + rest[1..];
    assert s == [root, c] + rest[1..];
    DistinctParts([root, c], rest[1..]);
    assert s[0] == root && s[1] == c;
  }

  lemma SweptSets(was: Tasks, tasks: Tasks, t1: Tasks, root: Ptr, done: seq<Ptr>, rest: seq<Ptr>)
    requires rest != [] && SameButLinks(t1, tasks) && rest[0] in tasks && rest[0] !in [root] + rest[1..]
    requires Distinct(done) && forall x :: x in done ==> x in was && x !in [root] + rest
    requires tasks.Keys == was.Keys - Elements(done)
    requires forall x :: x in tasks && x !in [root] + rest ==> tasks[x] == was[x] && t1[x] == tasks[x]
    requires forall x :: x in tasks ==> tasks[x] == was[x].(next := tasks[x].next, prev := tasks[x].prev)
    ensures var c, t2 := rest[0], t1 - {rest[0]};
      && Distinct(done + [c]) && (forall x :: x in done + [c] ==> x in was && x !in [root] + rest[1..])
      && t2.Keys == was.Keys - Elements(done + [c])
      && (forall x :: x in t2 && x !in [root] + rest[1..] ==> t2[x] == was[x])
      && (forall x :: x in t2 ==> t2[x] == was[x].(next := t2[x].next, prev := t2[x].prev))
  {
    var c := rest[0];
    assert forall x :: x in [root] + rest <==> x == c || x in [root] + rest[1..];
    DistinctJoin(done, [c]);
    assert Elements(done + [c]) == Elements(done) + {c};
  }

  lemma RingKept(a: Tasks, b: Tasks, s: seq<Ptr>, c: Ptr)
    requires Ring(a, s) && b == a - {c} && c !in s
    ensures Ring(b, s) && forall x :: x in s ==> x in b
  {
    var ch := s + [s[0]];
    forall k | 0 <= k < |s|
      ensures s[k] in a
    {
      assert Linked(a, ch[k], ch[k + 1]);
    }
    RingFrame(a, b, s);
  }

  lemma SweepHead(was: Tasks, envs0: map<Ptr, Envir>, tasks: Tasks, envs: map<Ptr, Envir>,
                  root: Ptr, env: Ptr, done: seq<Ptr>, rest: seq<Ptr>)
    requires Sweeping(was, envs0, tasks, envs, root, env, done, rest)
    ensures root in tasks && tasks[root].next == if rest == [] then root else rest[0]
    ensures rest != [] ==> rest[0] != root
  {
    var s := [root] + rest;
    var ch := s + [s[0]];
    assert Linked(tasks, ch[0], ch[1]);
    assert rest != [] ==> s[1] == rest[0] && s[0] != s[1];
  }

  lemma SweepEnv(tasks: Tasks, t1: Tasks, envs: map<Ptr, Envir>, env: Ptr, root: Ptr, c: Ptr)
    requires EnvOk(tasks, envs) && env in envs && SameButLinks(t1, tasks) && root != c
    requires root in tasks && c in tasks && tasks[root].envir == env && tasks[c].envir == env
    ensures envs[env].count > 1
    ensures EnvOk(t1 - {c}, envs[env := envs[env].(count := envs[env].count - 1)])
  {
    SameHolders(t1, tasks);
    SubsetSize({root, c}, Holders(tasks, env));
    DropHolder(tasks, t1, envs, env, c);
  }

  lemma DropHolder(tasks: Tasks, t1: Tasks, envs: map<Ptr, Envir>, env: Ptr, c: Ptr)
    requires EnvOk(tasks, envs) && env in envs && SameButLinks(t1, tasks) && c in tasks && tasks[c].envir == env
    requires envs[env].count > 1 && forall e :: Holders(t1, e) == Holders(tasks, e)
    ensures EnvOk(t1 - {c}, envs[env := envs[env].(count := envs[env].count - 1)])
  {
    hide Holders;
    forall e
      ensures |Holders(t1 - {c}, e)| == |Holders(tasks, e)| - (if e == env then 1 else 0)
    {
      HoldersRemove(t1, c, e);
    }
  }

  lemma {:induction false} SubsetSize(a: set<Ptr>, b: set<Ptr>)
    requires a <= b
    ensures |a| <= |b|
  {
    if a != {} {
      var x :| x in a;
      SubsetSize(a - {x}, b - {x});
    }
  }

  /** With no descendant left, root is the only holder; its destruction frees the
      environment, and exactly the family is gone. */
  lemma SweepEnd(was: Tasks, envs0: map<Ptr, Envir>, tasks: Tasks, envs: map<Ptr, Envir>,
                 root: Ptr, env: Ptr, done: seq<Ptr>)
    requires Sweeping(was, envs0, tasks, envs, root, env, done, [])
    requires forall x :: x in was && was[x].envir == env ==> x == root || x in done
    ensures root in tasks && env in envs && envs[env].count == 1 && tasks[root].envir == env && tasks[root].rb == None
    ensures tasks - {root} == was - Elements([root] + done) && envs - {env} == envs0 - {env}
  {
    assert root in [root] + [];
    forall x | x in Holders(tasks, env)
      ensures x == root
    {
      assert was[x].envir == env;
    }
    assert Holders(tasks, env) == {root};
    assert Elements([root] + done) == {root} + Elements(done);
  }

  /** The rest of the world after a whole family, none of it alive, has been removed. */
  lemma FamilyGone(tasks: Tasks, fams: map<Ptr, Family>, rootOf: map<Ptr, Ptr>, root: Ptr)
    requires FamilyOk(tasks, fams, rootOf) && SharedOk(tasks, fams, rootOf) && root in fams
    ensures var gone := Elements(Preorder(fams[root].tree));
      && FamilyOk(tasks - gone, fams - {root}, rootOf - gone)
      && SharedOk(tasks - gone, fams - {root}, rootOf - gone)
      && (forall x :: x in tasks ==> (x in gone <==> rootOf[x] == root))
      && (forall x :: x in tasks ==> (x in gone <==> tasks[x].envir == fams[root].env))
  {
    hide Preorder, Ring, Degree, DegreeAt;
    var gone := Elements(Preorder(fams[root].tree));
    forall x | x in tasks
      ensures x in gone <==> rootOf[x] == root
      ensures x in gone <==> tasks[x].envir == fams[root].env
    {
      assert InFamily(x, fams, rootOf[x]);
      assert SharedAt(tasks[x], x, fams, rootOf);
    }
    var left, g, roots := tasks - gone, fams - {root}, rootOf - gone;
    forall r | r in g
      ensures Ring(left, Preorder(g[r].tree))
    {
      forall x | x in Preorder(g[r].tree)
        ensures x in left
      {
        assert rootOf[x] == r;
      }
      RingFrame(tasks, left, Preorder(g[r].tree));
    }
    GoneMembers(tasks, fams, rootOf, root, gone);
    forall t | t in left
      ensures DegreeAt(left, g, roots, t) && SharedAt(left[t], t, g, roots)
    {
      DegreeGone(tasks, left, fams, g, rootOf, roots, t);
      assert SharedAt(tasks[t], t, fams, rootOf);
    }
  }

  lemma DegreeGone(a: Tasks, b: Tasks, fams: map<Ptr, Family>, g: map<Ptr, Family>,
                   rootOf: map<Ptr, Ptr>, roots: map<Ptr, Ptr>, t: Ptr)
    requires t in a && t in b && a[t] == b[t] && DegreeAt(a, fams, rootOf, t)
    requires t in roots && roots[t] == rootOf[t] && roots[t] in g && g[roots[t]] == fams[roots[t]]
    ensures DegreeAt(b, g, roots, t)
  {
  }

  lemma GoneMembers(tasks: Tasks, fams: map<Ptr, Family>, rootOf: map<Ptr, Ptr>, root: Ptr, gone: set<Ptr>)
    requires Members(tasks.Keys, fams, rootOf)
    requires forall x :: x in tasks ==> (x in gone <==> rootOf[x] == root)
    ensures Members((tasks - gone).Keys, fams - {root}, rootOf - gone)
  {
    hide Preorder;
    var left, g, roots := tasks - gone, fams - {root}, rootOf - gone;
    forall t | t in left.Keys
      ensures InFamily(t, g, roots[t])
    {
      assert InFamily(t, fams, rootOf[t]);
    }
  }

  lemma RefsGone(tasks: Tasks, envs: map<Ptr, Envir>, rbs: map<Ptr, Rb>, env: Ptr, gone: set<Ptr>)
    requires EnvOk(tasks, envs) && RbOk(tasks, rbs)
    requires forall x :: x in tasks ==> (x in gone <==> tasks[x].envir == env)
    requires forall x :: x in gone && x in tasks ==> tasks[x].rb == None
    ensures EnvOk(tasks - gone, envs - {env}) && RbOk(tasks - gone, rbs)
  {
    forall e | e in envs && e != env
      ensures Holders(tasks - gone, e) == Holders(tasks, e)
    {
    }
    forall b | b in rbs
      ensures Writers(tasks - gone, b) == Writers(tasks, b)
    {
    }
  }

  lemma ListsGone(tasks: Tasks, pending: set<Ptr>, cpuOf: map<Proc, Cpu>, waitList: seq<Ptr>,
                  cpuList: seq<seq<Ptr>>, gone: set<Ptr>)
    requires ListsOk(tasks, pending, cpuOf, waitList, cpuList) && LiveOk(tasks, cpuOf, |cpuList|)
    requires forall x :: x in gone && x in tasks ==> tasks[x].p == None
    ensures ListsOk(tasks - gone, pending, cpuOf, waitList, cpuList) && LiveOk(tasks - gone, cpuOf, |cpuList|)
  {
    assert Waiting(tasks - gone, pending) == Waiting(tasks, pending);
    forall c | 0 <= c < |cpuList|
      ensures RunningOn(tasks - gone, pending, cpuOf, c) == RunningOn(tasks, pending, cpuOf, c)
    {
    }
  }

  /** Once the ring buffer has no writer, nobody in the family is alive or on any list. */
  lemma QuietFamily(tasks: Tasks, fams: map<Ptr, Family>, rootOf: map<Ptr, Ptr>, rbs: map<Ptr, Rb>,
                    pending: set<Ptr>, cpuOf: map<Proc, Cpu>, waitList: seq<Ptr>, cpuList: seq<seq<Ptr>>, root: Ptr)
    requires FamilyOk(tasks, fams, rootOf) && SharedOk(tasks, fams, rootOf) && RbOk(tasks, rbs)
    requires ListsOk(tasks, pending, cpuOf, waitList, cpuList) && LiveOk(tasks, cpuOf, |cpuList|)
    requires root in fams && fams[root].ring in rbs && rbs[fams[root].ring].active == 0
    ensures forall x :: x in Preorder(fams[root].tree) ==>
      x in tasks && tasks[x].p == None && tasks[x].rb == None
      && x !in waitList && forall c :: 0 <= c < |cpuList| ==> x !in cpuList[c]
  {
    hide Preorder, Ring, Degree;
    forall x | x in Preorder(fams[root].tree)
      ensures x in tasks && tasks[x].p == None && tasks[x].rb == None
        && x !in waitList && forall c :: 0 <= c < |cpuList| ==> x !in cpuList[c]
    {
      assert rootOf[x] == root && SharedAt(tasks[x], x, fams, rootOf);
      if tasks[x].rb.Some? {
        LiveWriter(tasks, rbs, x);
      }
      assert x !in Waiting(tasks, pending);
      assert forall c :: x !in RunningOn(tasks, pending, cpuOf, c);
    }
  }

  // ---- names, and what stat mode switches off ----

  /** A live task's pid is its process's. */
  ghost predicate Named(tasks: Tasks, pidOf: map<Proc, nat>, cpuOf: map<Proc, Cpu>) {
    && pidOf.Keys == cpuOf.Keys
    && forall t :: t in tasks && tasks[t].p.Some? ==>
         tasks[t].p.value in pidOf && tasks[t].pid == pidOf[tasks[t].p.value]
  }

  lemma NamedSpawn(tasks: Tasks, pidOf: map<Proc, nat>, cpuOf: map<Proc, Cpu>, p: Proc, pid: nat, cpu: Cpu)
    requires Named(tasks, pidOf, cpuOf) && p !in cpuOf
    ensures Named(tasks, pidOf[p := pid], cpuOf[p := cpu])
  {
  }

  lemma NamedAdd(tasks: Tasks, b: Tasks, pidOf: map<Proc, nat>, cpuOf: map<Proc, Cpu>, t: Ptr, task: Task)
    requires Named(tasks, pidOf, cpuOf) && t !in tasks && SameButRing(b, tasks[t := task])
    requires task.p.Some? && task.p.value in pidOf && task.pid == pidOf[task.p.value]
    ensures Named(b, pidOf, cpuOf)
  {
    assert forall u :: u in b ==> b[u].p == tasks[t := task][u].p && b[u].pid == tasks[t := task][u].pid;
  }

  lemma NamedExit(tasks: Tasks, pidOf: map<Proc, nat>, cpuOf: map<Proc, Cpu>, n: nat, t: Ptr, p: Proc)
    requires Named(tasks, pidOf, cpuOf) && LiveOk(tasks, cpuOf, n) && t in tasks && tasks[t].p == Some(p)
    ensures Named(tasks[t := tasks[t].(p := None, rb := None)], pidOf - {p}, cpuOf - {p})
    ensures p in pidOf && tasks[t].pid == pidOf[p]
  {
    assert (pidOf - {p}).Keys == pidOf.Keys - {p} && (cpuOf - {p}).Keys == cpuOf.Keys - {p};
  }

  lemma NamedReap(tasks: Tasks, pidOf: map<Proc, nat>, cpuOf: map<Proc, Cpu>, p: Proc)
    requires Named(tasks, pidOf, cpuOf) && forall t :: t in tasks ==> tasks[t].p != Some(p)
    ensures Named(tasks, pidOf - {p}, cpuOf - {p})
  {
    assert (pidOf - {p}).Keys == pidOf.Keys - {p} && (cpuOf - {p}).Keys == cpuOf.Keys - {p};
  }

  lemma NamedMove(tasks: Tasks, pidOf: map<Proc, nat>, cpuOf: map<Proc, Cpu>, p: Proc, dest: Cpu)
    requires Named(tasks, pidOf, cpuOf) && p in cpuOf
    ensures Named(tasks, pidOf, cpuOf[p := dest])
    ensures forall t :: t in tasks && tasks[t].p == Some(p) ==> p in pidOf && tasks[t].pid == pidOf[p]
  {
    assert cpuOf[p := dest].Keys == cpuOf.Keys;
  }

  lemma NamedLess(tasks: Tasks, pidOf: map<Proc, nat>, cpuOf: map<Proc, Cpu>, gone: set<Ptr>)
    requires Named(tasks, pidOf, cpuOf)
    ensures Named(tasks - gone, pidOf, cpuOf)
  {
  }

  /** In stat mode there is nothing to sample at forks, migrations and switches. */
  ghost predicate StatOk(envs: map<Ptr, Envir>) {
    forall e :: e in envs ==> Quiescent(envs[e].options)
  }

  predicate Quiescent(o: Options) {
    o.stat ==> !o.rapl && !o.cpu && !o.fork && !o.sched
  }

  lemma StatCreate(envs: map<Ptr, Envir>, e: Ptr, user: Envir)
    requires StatOk(envs)
    ensures StatOk(envs[e := CreateEnvir(user)])
  {
  }

  lemma StatCount(envs: map<Ptr, Envir>, e: Ptr, count: int)
    requires StatOk(envs) && e in envs
    ensures StatOk(envs[e := envs[e].(count := count)])
  {
  }

  lemma StatLess(envs: map<Ptr, Envir>, e: Ptr)
    requires StatOk(envs)
    ensures StatOk(envs - {e})
  {
  }

  // ---- looking up the task of a process ----

  ghost function TaskOf(tasks: Tasks, p: Proc): Option<Ptr> {
    if exists t :: t in tasks && tasks[t].p == Some(p)
    then var t :| t in tasks && tasks[t].p == Some(p); Some(t)
    else None
  }

  // ---- what has been done to a ring buffer ----

  /** From its first reference on, a ring buffer is written to, held once more, or let go. */
  datatype Use = WriteUse(m: Msg) | GetUse | ReleaseUse

  predicate Permitted(b: Rb, use: Use) {
    b.active > 0 && use != WriteUse(EofMsg)
  }

  function After(b: Rb, use: Use): Rb
    requires Permitted(b, use)
  {
    match use
    case WriteUse(m) => b.(log := b.log + [m])
    case GetUse => b.(active := b.active + 1)
    case ReleaseUse => Release(b)
  }

  /** The outcome of a history, or None if it asks for something of a ring buffer that nobody
      holds. */
  function Play(uses: seq<Use>): Option<Rb> {
    if uses == [] then Some(Rb(1, []))
    else
      var b := Play(uses[..|uses| - 1]);
      if b.None? || !Permitted(b.value, uses[|uses| - 1]) then None
      else Some(After(b.value, uses[|uses| - 1]))
  }

  /** The samples a history has written. */
  function Messages(uses: seq<Use>): seq<Msg> {
    if uses == [] then []
    else
      var last := uses[|uses| - 1];
      Messages(uses[..|uses| - 1]) + if last.WriteUse? then [last.m] else []
  }

  function Count(uses: seq<Use>, use: Use): nat {
    if uses == [] then 0 else Count(uses[..|uses| - 1], use) + if uses[|uses| - 1] == use then 1 else 0
  }

  /** What is in the ring buffer in the end is everything written, in order, with EOF behind it
      once everybody has let go; and who holds it is who has taken it and not let go. */
  lemma {:induction false} PlayLog(uses: seq<Use>)
    requires Play(uses).Some?
    ensures var b := Play(uses).value;
      && b.log == Messages(uses) + (if b.active == 0 then [EofMsg] else [])
      && b.active == 1 + Count(uses, GetUse) - Count(uses, ReleaseUse)
  {
    if uses == [] {
      assert Messages(uses) + [] == [];
    } else {
      var before, last := uses[..|uses| - 1], uses[|uses| - 1];
      PlayLog(before);
      assert Messages(before) + [] == Messages(before);
      assert Messages(uses) + [] == Messages(uses);
    }
  }

  /** Every ring buffer in use is what its history has made of it. */
  ghost predicate UsesOk(rbs: map<Ptr, Rb>, uses: map<Ptr, seq<Use>>) {
    forall b :: b in rbs && Used(rbs[b]) ==> b in uses && Play(uses[b]) == Some(rbs[b])
  }

  lemma UseMore(rbs: map<Ptr, Rb>, uses: map<Ptr, seq<Use>>, b: Ptr, use: Use)
    requires UsesOk(rbs, uses) && b in rbs && Permitted(rbs[b], use)
    ensures b in uses && UsesOk(rbs[b := After(rbs[b], use)], uses[b := uses[b] + [use]])
  {
    assert (uses[b] + [use])[..|uses[b]|] == uses[b];
  }

  lemma UseFirst(rbs: map<Ptr, Rb>, uses: map<Ptr, seq<Use>>, b: Ptr)
    requires UsesOk(rbs, uses)
    ensures UsesOk(rbs[b := Rb(1, [])], uses[b := []])
    ensures UsesOk(rbs[b := Rb(0, [])], uses)
  {
  }

  lemma NewRbOk(tasks: Tasks, rbs: map<Ptr, Rb>, b: Ptr)
    requires RbOk(tasks, rbs) && b !in rbs
    ensures RbOk(tasks, rbs[b := Rb(0, [])])
    ensures Writers(tasks, b) == {}
  {
    assert Writers(tasks, b) == {};
  }

  lemma SpawnLists(tasks: Tasks, pending: set<Ptr>, cpuOf: map<Proc, Cpu>, waitList: seq<Ptr>,
                   cpuList: seq<seq<Ptr>>, p: Proc, cpu: Cpu)
    requires ListsOk(tasks, pending, cpuOf, waitList, cpuList) && LiveOk(tasks, cpuOf, |cpuList|)
    requires p !in cpuOf && cpu < |cpuList|
    ensures ListsOk(tasks, pending, cpuOf[p := cpu], waitList, cpuList) && LiveOk(tasks, cpuOf[p := cpu], |cpuList|)
  {
    forall c | 0 <= c < |cpuList|
      ensures RunningOn(tasks, pending, cpuOf[p := cpu], c) == RunningOn(tasks, pending, cpuOf, c)
    {
    }
  }

  /** A process without a monitored task dies. */
  lemma ReapLists(tasks: Tasks, pending: set<Ptr>, cpuOf: map<Proc, Cpu>, waitList: seq<Ptr>,
                  cpuList: seq<seq<Ptr>>, p: Proc)
    requires ListsOk(tasks, pending, cpuOf, waitList, cpuList) && LiveOk(tasks, cpuOf, |cpuList|)
    requires forall t :: t in tasks ==> tasks[t].p != Some(p)
    ensures ListsOk(tasks, pending, cpuOf - {p}, waitList, cpuList) && LiveOk(tasks, cpuOf - {p}, |cpuList|)
  {
    forall c | 0 <= c < |cpuList|
      ensures RunningOn(tasks, pending, cpuOf - {p}, c) == RunningOn(tasks, pending, cpuOf, c)
    {
    }
  }

  /** Where the task of a live process is: on the wait list if it has not exec'd, and
      otherwise on the list of the process's CPU. */
  lemma Whereabouts(tasks: Tasks, pending: set<Ptr>, cpuOf: map<Proc, Cpu>, waitList: seq<Ptr>,
                    cpuList: seq<seq<Ptr>>, p: Proc)
    requires ListsOk(tasks, pending, cpuOf, waitList, cpuList) && LiveOk(tasks, cpuOf, |cpuList|)
    requires p in cpuOf
    ensures cpuOf[p] < |cpuList|
    ensures forall x :: x in waitList ==> x in tasks && x in pending && tasks[x].p.Some?
    ensures forall x :: x in cpuList[cpuOf[p]] ==> x in tasks && x !in pending && tasks[x].p.Some?
    ensures forall t :: t in tasks && tasks[t].p == Some(p) ==>
      && TaskOf(tasks, p) == Some(t)
      && (t in waitList <==> t in pending) && (t in cpuList[cpuOf[p]] <==> t !in pending)
  {
    assert forall x :: x in waitList <==> x in Waiting(tasks, pending);
    assert forall x :: x in cpuList[cpuOf[p]] <==> x in RunningOn(tasks, pending, cpuOf, cpuOf[p]);
  }
}
