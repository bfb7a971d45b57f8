/** The directory walker (WalkDirs.h): an iterator that keeps a stack of the
    directories it is in, checked against the recursive pre-order listing. */
module DirWalks {
  import opened Options

  /** What a name stands for.  The tree does not change during a walk. */
  datatype Node = Symlink | File | Dir(entries: seq<Entry>)

  datatype Entry = Entry(name: string, node: Node)

  type Path = seq<string>

  predicate DistinctNames(t: Node)
    decreases t
  {
    t.Dir? ==>
      && (forall i, j | 0 <= i < j < |t.entries| :: t.entries[i].name != t.entries[j].name)
      && (forall i | 0 <= i < |t.entries| :: DistinctNames(t.entries[i].node))
  }

  /** The subdirectories among the entries, and the names of those entries that
      are neither directories nor symbolic links. */
  function Subdirs(es: seq<Entry>): seq<Entry> {
    if es == [] then []
    else Subdirs(es[..|es| - 1]) + if es[|es| - 1].node.Dir? then [es[|es| - 1]] else []
  }

  function Files(es: seq<Entry>): seq<string> {
    if es == [] then []
    else Files(es[..|es| - 1]) + if es[|es| - 1].node.File? then [es[|es| - 1].name] else []
  }

  lemma {:induction false} SubdirsMembers(es: seq<Entry>)
    ensures forall e :: e in Subdirs(es) <==> e in es && e.node.Dir?
  {
    if es != [] {
      SubdirsMembers(es[..|es| - 1]);
    }
  }

  lemma {:induction false} FilesMembers(es: seq<Entry>)
    ensures forall n :: n in Files(es) <==> exists e | e in es :: e.node.File? && e.name == n
  {
    if es != [] {
      FilesMembers(es[..|es| - 1]);
    }
  }

  lemma SubdirIsEntry(es: seq<Entry>, i: nat)
    requires i < |Subdirs(es)|
    ensures Subdirs(es)[i] in es && Subdirs(es)[i].node.Dir?
  {
    SubdirsMembers(es);
    assert Subdirs(es)[i] in Subdirs(es);
  }

  function Names(es: seq<Entry>): (r: seq<string>)
    ensures |r| == |es| && forall i | 0 <= i < |es| :: r[i] == es[i].name
  {
    seq(|es|, i requires 0 <= i < |es| => es[i].name)
  }

  /** What the walker shows at one position. */
  datatype Visit = Visit(dir: Path, dirs: seq<string>, files: seq<string>)

  function Here(dir: Path, t: Node): Visit
    requires t.Dir?
  {
    Visit(dir, Names(Subdirs(t.entries)), Files(t.entries))
  }

  /** The pre-order listing of a directory. */
  function Preorder(dir: Path, t: Node): (r: seq<Visit>)
    requires t.Dir?
    ensures r != [] && r[0] == Here(dir, t)
    decreases t, 1
  {
    [Here(dir, t)] + Below(dir, t, 0)
  }

  /** The listings of the subdirectories of t from the next-th one. */
  function Below(dir: Path, t: Node, next: nat): seq<Visit>
    requires t.Dir? && next <= |Subdirs(t.entries)|
    decreases t, 0, |Subdirs(t.entries)| - next
  {
    var ds := Subdirs(t.entries);
    if next == |ds| then []
    else
      SubdirIsEntry(t.entries, next);
      Preorder(dir + [ds[next].name], ds[next].node) + Below(dir, t, next + 1)
  }

  // ----- paths

  /** The node a path leads to, if it leads through directories only. */
  function Lookup(t: Node, path: Path): Option<Node>
    decreases |path|
  {
    if path == [] then Some(t)
    else
      var up := Lookup(t, path[..|path| - 1]);
      if up.Some? && up.value.Dir? then Find(up.value.entries, path[|path| - 1]) else None
  }

  function Find(es: seq<Entry>, name: string): Option<Node> {
    if es == [] then None
    else if es[|es| - 1].name == name then Some(es[|es| - 1].node)
    else Find(es[..|es| - 1], name)
  }

  lemma {:induction false} FindEntry(es: seq<Entry>, i: nat)
    requires i < |es| && forall j, k | 0 <= j < k < |es| :: es[j].name != es[k].name
    ensures Find(es, es[i].name) == Some(es[i].node)
  {
    if i < |es| - 1 {
      FindEntry(es[..|es| - 1], i);
    }
  }

  predicate IsDir(t: Node, path: Path) {
    var n := Lookup(t, path);
    n.Some? && n.value.Dir?
  }

  function DirAt(t: Node, path: Path): Node
    requires IsDir(t, path)
  {
    Lookup(t, path).value
  }

  lemma {:induction false} LookupDistinct(t: Node, path: Path)
    requires DistinctNames(t) && Lookup(t, path).Some?
    ensures DistinctNames(Lookup(t, path).value)
  {
    if path != [] {
      var up := Lookup(t, path[..|path| - 1]);
      LookupDistinct(t, path[..|path| - 1]);
      FindIsEntry(up.value.entries, path[|path| - 1]);
    }
  }

  lemma {:induction false} FindIsEntry(es: seq<Entry>, name: string)
    requires Find(es, name).Some?
    ensures exists i :: 0 <= i < |es| && es[i].name == name && es[i].node == Find(es, name).value
  {
    if es[|es| - 1].name != name {
      FindIsEntry(es[..|es| - 1], name);
    }
  }

  /** The next-th subdirectory of a directory, reached by its name. */
  lemma LookupSubdir(t: Node, path: Path, next: nat)
    requires DistinctNames(t) && IsDir(t, path) && next < |Subdirs(DirAt(t, path).entries)|
    ensures var d := Subdirs(DirAt(t, path).entries)[next];
      d.node.Dir? && IsDir(t, path + [d.name]) && DirAt(t, path + [d.name]) == d.node
  {
    LookupDistinct(t, path);
    var es := DirAt(t, path).entries;
    var d := Subdirs(es)[next];
    SubdirIsEntry(es, next);
    var i :| 0 <= i < |es| && es[i] == d;
    FindEntry(es, i);
    assert (path + [d.name])[..|path|] == path;
  }

  // ----- the stack

  datatype DirState = DirState(dir: Path, dirs: seq<string>, next: nat)

  /** A frame describes the directory it names. */
  predicate FrameInv(t: Node, f: DirState) {
    && IsDir(t, f.dir)
    && f.dirs == Names(Subdirs(DirAt(t, f.dir).entries))
    && f.next <= |f.dirs|
  }

  ghost predicate StackInv(t: Node, state: seq<DirState>) {
    forall i | 0 <= i < |state| :: FrameInv(t, state[i])
  }

  /** Each frame below the top was left at the subdirectory above it. */
  predicate Nested(state: seq<DirState>) {
    state == [] ||
    var init, top := state[..|state| - 1], state[|state| - 1];
    if init == [] then top.dir == []
    else
      var up := init[|init| - 1];
      Nested(init) && 0 < up.next <= |up.dirs| && top.dir == up.dir + [up.dirs[up.next - 1]]
  }

  lemma {:induction false} SubdirNames(es: seq<Entry>)
    requires forall i, j | 0 <= i < j < |es| :: es[i].name != es[j].name
    ensures forall i, j | 0 <= i < j < |Subdirs(es)| :: Subdirs(es)[i].name != Subdirs(es)[j].name
  {
    if es != [] {
      var init, e := es[..|es| - 1], es[|es| - 1];
      SubdirNames(init);
      SubdirsMembers(init);
      forall d | d in Subdirs(init)
        ensures d.name != e.name
      {
        assert d in init;
      }
    }
  }

  /** The directory on top and the position in it determine the stack, so
      operator== holds exactly between walkers at the same place. */
  lemma {:induction false} TopDetermines(t: Node, a: seq<DirState>, b: seq<DirState>)
    requires DistinctNames(t) && a != [] && b != []
    requires StackInv(t, a) && StackInv(t, b) && Nested(a) && Nested(b)
    ensures a[|a| - 1].dir == b[|b| - 1].dir && a[|a| - 1].next == b[|b| - 1].next <==> a == b
  {
    hide Nested, DistinctNames, IsDir, Lookup, Subdirs;
    DepthOfDir(a);
    DepthOfDir(b);
    var topA, topB := a[|a| - 1], b[|b| - 1];
    if topA.dir == topB.dir && topA.next == topB.next {
      assert FrameInv(t, topA) && FrameInv(t, topB);
      hide StackInv;
      assert topA == topB;
      hide FrameInv;
      if |a| > 1 {
        UnderTop(t, a, b);
        TopDetermines(t, a[..|a| - 1], b[..|b| - 1]);
      }
      hide *;
      assert a == a[..|a| - 1] + [topA] && b == b[..|b| - 1] + [topB];
    }
  }

  lemma UnderTop(t: Node, a: seq<DirState>, b: seq<DirState>)
    requires DistinctNames(t) && |a| == |b| > 1 && a[|a| - 1].dir == b[|b| - 1].dir
    requires StackInv(t, a) && StackInv(t, b) && Nested(a) && Nested(b)
    ensures a[|a| - 2] == b[|b| - 2]
    ensures StackInv(t, a[..|a| - 1]) && StackInv(t, b[..|b| - 1]) && Nested(a[..|a| - 1]) && Nested(b[..|b| - 1])
  {
    hide StackInv, DistinctNames, FrameInv, Nested;
    NestedTop(t, a);
    NestedTop(t, b);
    SameSubdir(t, a[|a| - 2], b[|b| - 2]);
  }

  lemma NestedTop(t: Node, a: seq<DirState>)
    requires StackInv(t, a) && Nested(a) && |a| > 1
    ensures var init := a[..|a| - 1];
      var up := init[|init| - 1];
      && StackInv(t, init) && Nested(init) && FrameInv(t, up)
      && 0 < up.next <= |up.dirs| && a[|a| - 1].dir == up.dir + [up.dirs[up.next - 1]]
  {
    hide FrameInv;
  }

  lemma SameSubdir(t: Node, f: DirState, g: DirState)
    requires DistinctNames(t) && FrameInv(t, f) && FrameInv(t, g) && f.next > 0 && g.next > 0
    requires f.dir + [f.dirs[f.next - 1]] == g.dir + [g.dirs[g.next - 1]]
    ensures f == g
  {
    var p, q := f.dir + [f.dirs[f.next - 1]], g.dir + [g.dirs[g.next - 1]];
    assert p[..|p| - 1] == f.dir && q[..|q| - 1] == g.dir;
    assert p[|p| - 1] == q[|q| - 1];
    LookupDistinct(t, f.dir);
    SubdirNames(DirAt(t, f.dir).entries);
    hide Lookup, Subdirs, DistinctNames;
  }

  lemma {:induction false} DepthOfDir(state: seq<DirState>)
    requires Nested(state) && state != []
    ensures |state[|state| - 1].dir| == |state| - 1
  {
    if |state| > 1 {
      DepthOfDir(state[..|state| - 1]);
    }
  }

  /** The visits that a frame still leads to. */
  function FrameVisits(t: Node, f: DirState): seq<Visit> {
    if FrameInv(t, f) then Below(f.dir, DirAt(t, f.dir), f.next) else []
  }

  /** The visits still to come, the top of the stack being last. */
  function Remaining(t: Node, state: seq<DirState>): seq<Visit> {
    if state == [] then []
    else FrameVisits(t, state[|state| - 1]) + Remaining(t, state[..|state| - 1])
  }

  function Fresh(t: Node, dir: Path): DirState
    requires IsDir(t, dir)
  {
    DirState(dir, Names(Subdirs(DirAt(t, dir).entries)), 0)
  }

  function Advanced(f: DirState): DirState {
    f.(next := f.next + 1)
  }

  function Sub(f: DirState): Path
    requires f.next < |f.dirs|
  {
    f.dir + [f.dirs[f.next]]
  }

  lemma LeftFrame(t: Node, f: DirState)
    requires FrameInv(t, f) && f.next == |f.dirs|
    ensures FrameVisits(t, f) == []
  {
  }

  /** The next subdirectory of a frame takes over the first of its visits. */
  lemma EnterSub(t: Node, f: DirState)
    requires DistinctNames(t) && FrameInv(t, f) && f.next < |f.dirs|
    ensures IsDir(t, Sub(f)) && FrameInv(t, Fresh(t, Sub(f))) && FrameInv(t, Advanced(f))
    ensures FrameVisits(t, f) ==
            [Here(Sub(f), DirAt(t, Sub(f)))] + FrameVisits(t, Fresh(t, Sub(f))) + FrameVisits(t, Advanced(f))
  {
    LookupSubdir(t, f.dir, f.next);
    var d := DirAt(t, Sub(f));
    assert FrameVisits(t, f) == Preorder(Sub(f), d) + Below(f.dir, DirAt(t, f.dir), f.next + 1);
    assert Preorder(Sub(f), d) == [Here(Sub(f), d)] + Below(Sub(f), d, 0);
  }

  class WalkDirs {
    /** The file system below the root, read through DirIterator. */
    const tree: Node
    var state: seq<DirState>
    var files: seq<string>

    ghost predicate Valid()
      reads this
    {
      && tree.Dir? && DistinctNames(tree) && StackInv(tree, state) && Nested(state)
      && (state != [] ==> state[|state| - 1].next == 0)
      && (state != [] ==> files == Files(DirAt(tree, state[|state| - 1].dir).entries))
    }

    /** The iterator that stands for the end. */
    constructor Empty(tree: Node)
      requires tree.Dir? && DistinctNames(tree)
      ensures Valid() && this.tree == tree && state == []
    {
      this.tree := tree;
      state, files := [], [];
    }

    constructor (tree: Node)
      requires tree.Dir? && DistinctNames(tree)
      ensures Valid() && this.tree == tree && Rest(state, files, tree) == Preorder([], tree)
    {
      this.tree := tree;
      state, files := [], [];
      new;
      Started(tree);
      hide StackInv, Nested, Remaining, Preorder, Here, DistinctNames;
      assert [] + [Fresh(tree, [])] == [Fresh(tree, [])];
      Push([]);
      assert Preorder([], tree) == [Here([], tree)] + Preorder([], tree)[1..];
    }

    ghost function Current(): Visit
      reads this
      requires state != []
    {
      Visit(state[|state| - 1].dir, state[|state| - 1].dirs, files)
    }

    method Push(dir: Path)
      requires tree.Dir? && DistinctNames(tree) && IsDir(tree, dir)
      requires StackInv(tree, state + [Fresh(tree, dir)]) && Nested(state + [Fresh(tree, dir)])
      modifies this
      ensures Valid() && state == old(state) + [Fresh(tree, dir)]
      ensures Current() == Here(dir, DirAt(tree, dir))
    {
      hide StackInv, Nested, DistinctNames, Lookup, Subdirs, Files;
      var dirs := List(DirAt(tree, dir).entries);
      state := state + [DirState(dir, dirs, 0)];
    }

    /** The loop of push() over the entries of a directory. */
    method List(es: seq<Entry>) returns (dirs: seq<string>)
      modifies this`files
      ensures dirs == Names(Subdirs(es)) && files == Files(es)
    {
      files, dirs := [], [];
      var i := 0;
      while i < |es|
        invariant 0 <= i <= |es|
        invariant dirs == Names(Subdirs(es[..i])) && files == Files(es[..i])
      {
        assert es[..i + 1][..i] == es[..i];
        match es[i].node {
          case Symlink =>
          case Dir(_) =>
            dirs := dirs + [es[i].name];
          case File =>
            files := files + [es[i].name];
        }
        i := i + 1;
      }
      assert es[..i] == es;
    }

    /** operator==: only the top of the stack and its depth are looked at. */
    method Equals(x: WalkDirs) returns (r: bool)
      ensures x.state == [] ==> (r <==> state == [])
      ensures Valid() && x.Valid() && tree == x.tree ==> (r <==> state == x.state)
    {
      if Valid() && x.Valid() && tree == x.tree && state != [] && x.state != [] {
        TopDetermines(tree, state, x.state);
      }
      hide StackInv, Nested, DistinctNames, DirAt, Files;
      if |state| == 0 && |x.state| == 0 {
        return true;
      }
      if |state| != |x.state| {
        return false;
      }
      if state[|state| - 1].dir != x.state[|x.state| - 1].dir {
        return false;
      }
      if state[|state| - 1].next != x.state[|x.state| - 1].next {
        return false;
      }
      return true;
    }

    /** operator++: the walker moves to the first of the visits to come. */
    method Next()
      requires Valid()
      modifies this
      ensures Valid()
      ensures old(Remaining(tree, state)) == [] ==> state == []
      ensures old(Remaining(tree, state)) != [] ==> state != []
      ensures old(Remaining(tree, state)) == Rest(state, files, tree)
    {
      Pop();
      if state != [] {
        ghost var before := state;
        Descend(tree, before);
        DescendNested(tree, before);
        hide StackInv, Remaining, Nested, Here, DistinctNames;
        var top := state[|state| - 1];
        state := state[|state| - 1 := Advanced(top)];
        Push(Sub(top));
      }
    }

    /** The loop of operator++: leave the directories without further
        subdirectories. */
    method Pop()
      requires Valid()
      modifies this`state
      ensures StackInv(tree, state) && Nested(state) && Remaining(tree, state) == old(Remaining(tree, state))
      ensures state != [] ==> state[|state| - 1].next < |state[|state| - 1].dirs|
    {
      hide IsDir, DistinctNames, Subdirs, Lookup, Below, Files;
      while state != []
        invariant StackInv(tree, state) && Nested(state) && Remaining(tree, state) == old(Remaining(tree, state))
        decreases |state|
      {
        var top := state[|state| - 1];
        assert FrameInv(tree, top);
        if top.next < |top.dirs| {
          break;
        }
        LeftFrame(tree, top);
        state := state[..|state| - 1];
      }
    }

    /** The loop for which the iterator is written: walk from the root until
        the iterator equals the empty one. */
    static method Walk(tree: Node) returns (seen: seq<Visit>)
      requires tree.Dir? && DistinctNames(tree)
      ensures seen == Preorder([], tree)
    {
      var i := new WalkDirs(tree);
      var e := new WalkDirs.Empty(tree);
      seen := [];
      hide StackInv, Nested, Remaining, Preorder, DistinctNames, Files, DirAt;
      while true
        invariant i.Valid() && i.tree == tree && fresh(i) && e.state == [] && e != i
        invariant seen + Rest(i.state, i.files, tree) == Preorder([], tree)
        decreases |Rest(i.state, i.files, tree)|
      {
        var done := i.Equals(e);
        if done {
          break;
        }
        seen := seen + [Visit(i.state[|i.state| - 1].dir, i.state[|i.state| - 1].dirs, i.files)];
        i.Next();
      }
    }
  }

  /** The visit at hand and those to come. */
  ghost function Rest(state: seq<DirState>, files: seq<string>, t: Node): seq<Visit> {
    if state == [] then []
    else [Visit(state[|state| - 1].dir, state[|state| - 1].dirs, files)] + Remaining(t, state)
  }

  lemma Started(t: Node)
    requires t.Dir? && DistinctNames(t)
    ensures IsDir(t, []) && DirAt(t, []) == t
    ensures StackInv(t, [Fresh(t, [])]) && Nested([Fresh(t, [])])
    ensures Remaining(t, [Fresh(t, [])]) == Preorder([], t)[1..]
  {
    var f := Fresh(t, []);
    assert [] + [f] == [f];
    RemainingPush(t, [], f);
    assert FrameInv(t, f);
    hide Subdirs, DistinctNames;
  }

  /** The stack once the next subdirectory of its top has been entered. */
  function Entered(t: Node, state: seq<DirState>): seq<DirState>
    requires state != [] && state[|state| - 1].next < |state[|state| - 1].dirs|
    requires IsDir(t, Sub(state[|state| - 1]))
  {
    var top := state[|state| - 1];
    state[|state| - 1 := Advanced(top)] + [Fresh(t, Sub(top))]
  }

  /** Entering the next subdirectory takes one visit off those to come. */
  lemma Descend(t: Node, state: seq<DirState>)
    requires DistinctNames(t) && StackInv(t, state) && state != []
    requires state[|state| - 1].next < |state[|state| - 1].dirs|
    ensures var sub := Sub(state[|state| - 1]);
      && IsDir(t, sub)
      && StackInv(t, Entered(t, state))
      && Remaining(t, state) == [Here(sub, DirAt(t, sub))] + Remaining(t, Entered(t, state))
  {
    hide Remaining, FrameVisits, Lookup, Subdirs, DistinctNames, Here;
    var top, init := state[|state| - 1], state[..|state| - 1];
    assert FrameInv(t, top) && state == init + [top];
    EnterSub(t, top);
    RemainingPush(t, init, top);
    hide FrameInv, IsDir, Fresh, Advanced, Sub;
    var mid, fresh' := init + [Advanced(top)], Fresh(t, Sub(top));
    assert Entered(t, state) == mid + [fresh'];
    RemainingPush(t, mid, fresh');
    RemainingPush(t, init, Advanced(top));
    hide Entered, StackInv;
    var h, a := [Here(Sub(top), DirAt(t, Sub(top)))], FrameVisits(t, fresh');
    var b, c := FrameVisits(t, Advanced(top)), Remaining(t, init);
    assert (h + a + b) + c == h + (a + (b + c));
  }

  lemma NestedPush(state: seq<DirState>, f: DirState)
    requires state != [] && Nested(state)
    requires var up := state[|state| - 1]; 0 < up.next <= |up.dirs| && f.dir == up.dir + [up.dirs[up.next - 1]]
    ensures Nested(state + [f])
  {
    assert (state + [f])[..|state|] == state;
  }

  /** Whether a stack is nested does not depend on its top's position. */
  lemma NestedAdvanced(state: seq<DirState>)
    requires state != [] && Nested(state)
    ensures Nested(state[|state| - 1 := Advanced(state[|state| - 1])])
  {
    assert state[|state| - 1 := Advanced(state[|state| - 1])][..|state| - 1] == state[..|state| - 1];
  }

  lemma DescendNested(t: Node, state: seq<DirState>)
    requires StackInv(t, state) && state != [] && Nested(state)
    requires state[|state| - 1].next < |state[|state| - 1].dirs|
    requires IsDir(t, Sub(state[|state| - 1]))
    ensures Nested(Entered(t, state))
  {
    hide Nested, IsDir, StackInv;
    NestedAdvanced(state);
    NestedPush(state[|state| - 1 := Advanced(state[|state| - 1])], Fresh(t, Sub(state[|state| - 1])));
  }

  lemma RemainingPush(t: Node, state: seq<DirState>, f: DirState)
    ensures Remaining(t, state + [f]) == FrameVisits(t, f) + Remaining(t, state)
  {
    assert (state + [f])[..|state|] == state;
  }

  // ----- the listing

  /** The visits are of directories below dir, each shown as it is and once. */
  ghost predicate Lists(t: Node, dir: Path, vs: seq<Visit>) {
    && (forall i | 0 <= i < |vs| ::
          dir <= vs[i].dir && IsDir(t, vs[i].dir) && vs[i] == Here(vs[i].dir, DirAt(t, vs[i].dir)))
    && (forall i, j | 0 <= i < j < |vs| :: vs[i].dir != vs[j].dir)
  }

  lemma {:induction false} PreorderLists(t: Node, dir: Path)
    requires DistinctNames(t) && IsDir(t, dir)
    ensures Lists(t, dir, Preorder(dir, DirAt(t, dir)))
    decreases DirAt(t, dir), 1
  {
    BelowLists(t, dir, 0);
  }

  /** Those from the next-th subdirectory on lie in these subdirectories. */
  ghost predicate InSubdirs(dir: Path, names: seq<string>, vs: seq<Visit>) {
    forall i | 0 <= i < |vs| :: |vs[i].dir| > |dir| && vs[i].dir[|dir|] in names
  }

  lemma ListsConcat(t: Node, dir: Path, name: string, names: seq<string>, a: seq<Visit>, b: seq<Visit>)
    requires Lists(t, dir + [name], a) && Lists(t, dir, b) && InSubdirs(dir, names, b) && name !in names
    ensures Lists(t, dir, a + b) && InSubdirs(dir, [name] + names, a + b)
  {
    hide IsDir, Here;
    assert forall i | 0 <= i < |a| :: dir + [name] <= a[i].dir && a[i].dir[|dir|] == name && dir <= a[i].dir;
  }

  lemma {:induction false} BelowLists(t: Node, dir: Path, next: nat)
    requires DistinctNames(t) && IsDir(t, dir) && next <= |Subdirs(DirAt(t, dir).entries)|
    ensures Lists(t, dir, Below(dir, DirAt(t, dir), next))
    ensures InSubdirs(dir, Names(Subdirs(DirAt(t, dir).entries))[next..], Below(dir, DirAt(t, dir), next))
    decreases DirAt(t, dir), 0, |Subdirs(DirAt(t, dir).entries)| - next
  {
    hide Preorder, Subdirs, Lookup, DistinctNames;
    var ds := Subdirs(DirAt(t, dir).entries);
    if next < |ds| {
      hide Lists, InSubdirs;
      var sub := dir + [ds[next].name];
      BelowNext(t, dir, next);
      hide Below;
      PreorderLists(t, sub);
      BelowLists(t, dir, next + 1);
      hide IsDir;
      ListsConcat(t, dir, ds[next].name, Names(ds)[next + 1..],
                  Preorder(sub, DirAt(t, sub)), Below(dir, DirAt(t, dir), next + 1));
    }
  }

  lemma BelowNext(t: Node, dir: Path, next: nat)
    requires DistinctNames(t) && IsDir(t, dir) && next < |Subdirs(DirAt(t, dir).entries)|
    ensures var ds := Subdirs(DirAt(t, dir).entries);
      var sub := dir + [ds[next].name];
      && IsDir(t, sub) && DirAt(t, sub) < DirAt(t, dir)
      && Below(dir, DirAt(t, dir), next) == Preorder(sub, DirAt(t, sub)) + Below(dir, DirAt(t, dir), next + 1)
      && ds[next].name !in Names(ds)[next + 1..]
      && Names(ds)[next..] == [ds[next].name] + Names(ds)[next + 1..]
  {
    hide Preorder, Lookup, DistinctNames;
    var es := DirAt(t, dir).entries;
    SubdirIsEntry(es, next);
    LookupSubdir(t, dir, next);
    NamesDistinct(t, dir);
    hide Subdirs;
  }

  lemma NamesDistinct(t: Node, dir: Path)
    requires DistinctNames(t) && IsDir(t, dir)
    ensures var ds := Subdirs(DirAt(t, dir).entries);
      forall i, j | 0 <= i < j < |ds| :: ds[i].name != ds[j].name
  {
    LookupDistinct(t, dir);
    SubdirNames(DirAt(t, dir).entries);
  }

  lemma {:induction false} PrefixIsDir(t: Node, path: Path, n: nat)
    requires IsDir(t, path) && n <= |path|
    ensures IsDir(t, path[..n])
  {
    if n < |path| {
      PrefixIsDir(t, path[..|path| - 1], n);
      assert path[..|path| - 1][..n] == path[..n];
    } else {
      assert path[..n] == path;
    }
  }

  lemma {:induction false} BelowContains(dir: Path, t: Node, next: nat, k: nat)
    requires t.Dir? && next <= k < |Subdirs(t.entries)|
    ensures var d := Subdirs(t.entries)[k];
      d.node.Dir? && forall v | v in Preorder(dir + [d.name], d.node) :: v in Below(dir, t, next)
    decreases k - next
  {
    SubdirIsEntry(t.entries, k);
    if next < k {
      BelowContains(dir, t, next + 1, k);
    }
  }

  lemma {:induction false} PreorderComplete(t: Node, dir: Path, path: Path)
    requires DistinctNames(t) && IsDir(t, dir) && IsDir(t, path) && dir <= path
    ensures Here(path, DirAt(t, path)) in Preorder(dir, DirAt(t, dir))
    decreases |path| - |dir|
  {
    if |dir| == |path| {
      assert dir == path;
    } else {
      var sub := path[..|dir| + 1];
      var name := path[|dir|];
      PrefixIsDir(t, path, |dir| + 1);
      assert sub == dir + [name] && sub[..|dir|] == dir;
      PreorderComplete(t, sub, path);
      var es := DirAt(t, dir).entries;
      FindIsEntry(es, name);
      var i :| 0 <= i < |es| && es[i].name == name && es[i].node == DirAt(t, sub);
      SubdirsMembers(es);
      var k :| 0 <= k < |Subdirs(es)| && Subdirs(es)[k] == es[i];
      BelowContains(dir, DirAt(t, dir), 0, k);
    }
  }

  /** The walk shows a directory if and only if a path without symbolic links
      leads to it, shows it once, and shows it as it is. */
  lemma WalkShows(t: Node, path: Path)
    requires t.Dir? && DistinctNames(t)
    ensures var vs := Preorder([], t);
      && (IsDir(t, path) <==> exists i :: 0 <= i < |vs| && vs[i].dir == path)
      && (forall i, j | 0 <= i < |vs| && 0 <= j < |vs| && vs[i].dir == path == vs[j].dir :: i == j)
      && (forall i | 0 <= i < |vs| && vs[i].dir == path :: IsDir(t, path) && vs[i] == Here(path, DirAt(t, path)))
  {
    PreorderLists(t, []);
    var vs := Preorder([], t);
    if IsDir(t, path) {
      PreorderComplete(t, [], path);
      var i :| 0 <= i < |vs| && vs[i] == Here(path, DirAt(t, path));
    }
  }

  // ----- what is shown, and in which order

  /** One name comes before the other in a directory. */
  ghost predicate ComesBefore(es: seq<Entry>, a: string, b: string) {
    exists i, j :: 0 <= i < j < |es| && es[i].name == a && es[j].name == b
  }

  lemma ComesBeforeMore(es: seq<Entry>, e: Entry, a: string, b: string)
    ensures ComesBefore(es, a, b) ==> ComesBefore(es + [e], a, b)
    ensures (exists d :: d in es && d.name == a) ==> ComesBefore(es + [e], a, e.name)
  {
    var all := es + [e];
    if ComesBefore(es, a, b) {
      var i, j :| 0 <= i < j < |es| && es[i].name == a && es[j].name == b;
      assert all[i].name == a && all[j].name == b;
    }
    if d :| d in es && d.name == a {
      var i :| 0 <= i < |es| && es[i] == d;
      assert all[i].name == a && all[|es|].name == e.name;
    }
  }

  /** Subdirectories and files are shown in the order of the directory. */
  lemma {:induction false} InOrder(es: seq<Entry>)
    ensures forall i, j | 0 <= i < j < |Subdirs(es)| :: ComesBefore(es, Subdirs(es)[i].name, Subdirs(es)[j].name)
    ensures forall i, j | 0 <= i < j < |Files(es)| :: ComesBefore(es, Files(es)[i], Files(es)[j])
  {
    if es != [] {
      var init, e := es[..|es| - 1], es[|es| - 1];
      assert es == init + [e];
      InOrder(init);
      SubdirsMembers(init);
      FilesMembers(init);
      hide ComesBefore;
      forall a, b
        ensures ComesBefore(init, a, b) ==> ComesBefore(es, a, b)
        ensures (exists d :: d in init && d.name == a) ==> ComesBefore(es, a, e.name)
      {
        ComesBeforeMore(init, e, a, b);
      }
      var ds, fs := Subdirs(init), Files(init);
      assert forall i | 0 <= i < |ds| :: ds[i] in ds && ds[i] in init;
      assert forall i | 0 <= i < |fs| :: fs[i] in fs;
    }
  }

  /** A directory is shown with the names of exactly those entries that are
      directories and of those that are files, in their order. */
  lemma VisitLists(t: Node, k: nat, name: string)
    requires t.Dir? && DistinctNames(t) && k < |Preorder([], t)|
    ensures var v := Preorder([], t)[k];
      && IsDir(t, v.dir)
      && var es := DirAt(t, v.dir).entries;
         && (name in v.dirs <==> exists e | e in es :: e.node.Dir? && e.name == name)
         && (name in v.files <==> exists e | e in es :: e.node.File? && e.name == name)
         && (forall i, j | 0 <= i < j < |v.dirs| :: ComesBefore(es, v.dirs[i], v.dirs[j]))
         && (forall i, j | 0 <= i < j < |v.files| :: ComesBefore(es, v.files[i], v.files[j]))
  {
    hide DistinctNames, ComesBefore, Subdirs, Files, Preorder;
    PreorderLists(t, []);
    var v := Preorder([], t)[k];
    hide Lookup;
    var es := DirAt(t, v.dir).entries;
    InOrder(es);
    FilesMembers(es);
    SubdirsMembers(es);
    ShownNames(Subdirs(es), name);
  }

  lemma ShownNames(es: seq<Entry>, name: string)
    ensures name in Names(es) <==> exists e | e in es :: e.name == name
  {
    if e :| e in es && e.name == name {
      var i :| 0 <= i < |es| && es[i] == e;
      assert Names(es)[i] == name;
    }
  }

  /** p is shown before q: it lies above q, or where their paths part its name
      comes before that of q. */
  ghost predicate Earlier(t: Node, p: Path, q: Path) {
    || p < q
    || exists k :: Parts(t, p, q, k)
  }

  ghost predicate Parts(t: Node, p: Path, q: Path, k: nat) {
    && k < |p| && k < |q| && p[..k] == q[..k] && IsDir(t, p[..k])
    && ComesBefore(DirAt(t, p[..k]).entries, p[k], q[k])
  }

  ghost predicate Sorted(t: Node, vs: seq<Visit>) {
    forall i, j | 0 <= i < j < |vs| :: Earlier(t, vs[i].dir, vs[j].dir)
  }

  lemma SortedConcat(t: Node, dir: Path, next: nat, a: seq<Visit>, b: seq<Visit>)
    requires IsDir(t, dir) && next < |Subdirs(DirAt(t, dir).entries)| && Sorted(t, a) && Sorted(t, b)
    requires var ns := Names(Subdirs(DirAt(t, dir).entries));
      && (forall i | 0 <= i < |a| :: dir + [ns[next]] <= a[i].dir)
      && (forall j | 0 <= j < |b| :: dir <= b[j].dir) && InSubdirs(dir, ns[next + 1..], b)
    ensures Sorted(t, a + b)
  {
    hide Subdirs, Lookup, ComesBefore;
    var es := DirAt(t, dir).entries;
    var ns := Names(Subdirs(es));
    InOrder(es);
    forall i, j | 0 <= i < |a| && 0 <= j < |b|
      ensures Earlier(t, a[i].dir, b[j].dir)
    {
      var p, q := a[i].dir, b[j].dir;
      var m :| next < m < |ns| && ns[m] == q[|dir|];
      assert p[..|dir|] == dir == q[..|dir|] && p[|dir|] == ns[next];
      assert Parts(t, p, q, |dir|);
    }
    hide Earlier;
  }

  lemma {:induction false} BelowSorted(t: Node, dir: Path, next: nat)
    requires DistinctNames(t) && IsDir(t, dir) && next <= |Subdirs(DirAt(t, dir).entries)|
    ensures Sorted(t, Below(dir, DirAt(t, dir), next))
    decreases DirAt(t, dir), 0, |Subdirs(DirAt(t, dir).entries)| - next
  {
    hide Preorder, Subdirs, Lookup, DistinctNames, Earlier;
    var ds := Subdirs(DirAt(t, dir).entries);
    if next < |ds| {
      hide Sorted, InSubdirs;
      var sub := dir + [ds[next].name];
      BelowNext(t, dir, next);
      BelowLists(t, dir, next + 1);
      hide Below;
      PreorderLists(t, sub);
      PreorderSorted(t, sub);
      BelowSorted(t, dir, next + 1);
      hide IsDir, Here;
      SortedConcat(t, dir, next, Preorder(sub, DirAt(t, sub)), Below(dir, DirAt(t, dir), next + 1));
    }
  }

  lemma {:induction false} PreorderSorted(t: Node, dir: Path)
    requires DistinctNames(t) && IsDir(t, dir)
    ensures Sorted(t, Preorder(dir, DirAt(t, dir)))
    decreases DirAt(t, dir), 1
  {
    BelowSorted(t, dir, 0);
    BelowLists(t, dir, 0);
    hide Below, DistinctNames, IsDir, Here, Subdirs;
    var below := Below(dir, DirAt(t, dir), 0);
    forall j | 0 <= j < |below|
      ensures Earlier(t, dir, below[j].dir)
    {
    }
    hide Earlier;
  }

  /** The walk is in pre-order: a directory comes before all that lies below it,
      and all below it before the next directory beside it. */
  lemma WalkOrder(t: Node)
    requires t.Dir? && DistinctNames(t)
    ensures var vs := Preorder([], t);
      && vs[0].dir == [] && forall i, j | 0 <= i < j < |vs| :: Earlier(t, vs[i].dir, vs[j].dir)
  {
    hide Earlier;
    PreorderSorted(t, []);
  }
}
