/**
 The options of servers, clients and sessions: objects linked into a forest, in which setting an option sets
 it on the whole subtree and linking copies the options downwards.
 */
module OptionsForest {

  // Callbacks, TLS options and accept aspects are only passed on; numbers stand for them.
  datatype Opts = Opts(
    connectCb: int, receiveCb: int, disconnectCb: int, listenBacklog: int, sndTimeout: int, packSize: int,
    packShrink: int, packHard: int, maxConnection: int, ssl: int, acceptAspect: int)

  // The eleven setters.
  datatype Change =
    | ConnectedCb(v: int) | ReceiveCb(v: int) | DisconnectedCb(v: int) | ListenBacklog(v: int)
    | SndTimeout(v: int) | MaxPackSize(v: int) | MaxPackSizeShrink(v: int) | MaxPackSizeHard(v: int)
    | MaxConnection(v: int) | SSLOption(v: int) | AcceptAspect(v: int)

  function Apply(o: Opts, change: Change): Opts {
    match change
    case ConnectedCb(v) => o.(connectCb := v)
    case ReceiveCb(v) => o.(receiveCb := v)
    case DisconnectedCb(v) => o.(disconnectCb := v)
    case ListenBacklog(v) => o.(listenBacklog := v)
    case SndTimeout(v) => o.(sndTimeout := v)
    case MaxPackSize(v) => o.(packSize := v)
    case MaxPackSizeShrink(v) => o.(packShrink := v)
    case MaxPackSizeHard(v) => o.(packHard := v)
    case MaxConnection(v) => o.(maxConnection := v)
    case SSLOption(v) => o.(ssl := v)
    case AcceptAspect(v) => o.(acceptAspect := v)
  }

  // The options by number, and which one a setter is about.
  function Get(o: Opts, k: nat): int {
    match k
    case 0 => o.connectCb
    case 1 => o.receiveCb
    case 2 => o.disconnectCb
    case 3 => o.listenBacklog
    case 4 => o.sndTimeout
    case 5 => o.packSize
    case 6 => o.packShrink
    case 7 => o.packHard
    case 8 => o.maxConnection
    case 9 => o.ssl
    case _ => o.acceptAspect
  }

  function Which(change: Change): nat {
    match change
    case ConnectedCb(_) => 0
    case ReceiveCb(_) => 1
    case DisconnectedCb(_) => 2
    case ListenBacklog(_) => 3
    case SndTimeout(_) => 4
    case MaxPackSize(_) => 5
    case MaxPackSizeShrink(_) => 6
    case MaxPackSizeHard(_) => 7
    case MaxConnection(_) => 8
    case SSLOption(_) => 9
    case AcceptAspect(_) => 10
  }

  // A setter changes its own option and no other.
  lemma SetsOneOption(o: Opts, change: Change, k: nat)
    requires k <= 10
    ensures Get(Apply(o, change), k) == if k == Which(change) then change.v else Get(o, k)
  {
  }

  ghost predicate NoDup(s: seq<OptionsBase>) { forall i, j :: 0 <= i < j < |s| ==> s[i] != s[j] }

  // All nodes there are form a forest.
  ghost predicate Forest(all: set<OptionsBase>)
    reads all`lnks, all`parent, all`sub, all`depth
  {
    && (forall n :: n in all ==> n.sub <= all && NoDup(n.lnks))
    // a child is listed exactly where its parent pointer leads
    && (forall n, c :: n in all && c in n.lnks ==> c in all && c.parent == n)
    && (forall n {:trigger Linked(n)} :: n in all ==>
          if Linked(n) then n.parent in all && n in n.parent.lnks && n.depth == n.parent.depth + 1
          else n.depth == 0)
    // `sub` is the subtree
    && (forall n, m {:trigger Under(n, m)} :: n in all && m in all ==>
          (Under(n, m) <==> m == n || (m.parent != null && m.parent in n.sub)))
  }

  ghost predicate Linked(n: OptionsBase)
    reads n`parent
  {
    n.parent != null
  }

  // m is in the subtree of n.
  ghost predicate Under(n: OptionsBase, m: OptionsBase)
    reads n`sub
  {
    m in n.sub
  }

  // Every linked node has the options of its parent.
  ghost predicate Uniform(all: set<OptionsBase>)
    reads all, all`parent
  {
    forall n :: n in all && n.parent != null && n.parent in all ==> n.opt == n.parent.opt
  }

  // ---------------------------------------------------------------- facts about forests

  lemma {:induction false} Deeper(all: set<OptionsBase>, n: OptionsBase, m: OptionsBase)
    requires Forest(all) && n in all && m in all && m in n.sub
    ensures m == n || m.depth > n.depth
    decreases m.depth
  {
    assert Under(n, m) && (m != n ==> Linked(m));
    if m != n {
      Deeper(all, n, m.parent);
    }
  }

  // The subtree of a node of a subtree lies within it.
  lemma {:induction false} SubWithin(all: set<OptionsBase>, n: OptionsBase, c: OptionsBase, m: OptionsBase)
    requires Forest(all) && n in all && c in n.sub && m in c.sub
    ensures m in n.sub
    decreases m.depth
  {
    assert Under(c, m) && c in all && (m != c ==> Linked(m));
    if m != c {
      SubWithin(all, n, c, m.parent);
      assert Under(n, m);
    }
  }

  // Every other node of a subtree is in the subtree of exactly one child.
  lemma {:induction false} ChildOver(all: set<OptionsBase>, n: OptionsBase, m: OptionsBase) returns (c: OptionsBase)
    requires Forest(all) && n in all && m in n.sub && m != n
    ensures c in n.lnks && m in c.sub
    decreases m.depth
  {
    assert Under(n, m) && m in all && Linked(m);
    if m.parent == n {
      c := m;
      assert Under(m, m);
    } else {
      c := ChildOver(all, n, m.parent);
      assert c in all && Under(c, m);
    }
  }

  lemma {:induction false} SiblingsApart(all: set<OptionsBase>, n: OptionsBase, c: OptionsBase, d: OptionsBase, m: OptionsBase)
    requires Forest(all) && n in all && c in n.lnks && d in n.lnks && c != d && m in c.sub
    ensures m !in d.sub
    decreases m.depth
  {
    assert c in all && d in all && m in all && Linked(c) && Linked(d);
    if m in d.sub {
      assert Under(c, m) && Under(d, m);
      if m == c {
        Deeper(all, d, c);
      } else if m == d {
        Deeper(all, c, d);
      } else {
        assert Linked(m);
        SiblingsApart(all, n, c, d, m.parent);
      }
    }
  }

  // A child's subtree is a proper part.
  lemma ChildSmaller(all: set<OptionsBase>, n: OptionsBase, c: OptionsBase)
    requires Forest(all) && n in all && c in n.lnks
    ensures c.sub < n.sub && n !in c.sub
  {
    assert Under(n, n) && Under(n, c) && c in all && Linked(c);
    forall m | m in c.sub ensures m in n.sub {
      SubWithin(all, n, c, m);
    }
    if n in c.sub {
      Deeper(all, c, n);
    }
    assert n in n.sub && c.sub <= n.sub && n !in c.sub;
  }

  // The root above a node.
  ghost function Root(all: set<OptionsBase>, n: OptionsBase): (r: OptionsBase)
    requires Forest(all) && n in all
    reads all`lnks, all`parent, all`sub, all`depth
    ensures r in all && r.parent == null
    decreases n.depth
  {
    if !Linked(n) then n else Root(all, n.parent)
  }

  // In a uniform forest every node has the options of its root.
  lemma {:induction false} OptionsOfRoot(all: set<OptionsBase>, n: OptionsBase)
    requires Forest(all) && Uniform(all) && n in all
    ensures n.opt == Root(all, n).opt
    decreases n.depth
  {
    if Linked(n) {
      OptionsOfRoot(all, n.parent);
    }
  }

  // After a setter has been applied to a node of a uniform forest, the forest is uniform exactly if the
  // node was a root, or had the value already.
  lemma UniformAfterSet(all: set<OptionsBase>, node: OptionsBase, change: Change, before: map<OptionsBase, Opts>)
    requires Forest(all) && node in all && before.Keys == all
    requires forall n :: n in all && n.parent != null && n.parent in all ==> before[n] == before[n.parent]
    requires forall n :: n in all ==> n.opt == if n in node.sub then Apply(before[n], change) else before[n]
    ensures Uniform(all) <==> node.parent == null || Apply(before[node], change) == before[node]
  {
    forall n | n in all && n != node && n.parent != null && n.parent in all ensures n.opt == n.parent.opt {
      assert Under(node, n) == (n.parent in node.sub);
    }
    assert Under(node, node);
    if Linked(node) {
      assert node.parent in all;
      if node.parent in node.sub {
        Deeper(all, node, node.parent);
      }
    }
  }

  // One entry has been taken out of a list.
  ghost predicate Erased(was: seq<OptionsBase>, x: OptionsBase, now: seq<OptionsBase>) {
    exists i :: 0 <= i < |was| && was[i] == x && now == was[..i] + was[i + 1..]
  }

  class OptionsBase {
    var opt: Opts
    var lnks: seq<OptionsBase>
    var parent: OptionsBase?
    // the subtree, and the distance from the root
    ghost var sub: set<OptionsBase>
    ghost var depth: nat

    constructor (options: Opts)
      ensures opt == options && lnks == [] && parent == null && sub == {this} && depth == 0
    {
      opt, lnks, parent, sub, depth := options, [], null, {this}, 0;
    }

    // Any of the setters: sets one option on exactly the subtree.
    method Set(change: Change, ghost all: set<OptionsBase>)
      requires Forest(all) && this in all
      modifies sub`opt
      ensures Forest(all)
      ensures forall n :: n in sub ==> n.opt == Apply(old(n.opt), change)
      decreases sub
    {
      assert Under(this, this);
      opt := Apply(opt, change);
      forall i | 0 <= i < |lnks| ensures this !in lnks[i].sub {
        ChildSmaller(all, this, lnks[i]);
      }
      for i := 0 to |lnks|
        invariant Forest(all)
        invariant opt == Apply(old(opt), change)
        invariant forall n, j :: 0 <= j < i && n in lnks[j].sub ==> n.opt == Apply(old(n.opt), change)
        invariant forall n, j :: i <= j < |lnks| && n in lnks[j].sub ==> n.opt == old(n.opt)
      {
        ChildSmaller(all, this, lnks[i]);
        ApartFrom(all, i);
        lnks[i].Set(change, all);
      }
      forall n | n in sub && n != this ensures n.opt == Apply(old(n.opt), change) {
        var c := ChildOver(all, this, n);
      }
    }

    // The subtrees of the children do not meet, nor contain their parent.
    lemma ApartFrom(all: set<OptionsBase>, i: nat)
      requires Forest(all) && this in all && i < |lnks|
      ensures this !in lnks[i].sub
      ensures forall j, n :: 0 <= j < |lnks| && j != i && n in lnks[j].sub ==> n !in lnks[i].sub
    {
      ChildSmaller(all, this, lnks[i]);
      forall j, n | 0 <= j < |lnks| && j != i && n in lnks[j].sub ensures n !in lnks[i].sub {
        SiblingsApart(all, this, lnks[j], lnks[i], n);
      }
    }

    // Copies the options of this node to all below it.
    method OnLink(ghost all: set<OptionsBase>)
      requires Forest(all) && this in all
      modifies sub`opt
      ensures Forest(all)
      ensures forall n :: n in sub ==> n.opt == old(opt)
      decreases sub
    {
      forall i | 0 <= i < |lnks| ensures this !in lnks[i].sub {
        ChildSmaller(all, this, lnks[i]);
      }
      for i := 0 to |lnks|
        invariant Forest(all) && opt == old(opt)
        invariant forall n, j :: 0 <= j < i && n in lnks[j].sub ==> n.opt == opt
      {
        ChildSmaller(all, this, lnks[i]);
        ApartFrom(all, i);
        assert Under(lnks[i], lnks[i]);
        lnks[i].opt := opt;
        lnks[i].OnLink(all);
      }
      forall n | n in sub && n != this ensures n.opt == opt {
        var c := ChildOver(all, this, n);
      }
    }

    // Hangs a root, which this node is not below, under this node.
    method Link(other: OptionsBase, ghost all: set<OptionsBase>)
      requires Forest(all) && this in all && other in all
      requires other.parent == null && this !in other.sub
      modifies other`opt, other`parent, this`lnks, all`sub, all`depth, other.sub`opt
      ensures Forest(all) && lnks == old(lnks) + [other] && other.parent == this
      ensures forall n :: n in old(other.sub) ==> n.opt == opt
      ensures other.sub == old(other.sub)
    {
      other.opt := opt;
      Attach(other, all);
      Rehang(other, all);
      other.OnLink(all);
    }

    // Puts the node at the end of the list, and sets its parent pointer.
    method Attach(other: OptionsBase, ghost all: set<OptionsBase>)
      requires Forest(all) && this in all && other in all
      requires other.parent == null && this !in other.sub
      modifies other`parent, this`lnks
      ensures ForestBut(other, all) && lnks == old(lnks) + [other] && other !in old(lnks)
      ensures other.parent == this
    {
      assert !Linked(other);
      assert other !in lnks;
      lnks := lnks + [other];
      other.parent := this;
      forall n | n in all
        ensures if Linked(n) && n != other then n.parent in all && n in n.parent.lnks && n.depth == n.parent.depth + 1
                else n.depth == 0
      {
        assert old(Linked(n)) == (Linked(n) && n != other);
      }
      forall n, m | n in all && m in all
        ensures Under(n, m) <==> m == n || (m != other && m.parent != null && m.parent in n.sub)
      {
        assert old(Under(n, m)) == Under(n, m);
      }
    }

    // The ghost part of Link: the subtrees above grow, the subtree below moves down.
    ghost method Rehang(other: OptionsBase, all: set<OptionsBase>)
      requires this in all && other in all && this !in other.sub && other.parent == this
      requires |lnks| > 0 && lnks[|lnks| - 1] == other && other !in lnks[..|lnks| - 1]
      requires ForestBut(other, all)
      modifies all`sub, all`depth
      ensures Forest(all) && other.sub == old(other.sub)
    {
      forall n | n in all {
        n.sub := if this in n.sub then n.sub + other.sub else n.sub;
      }
      forall n | n in all {
        n.depth := if n in other.sub then n.depth + this.depth + 1 else n.depth;
      }
      forall n | n in all
        ensures if Linked(n) then n.parent in all && n in n.parent.lnks && n.depth == n.parent.depth + 1
                else n.depth == 0
      {
        assert old(Linked(n)) == Linked(n);
        assert old(Under(other, n)) == (n == other || (n.parent != null && n.parent in old(other.sub) && n != other));
      }
      forall n, m | n in all && m in all
        ensures Under(n, m) <==> m == n || (m.parent != null && m.parent in n.sub)
      {
        assert old(Under(n, m)) == (m == n || (m != other && m.parent != null && m.parent in old(n.sub)));
        assert old(Under(other, m)) == (m == other || (m.parent != null && m.parent in old(other.sub) && m != other));
      }
    }

    // A forest in which `other` points to this node, and is listed here, but nothing else is adapted.
    ghost predicate ForestBut(other: OptionsBase, all: set<OptionsBase>)
      reads this, all`lnks, all`parent, all`sub, all`depth
    {
      && (forall n :: n in all ==> n.sub <= all && NoDup(n.lnks))
      && (forall n, c :: n in all && c in n.lnks ==> c in all && c.parent == n)
      && (forall n {:trigger Linked(n)} :: n in all ==>
            if Linked(n) && n != other then n.parent in all && n in n.parent.lnks && n.depth == n.parent.depth + 1
            else n.depth == 0)
      && (forall n, m {:trigger Under(n, m)} :: n in all && m in all ==>
            (Under(n, m) <==> m == n || (m != other && m.parent != null && m.parent in n.sub)))
    }

    // A setter, as its user sees it.
    method SetOption(change: Change, ghost all: set<OptionsBase>)
      requires Forest(all) && this in all
      modifies sub`opt
      ensures Forest(all)
      ensures forall n :: n in sub ==> n.opt == Apply(old(n.opt), change)
      ensures old(Uniform(all)) ==> (Uniform(all) <==> parent == null || Apply(old(opt), change) == old(opt))
    {
      ghost var before := map n | n in all :: n.opt;
      Set(change, all);
      if old(Uniform(all)) {
        UniformAfterSet(all, this, change, before);
      }
    }

    // Link, as its user sees it.
    method LinkOptions(other: OptionsBase, ghost all: set<OptionsBase>)
      requires Forest(all) && this in all && other in all
      requires other.parent == null && this !in other.sub
      modifies other`opt, other`parent, this`lnks, all`sub, all`depth, other.sub`opt
      ensures Forest(all) && lnks == old(lnks) + [other] && other.parent == this
      ensures forall n :: n in old(other.sub) ==> n.opt == opt
      ensures old(Uniform(all)) ==> Uniform(all)
    {
      Link(other, all);
      if old(Uniform(all)) {
        forall n | n in all && n.parent != null && n.parent in all ensures n.opt == n.parent.opt {
          assert Under(other, other) && Under(other, n) == (n == other || n.parent in other.sub);
          if n !in other.sub {
            var p := n.parent;
            assert old(n.parent) == p && p !in old(other.sub) && p != other;
            assert n.opt == old(n.opt) == old(p.opt) == p.opt;
          } else if n == other {
            assert n.opt == opt;
          }
        }
      }
    }

    // Takes a child out.
    method Unlink(other: OptionsBase, ghost all: set<OptionsBase>)
      requires Forest(all) && this in all && other in all && other.parent == this
      modifies other`parent, this`lnks, all`sub, all`depth
      ensures Forest(all) && other.parent == null && Erased(old(lnks), other, lnks)
      ensures old(Uniform(all)) ==> Uniform(all)
    {
      assert Linked(other);
      BelowFacts(all, other);
      var i := 0;
      while lnks[i] != other
        invariant 0 <= i < |lnks| && other in lnks[i..]
        decreases |lnks| - i
      {
        i := i + 1;
      }
      Detach(other, i, all);
      Shed(other, all);
    }

    // Clears the parent pointer of the child and takes it out of the list.
    method Detach(other: OptionsBase, i: nat, ghost all: set<OptionsBase>)
      requires Forest(all) && this in all && other in all && other.parent == this && i < |lnks| && lnks[i] == other
      modifies other`parent, this`lnks
      ensures other.parent == null && lnks == old(lnks)[..i] + old(lnks)[i + 1..]
      ensures ForestCut(other, all)
    {
      ghost var was := lnks;
      other.parent := null;
      lnks := lnks[..i] + lnks[i + 1..];
      EraseFacts(was, i);
      forall n | n in all
        ensures if Linked(n) then n.parent in all && n in n.parent.lnks && n.depth == n.parent.depth + 1
                else n == other || n.depth == 0
      {
        assert old(Linked(n)) == (Linked(n) || n == other);
      }
      forall n, m | n in all && m in all
        ensures Under(n, m) <==> m == n || (m == other && this in n.sub) || (m.parent != null && m.parent in n.sub)
      {
        assert old(Under(n, m)) == Under(n, m);
      }
    }

    // The forest after Detach: sizes and depths are still those from before.
    ghost predicate ForestCut(other: OptionsBase, all: set<OptionsBase>)
      reads this, all`lnks, all`parent, all`sub, all`depth
    {
      && (forall n :: n in all ==> n.sub <= all && NoDup(n.lnks))
      && (forall n, c :: n in all && c in n.lnks ==> c in all && c.parent == n)
      && (forall n {:trigger Linked(n)} :: n in all ==>
            if Linked(n) then n.parent in all && n in n.parent.lnks && n.depth == n.parent.depth + 1
            else n == other || n.depth == 0)
      && (forall n, m {:trigger Under(n, m)} :: n in all && m in all ==>
            (Under(n, m) <==>
              m == n || (m == other && this in n.sub) || (m.parent != null && m.parent in n.sub)))
    }

    // The ghost part of Unlink: the subtrees above shrink, the subtree below moves up.
    ghost method Shed(other: OptionsBase, all: set<OptionsBase>)
      requires this in all && other in all && other.parent == null && ForestCut(other, all) && Below(other, all)
      modifies all`sub, all`depth
      ensures Forest(all)
    {
      forall n | n in all {
        n.sub := if other in n.sub && n != other then n.sub - other.sub else n.sub;
      }
      forall n | n in all {
        n.depth := if n in other.sub then n.depth - other.depth else n.depth;
      }
      forall n | n in all
        ensures if Linked(n) then n.parent in all && n in n.parent.lnks && n.depth == n.parent.depth + 1
                else n.depth == 0
      {
        assert old(Linked(n)) == Linked(n);
        assert old(Under(other, n)) == (n == other || (n.parent != null && n.parent in old(other.sub)));
      }
      forall n, m | n in all && m in all
        ensures Under(n, m) <==> m == n || (m.parent != null && m.parent in n.sub)
      {
        assert old(Under(n, m)) ==
          (m == n || (m == other && this in old(n.sub)) || (m.parent != null && m.parent in old(n.sub)));
        assert old(Under(other, m)) == (m == other || (m.parent != null && m.parent in old(other.sub)));
      }
    }

    // The destructor: leaves the parent, and lets go of the children one by one, the last first.
    method Destroy(ghost all: set<OptionsBase>)
      requires Forest(all) && this in all
      modifies this`parent, this`lnks, all`sub, all`depth, all`parent, all`lnks
      ensures parent == null && lnks == []
      ensures Forest(all - {this})
      ensures forall c :: c in old(lnks) ==> c.parent == null
      ensures forall m :: m in all && m != this && m !in old(lnks) ==> m.parent == old(m.parent)
      ensures forall m :: m in all && m != this && m != old(parent) ==> m.lnks == old(m.lnks)
      ensures old(parent) != null ==> Erased(old(parent.lnks), this, old(parent).lnks)
      ensures old(Uniform(all)) ==> Uniform(all - {this})
    {
      LeaveParent(all);
      LetAllGo(all);
      Alone(all);
    }

    // The first part of the destructor.
    method LeaveParent(ghost all: set<OptionsBase>)
      requires Forest(all) && this in all
      modifies this`parent, all`lnks, all`sub, all`depth
      ensures Forest(all) && parent == null && lnks == old(lnks)
      ensures forall m :: m in all && m != old(parent) ==> m.lnks == old(m.lnks)
      ensures old(parent) != null ==> old(parent) != this && Erased(old(parent.lnks), this, old(parent).lnks)
      ensures old(Uniform(all)) ==> Uniform(all)
    {
      if parent != null {
        assert Linked(this);
        parent.Unlink(this, all);
      }
    }

    // The second part.
    method LetAllGo(ghost all: set<OptionsBase>)
      requires Forest(all) && this in all && parent == null
      modifies this`lnks, all`sub, all`depth, all`parent
      ensures Forest(all) && parent == null && lnks == []
      ensures forall m :: m in all && m != this ==> m.parent == if m in old(lnks) then null else old(m.parent)
      ensures old(Uniform(all)) ==> Uniform(all)
    {
      while lnks != []
        invariant Forest(all) && parent == null && lnks <= old(lnks)
        invariant forall m :: m in all && m != this ==>
                    m.parent == if m in old(lnks) && m !in lnks then null else old(m.parent)
        invariant old(Uniform(all)) ==> Uniform(all)
        decreases |lnks|
      {
        LetGo(lnks[|lnks| - 1], all);
      }
    }

    // A node without parent and children can be left out of the forest.
    lemma Alone(all: set<OptionsBase>)
      requires Forest(all) && this in all && parent == null && lnks == []
      ensures Forest(all - {this}) && (Uniform(all) ==> Uniform(all - {this}))
    {
      forall n | n in all && n != this ensures this !in n.sub {
        assert Under(n, this) == (this == n);
      }
      assert !Linked(this);
      forall n | n in all - {this}
        ensures if Linked(n) then n.parent in all - {this} && n in n.parent.lnks && n.depth == n.parent.depth + 1
                else n.depth == 0
      {
        assert Linked(n) ==> n.parent != this;
      }
    }

    // Unlinks the last child.
    method LetGo(last: OptionsBase, ghost all: set<OptionsBase>)
      requires Forest(all) && this in all && lnks != [] && lnks[|lnks| - 1] == last
      modifies this`lnks, all`sub, all`depth, last`parent
      ensures Forest(all) && last.parent == null && lnks == old(lnks)[..old(|lnks|) - 1]
      ensures last in all && last !in lnks && (old(Uniform(all)) ==> Uniform(all))
    {
      ghost var was := lnks;
      assert last !in was[..|was| - 1];
      Unlink(last, all);
      assert was[..|was| - 1] + was[|was| - 1 + 1..] == was[..|was| - 1];
    }
  }

  lemma EraseFacts(s: seq<OptionsBase>, i: nat)
    requires NoDup(s) && i < |s|
    ensures var t := s[..i] + s[i + 1..];
      NoDup(t) && forall c :: c in t <==> c in s && c != s[i]
  {
    var t := s[..i] + s[i + 1..];
    assert forall j :: 0 <= j < |t| ==> t[j] == s[if j < i then j else j + 1];
    forall c | c in s && c != s[i] ensures c in t {
      var j :| 0 <= j < |s| && s[j] == c;
      assert t[if j < i then j else j - 1] == c;
    }
  }

  // Where nodes stand relative to `other`: those below it are deeper, and it is not below its descendants.
  ghost predicate Below(other: OptionsBase, all: set<OptionsBase>)
    reads all`sub, all`depth, other`sub, other`depth
  {
    && other.sub <= all && other in other.sub
    && (forall n :: n in other.sub ==> n.depth >= other.depth)
    && (forall n :: n in all && other in n.sub && n != other ==> n !in other.sub)
  }

  lemma BelowFacts(all: set<OptionsBase>, other: OptionsBase)
    requires Forest(all) && other in all
    ensures Below(other, all)
  {
    assert Under(other, other);
    forall n | n in other.sub ensures n.depth >= other.depth {
      Deeper(all, other, n);
    }
    forall n | n in all && other in n.sub && n != other ensures n !in other.sub {
      Deeper(all, n, other);
    }
  }
}