/**
 What a program does with options objects: it makes them, sets options on roots, links, unlinks and destroys
 them, in any order and as often as it likes.
 */
module OptionsPrograms {
  import opened OptionsForest

  // Objects are named by their place in the order of creation.
  datatype Op =
    | Create(options: Opts)
    | SetRoot(node: nat, change: Change)
    | LinkTo(node: nat, child: nat)
    | UnlinkFrom(node: nat, child: nat)
    | Delete(node: nat)

  ghost predicate InStep(live: set<OptionsBase>)
    reads live, live`lnks, live`parent, live`sub, live`depth
  {
    Forest(live) && Uniform(live) && forall n :: n in live && n.parent != null ==> n.parent in live
  }

  lemma ParentsLive(live: set<OptionsBase>)
    requires Forest(live) && Uniform(live)
    ensures InStep(live)
  {
    forall n | n in live && n.parent != null ensures n.parent in live {
      assert Linked(n);
    }
  }

  // A new object is a tree of its own.
  lemma OneMore(live: set<OptionsBase>, n: OptionsBase)
    requires InStep(live) && n !in live && n.lnks == [] && n.parent == null && n.sub == {n} && n.depth == 0
    ensures InStep(live + {n})
  {
    assert !Linked(n);
    forall m, k | m in live + {n} && k in live + {n}
      ensures Under(m, k) <==> k == m || (k.parent != null && k.parent in m.sub)
    {
      assert m in live && k in live ==> (Under(m, k) <==> k == m || (k.parent != null && k.parent in m.sub));
    }
  }

  // Whether `node` is in the subtree of `top`: going up from it leads there.
  method IsBelow(node: OptionsBase, top: OptionsBase, ghost live: set<OptionsBase>) returns (below: bool)
    requires Forest(live) && node in live && top in live
    ensures below <==> node in top.sub
  {
    var n: OptionsBase := node;
    while n != top && n.parent != null
      invariant n in live && (node in top.sub <==> n in top.sub)
      decreases n.depth
    {
      assert Linked(n) && Under(top, n) == (n.parent in top.sub);
      n := n.parent;
    }
    below := n == top;
    assert Under(top, n) <==> n in top.sub;
    assert n != top ==> !Linked(n);
  }

  // One operation; what the library does not allow is left undone.
  method Perform(op: Op, nodes: seq<OptionsBase>, live: set<OptionsBase>)
    returns (nodes': seq<OptionsBase>, live': set<OptionsBase>)
    requires InStep(live)
    modifies live
    ensures InStep(live') && fresh(live' - live) && nodes <= nodes'
    ensures op.Create? ==> |nodes'| == |nodes| + 1 && live' == live + {nodes'[|nodes|]}
                           && nodes'[|nodes|].opt == op.options && nodes'[|nodes|].parent == null
    ensures op.Delete? ==> live' == live - if op.node < |nodes| then {nodes[op.node]} else {}
    ensures !op.Create? ==> nodes' == nodes
    ensures !op.Create? && !op.Delete? ==> live' == live
    ensures op.SetRoot? && op.node < |nodes| && nodes[op.node] in live && old(nodes[op.node].parent) == null ==>
              forall n :: n in nodes[op.node].sub ==> n.opt == Apply(old(n.opt), op.change)
    ensures op.LinkTo? && op.node < |nodes| && op.child < |nodes| && nodes[op.node] in live && nodes[op.child] in live
            && old(nodes[op.child].parent) == null && nodes[op.node] !in old(nodes[op.child].sub) ==>
              nodes[op.child].parent == nodes[op.node]
    ensures op.UnlinkFrom? && op.node < |nodes| && op.child < |nodes| && nodes[op.node] in live
            && nodes[op.child] in live && old(nodes[op.child].parent) == nodes[op.node] ==>
              nodes[op.child].parent == null
  {
    nodes', live' := nodes, live;
    match op
    case Create(options) =>
      var n := new OptionsBase(options);
      OneMore(live, n);
      nodes', live' := nodes + [n], live + {n};
    case SetRoot(node, change) =>
      if node < |nodes| && nodes[node] in live && nodes[node].parent == null {
        SetOn(nodes[node], change, live);
      }
    case LinkTo(node, child) =>
      if node < |nodes| && child < |nodes| && nodes[node] in live && nodes[child] in live {
        LinkIfAllowed(nodes[node], nodes[child], live);
      }
    case UnlinkFrom(node, child) =>
      if node < |nodes| && child < |nodes| && nodes[node] in live && nodes[child] in live
         && nodes[child].parent == nodes[node] {
        UnlinkIt(nodes[node], nodes[child], live);
      }
    case Delete(node) =>
      if node < |nodes| && nodes[node] in live {
        live' := DeleteIt(nodes[node], live);
      }
  }

  method SetOn(node: OptionsBase, change: Change, ghost live: set<OptionsBase>)
    requires InStep(live) && node in live && node.parent == null
    modifies live
    ensures InStep(live) && forall n :: n in node.sub ==> n.opt == Apply(old(n.opt), change)
    ensures forall n :: n in live ==> n.parent == old(n.parent) && n.sub == old(n.sub)
  {
    node.SetOption(change, live);
  }

  method LinkIfAllowed(node: OptionsBase, child: OptionsBase, ghost live: set<OptionsBase>)
    requires InStep(live) && node in live && child in live
    modifies live
    ensures InStep(live)
    ensures old(child.parent) == null && node !in old(child.sub) ==> child.parent == node && child.opt == old(node.opt)
  {
    var below := IsBelow(node, child, live);
    if child.parent == null && !below {
      assert Under(child, child);
      node.LinkOptions(child, live);
      ParentsLive(live);
    }
  }

  method UnlinkIt(node: OptionsBase, child: OptionsBase, ghost live: set<OptionsBase>)
    requires InStep(live) && node in live && child in live && child.parent == node
    modifies live
    ensures InStep(live) && child.parent == null && Erased(old(node.lnks), child, node.lnks)
  {
    node.Unlink(child, live);
  }

  method DeleteIt(node: OptionsBase, live: set<OptionsBase>) returns (left: set<OptionsBase>)
    requires InStep(live) && node in live
    modifies live
    ensures left == live - {node} && InStep(left)
  {
    node.Destroy(live);
    left := live - {node};
    ParentsLive(left);
  }

  function Creates(ops: seq<Op>): nat {
    if ops == [] then 0 else Creates(ops[..|ops| - 1]) + if ops[|ops| - 1].Create? then 1 else 0
  }

  // Whatever is done, in the end every object has the options of the root it is linked under.
  method Run(ops: seq<Op>) returns (nodes: seq<OptionsBase>, live: set<OptionsBase>)
    ensures Forest(live) && fresh(live) && |nodes| == Creates(ops)
    ensures forall n :: n in live ==> n.opt == Root(live, n).opt
  {
    nodes, live := [], {};
    for i := 0 to |ops|
      invariant InStep(live) && fresh(live) && |nodes| == Creates(ops[..i])
    {
      nodes, live := Perform(ops[i], nodes, live);
      assert ops[..i + 1][..i] == ops[..i];
    }
    assert ops[..|ops|] == ops;
    forall n | n in live ensures n.opt == Root(live, n).opt {
      OptionsOfRoot(live, n);
    }
  }
}
