// Slides nest shapes in groups; extraction works on the flat list.

module ShapeGroups {
  datatype Node<S> = Group(children: seq<Node>) | Single(shape: S)

  /** The shapes in reading order, whatever their grouping. */
  function Flattened<S>(nodes: seq<Node<S>>): seq<Node<S>> {
    if nodes == [] then []
    else (match nodes[0]
          case Group(children) => Flattened(children)
          case Single(_) => [nodes[0]])
         + Flattened(nodes[1..])
  }

  lemma {:induction false} FlattenedConcat<S>(a: seq<Node<S>>, b: seq<Node<S>>)
    ensures Flattened(a + b) == Flattened(a) + Flattened(b)
  {
    if a == [] {
      assert a + b == b;
    } else {
      assert (a + b)[1..] == a[1..] + b;
      FlattenedConcat(a[1..], b);
    }
  }

  lemma {:induction false} NoGroupsLeft<S>(nodes: seq<Node<S>>, i: nat)
    requires i < |Flattened(nodes)|
    ensures Flattened(nodes)[i].Single?
  {
    var first := Flattened([nodes[0]]);
    assert nodes == [nodes[0]] + nodes[1..];
    FlattenedConcat([nodes[0]], nodes[1..]);
    assert [nodes[0]][1..] == [];
    if i >= |first| {
      NoGroupsLeft(nodes[1..], i - |first|);
    } else if nodes[0].Group? {
      NoGroupsLeft(nodes[0].children, i);
    }
  }

  lemma {:induction false} FlatStays<S>(nodes: seq<Node<S>>)
    requires forall i :: 0 <= i < |nodes| ==> nodes[i].Single?
    ensures Flattened(nodes) == nodes
  {
    if nodes != [] {
      FlatStays(nodes[1..]);
    }
  }

  /** Flattening once is enough, and grouping neighbours at any place changes nothing. */
  lemma GroupingIsIrrelevant<S>(before: seq<Node<S>>, grouped: seq<Node<S>>, after: seq<Node<S>>)
    ensures Flattened(before + [Group(grouped)] + after) == Flattened(before + grouped + after)
    ensures Flattened(Flattened(grouped)) == Flattened(grouped)
  {
    FlattenedConcat(before + [Group(grouped)], after);
    FlattenedConcat(before, [Group(grouped)]);
    FlattenedConcat(before + grouped, after);
    FlattenedConcat(before, grouped);
    assert Flattened([Group(grouped)]) == Flattened(grouped) + Flattened([Group(grouped)][1..]);
    forall i | 0 <= i < |Flattened(grouped)| ensures Flattened(grouped)[i].Single? {
      NoGroupsLeft(grouped, i);
    }
    FlatStays(Flattened(grouped));
  }

  lemma TakeNode<S>(nodes: seq<Node<S>>, i: nat)
    requires i < |nodes|
    ensures Flattened(nodes[..i + 1]) ==
              Flattened(nodes[..i]) + if nodes[i].Group? then Flattened(nodes[i].children) else [nodes[i]]
  {
    assert nodes[..i + 1] == nodes[..i] + [nodes[i]];
    FlattenedConcat(nodes[..i], [nodes[i]]);
    assert [nodes[i]][1..] == [];
  }

  method UngroupShapes<S>(nodes: seq<Node<S>>) returns (result: seq<Node<S>>)
    ensures result == Flattened(nodes)
  {
    result := [];
    for i := 0 to |nodes|
      invariant result == Flattened(nodes[..i])
    {
      TakeNode(nodes, i);
      match nodes[i]
      case Group(children) =>
        var shapes := UngroupShapes(children);
        result := result + shapes;
      case Single(_) =>
        result := result + [nodes[i]];
    }
    assert nodes[..|nodes|] == nodes;
  }
}
