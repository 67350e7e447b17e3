/**
 * The child list of a scene-graph node (`iSceneObject`): an ordered
 * sequence of children without duplicates, with a parent back-pointer on
 * each child and a parent link between the nodes' transforms.
 */
module SceneGraph {

  /** `Transform`, reduced to its parent link. */
  class Transform {
    var parent: Transform?

    constructor ()
      ensures parent == null
    {
      parent := null;
    }
  }

  /** No element occurs twice. */
  ghost predicate NoDuplicates<T>(s: seq<T>) {
    forall i, j :: 0 <= i < j < |s| ==> s[i] != s[j]
  }

  /** The child list after `addChild(n)`: `n` is appended unless it is already there. */
  function WithChild<T(==)>(s: seq<T>, x: T): (r: seq<T>)
    ensures x in r
    ensures x in s ==> r == s
    ensures x !in s ==> r == s + [x] && r[|r| - 1] == x && r[..|s|] == s
    ensures NoDuplicates(s) ==> NoDuplicates(r)
  {
    if x in s then s else s + [x]
  }

  /** The child list after `removeChild(n)`: the first occurrence of `n` is erased. */
  function RemoveFirst<T(==)>(s: seq<T>, x: T): (r: seq<T>)
    ensures x !in s ==> r == s
    ensures x in s ==> |r| == |s| - 1
    decreases |s|
  {
    if s == [] then []
    else if s[0] == x then s[1..]
    else [s[0]] + RemoveFirst(s[1..], x)
  }

  /** `RemoveFirst` takes away one occurrence of `x` and nothing else. */
  lemma {:induction false} RemoveFirstMultiset<T>(s: seq<T>, x: T)
    ensures multiset(RemoveFirst(s, x)) == multiset(s) - multiset{x}
    ensures forall y :: y in RemoveFirst(s, x) ==> y in s
    decreases |s|
  {
    if s != [] {
      assert s == [s[0]] + s[1..];
      if s[0] != x {
        RemoveFirstMultiset(s[1..], x);
      }
    }
  }

  /** On a list without duplicates, `RemoveFirst` leaves no occurrence behind and creates no duplicate. */
  lemma {:induction false} RemoveFirstNoDuplicates<T>(s: seq<T>, x: T)
    requires NoDuplicates(s)
    ensures NoDuplicates(RemoveFirst(s, x)) && x !in RemoveFirst(s, x)
    decreases |s|
  {
    if s != [] {
      var tail := s[1..];
      assert NoDuplicates(tail) by {
        forall i, j | 0 <= i < j < |tail| ensures tail[i] != tail[j] {
          assert tail[i] == s[i + 1] && tail[j] == s[j + 1];
        }
      }
      assert s[0] !in tail by {
        forall j | 0 <= j < |tail| ensures tail[j] != s[0] {
          assert tail[j] == s[j + 1];
        }
      }
      if s[0] != x {
        RemoveFirstNoDuplicates(tail, x);
        var rest := RemoveFirst(tail, x);
        var r := [s[0]] + rest;
        assert RemoveFirst(s, x) == r;
        forall i, j | 0 <= i < j < |r| ensures r[i] != r[j] {
          if i == 0 {
            assert r[j] == rest[j - 1];
            RemoveFirstMultiset(tail, x);
            assert rest[j - 1] in tail;
          } else {
            assert r[i] == rest[i - 1] && r[j] == rest[j - 1];
          }
        }
      }
    }
  }

  /** `RemoveFirst` erases exactly the element at the first index holding `x`, keeping the rest in order. */
  lemma {:induction false} RemoveFirstAt<T>(s: seq<T>, x: T, i: nat)
    requires i < |s| && s[i] == x
    requires forall j :: 0 <= j < i ==> s[j] != x
    ensures RemoveFirst(s, x) == s[..i] + s[i + 1..]
    decreases |s|
  {
    if i == 0 {
      assert RemoveFirst(s, x) == s[1..];
    } else {
      var tail := s[1..];
      assert s[0] != x;
      assert RemoveFirst(s, x) == [s[0]] + RemoveFirst(tail, x);
      forall j | 0 <= j < i - 1 ensures tail[j] != x {
        assert tail[j] == s[j + 1];
      }
      RemoveFirstAt(tail, x, i - 1);
      assert tail[..i - 1] == s[1..i];
      assert tail[i..] == s[i + 1..];
      assert [s[0]] + s[1..i] == s[..i];
    }
  }

  /** `iSceneObject`: the fields `addChild`, `removeChild` and `moveChild` touch. */
  class SceneObject {
    var children: seq<SceneObject>
    var parent: SceneObject?
    const transform: Transform

    constructor ()
      ensures children == [] && parent == null && fresh(transform) && transform.parent == null
    {
      children := [];
      parent := null;
      transform := new Transform();
    }

    /** The index loop both `addChild` and `removeChild` run: the first index holding `node`, or -1. */
    method IndexOfChild(node: SceneObject) returns (i: int)
      ensures -1 <= i < |children|
      ensures i == -1 <==> node !in children
      ensures i >= 0 ==> children[i] == node && forall j :: 0 <= j < i ==> children[j] != node
    {
      i := 0;
      while i < |children|
        invariant 0 <= i <= |children|
        invariant forall j :: 0 <= j < i ==> children[j] != node
      {
        if children[i] == node {
          return;
        }
        i := i + 1;
      }
      i := -1;
    }

    /**
     * `addChild`: a null node or one already among the children changes
     * nothing; otherwise the node is appended and pointed back at this
     * node and its transform.
     */
    method AddChild(node: SceneObject?)
      modifies this`children
      modifies if node != null then {node} else {}
      modifies if node != null then {node.transform} else {}
      ensures node == null ==> children == old(children)
      ensures node != null ==> children == WithChild(old(children), node)
      ensures node != null && node in old(children) ==>
                node.parent == old(node.parent) && node.transform.parent == old(node.transform.parent)
      ensures node != null && node !in old(children) ==>
                node.parent == this && node.transform.parent == transform
      ensures NoDuplicates(old(children)) ==> NoDuplicates(children)
      ensures node != null && node != this ==> node.children == old(node.children)
      ensures node != this ==> parent == old(parent)
      ensures node == null || node.transform != transform ==> transform.parent == old(transform.parent)
    {
      if node == null {
        return;
      }
      var i := IndexOfChild(node);
      if i >= 0 {
        // Already a child: nothing changes.
        return;
      }
      children := children + [node];
      node.parent := this;
      node.transform.parent := transform;
    }

    /**
     * `removeChild`: erases the first occurrence of the node, keeping the
     * order of the rest, and clears the node's parent (not its
     * transform's). A null node or a non-child changes nothing.
     */
    method RemoveChild(node: SceneObject?)
      modifies this`children
      modifies if node != null then {node} else {}
      ensures node == null ==> children == old(children)
      ensures node != null ==> children == RemoveFirst(old(children), node)
      ensures node != null && node in old(children) ==> node.parent == null
      ensures node != null && node !in old(children) ==> node.parent == old(node.parent)
      ensures node != null ==> node.children == old(node.children) || node == this
      ensures node != this ==> parent == old(parent)
      ensures NoDuplicates(old(children)) ==> NoDuplicates(children) && node !in children
    {
      if node == null {
        return;
      }
      var i := IndexOfChild(node);
      if i < 0 {
        return;
      }
      RemoveFirstAt(children, node, i);
      children := children[..i] + children[i + 1..];
      node.parent := null;
    }

    /**
     * `moveChild`: with both arguments non-null, removes the node from this
     * node's children and adds it to the new parent's.
     */
    method MoveChild(node: SceneObject?, newParent: SceneObject?)
      modifies this`children
      modifies if newParent != null then {newParent} else {}
      modifies if node != null then {node} else {}
      modifies if node != null then {node.transform} else {}
      ensures node == null || newParent == null ==> children == old(children)
      ensures node != null && newParent == null ==>
                && node.children == old(node.children) && node.parent == old(node.parent)
                && node.transform.parent == old(node.transform.parent)
      ensures node == null && newParent != null ==>
                newParent.children == old(newParent.children) && newParent.parent == old(newParent.parent)
      ensures node != newParent && newParent != null ==> newParent.parent == old(newParent.parent)
      ensures node != null && node != this && node != newParent ==> node.children == old(node.children)
      ensures node != null && newParent != null ==>
                var start := if newParent == this then RemoveFirst(old(children), node) else old(newParent.children);
                && newParent.children == WithChild(start, node)
                && (newParent != this ==> children == RemoveFirst(old(children), node))
                && (node !in start ==> node.parent == newParent && node.transform.parent == newParent.transform)
                && (node in start ==>
                      && node.parent == (if node in old(children) then null else old(node.parent))
                      && node.transform.parent == old(node.transform.parent))
      ensures node != null && newParent != null && newParent != this && NoDuplicates(old(children)) ==>
                node !in children
      ensures node != null && newParent != null && NoDuplicates(old(newParent.children)) && newParent != this ==>
                NoDuplicates(newParent.children)
    {
      if node == null || newParent == null {
        return;
      }
      RemoveChild(node);
      newParent.AddChild(node);
    }
  }
}
