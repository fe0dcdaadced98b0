/**
 * The chain node of src/data.ts. A block is a value together with the digest of its
 * parent and its own digest; the "hash" is plain string concatenation,
 * `digest = value ++ parent.digest`. Equality and the parent relation look at digests only.
 */
module Data {
  import opened Options

  /** The three fields of a `Block` object. */
  datatype Block = Block(value: string, parent: string, digest: string)
  {
    /** `isParent(child)`: the (possibly missing) child names this block's digest as its parent. */
    predicate IsParent(child: Option<Block>)
    {
      child.Some? && child.value.parent == digest
    }

    /** `isSame(other)`: digest equality; a missing `other` is never the same. */
    predicate IsSame(other: Option<Block>)
    {
      other.Some? && other.value.digest == digest
    }
  }

  /**
   * `new Block(value, parent)`: with a parent the block links to the parent's digest and its
   * digest is its value followed by that digest; without one both digests stay empty.
   */
  function NewBlock(value: string, parent: Option<Block>): Block
  {
    match parent
    case Some(p) => Block(value, p.digest, value + p.digest)
    case None => Block(value, "", "")
  }

  /** The genesis block of the test bootstrap: `new Block("A", null)` whose digest is then set to "A". */
  function Genesis(): (g: Block)
    ensures g.value == g.digest == "A" && g.parent == ""
  {
    NewBlock("A", None).(digest := "A")
  }

  /** A block built on a parent links to it, by field and by `isParent`. */
  lemma ChildLinksToParent(value: string, p: Block)
    ensures NewBlock(value, Some(p)).parent == p.digest
    ensures NewBlock(value, Some(p)).digest == value + p.digest
    ensures p.IsParent(Some(NewBlock(value, Some(p))))
  {
  }

  /** A block built without a parent has empty digest and parent digest. */
  lemma OrphanHasEmptyDigests(value: string)
    ensures NewBlock(value, None).digest == "" && NewBlock(value, None).parent == ""
  {
  }

  /** `isSame` is an equivalence on present blocks and false against a missing one. */
  lemma IsSameIsEquivalence(a: Block, b: Block, c: Block)
    ensures a.IsSame(Some(a))
    ensures a.IsSame(Some(b)) <==> b.IsSame(Some(a))
    ensures a.IsSame(Some(b)) && b.IsSame(Some(c)) ==> a.IsSame(Some(c))
    ensures !a.IsSame(None)
  {
  }

  /** The same value on parents with the same digest gives blocks that are the same. */
  lemma NewBlockDeterministic(value: string, p: Block, q: Block)
    requires p.IsSame(Some(q))
    ensures NewBlock(value, Some(p)).IsSame(Some(NewBlock(value, Some(q))))
  {
  }

  /** A child's digest ends with its parent's digest and is as long as both parts together. */
  lemma ChildDigestShape(value: string, p: Block)
    ensures var d := NewBlock(value, Some(p)).digest;
      |d| == |value| + |p.digest| && d[|value|..] == p.digest && d[..|value|] == value
  {
  }

  /** Two children of one parent with distinct values of the same length are not the same. */
  lemma {:induction false} DistinctSiblingsDiffer(v1: string, v2: string, p: Block)
    requires |v1| == |v2| && v1 != v2
    ensures !NewBlock(v1, Some(p)).IsSame(Some(NewBlock(v2, Some(p))))
  {
    ChildDigestShape(v1, p);
    ChildDigestShape(v2, p);
  }

  /** With the same value, children are the same exactly when their parents are. */
  lemma {:induction false} SameChildrenHaveSameParents(value: string, p: Block, q: Block)
    ensures NewBlock(value, Some(p)).IsSame(Some(NewBlock(value, Some(q)))) <==> p.IsSame(Some(q))
  {
    ChildDigestShape(value, p);
    ChildDigestShape(value, q);
  }

  /** A child with a non-empty value is never the same as its parent. */
  lemma ChildDiffersFromParent(value: string, p: Block)
    requires value != ""
    ensures !p.IsSame(Some(NewBlock(value, Some(p))))
  {
  }
}
