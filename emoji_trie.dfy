/**
 * The emoji prefix tree of `emoji_python/EmojiTrie.py`: nodes keyed by one
 * character each, built in place by inserting every emoji's unicode string,
 * then queried for whole strings.
 *
 * The trie's meaning is the ghost map `contents` from unicode strings to the
 * emoji stored at the end of their path; `nodeAt` maps every path present in
 * the tree to its node.
 */
module EmojiTrieModel {
  import opened Wrappers

  /** The trie's own `Emoji`: an object that carries its unicode string. */
  class Emoji {
    const unicode: string

    constructor(unicode: string)
      ensures this.unicode == unicode
    {
      this.unicode := unicode;
    }
  }

  class Node {
    var children: map<char, Node>
    var emoji: Option<Emoji>
    /** The characters that lead from the root to this node. */
    ghost const path: seq<char>

    constructor(ghost path: seq<char>)
      ensures children == map[] && emoji == None && this.path == path
    {
      children := map[];
      emoji := None;
      this.path := path;
    }

    method SetEmoji(e: Emoji)
      modifies this
      ensures emoji == Some(e) && children == old(children)
    {
      emoji := Some(e);
    }

    function GetEmoji(): (r: Option<Emoji>)
      reads this
      ensures r.Some? <==> IsEndOfEmoji()
    {
      emoji
    }

    function HasChild(c: char): (r: bool)
      reads this
      ensures r <==> GetChild(c).Some?
    {
      c in children
    }

    /** Attaches a fresh, empty node under `c`, replacing any node already there. */
    method AddChild(c: char)
      modifies this
      ensures c in children && fresh(children[c])
      ensures children[c].children == map[] && children[c].emoji == None && children[c].path == path + [c]
      ensures forall d :: d != c ==> (d in children <==> d in old(children))
      ensures forall d :: d != c && d in children ==> children[d] == old(children)[d]
      ensures emoji == old(emoji)
    {
      var child := new Node(path + [c]);
      children := children[c := child];
    }

    /** The child under `c`, or None exactly when there is none. */
    function GetChild(c: char): (r: Option<Node>)
      reads this
      ensures r.None? <==> c !in children
      ensures r.Some? ==> r.value == children[c]
    {
      if c in children then Some(children[c]) else None
    }

    predicate IsEndOfEmoji()
      reads this
    {
      emoji.Some?
    }
  }

  /** The emoji a map stores for a key, if any. */
  function Find(m: map<string, Emoji>, key: string): Option<Emoji> {
    if key in m then Some(m[key]) else None
  }

  /** What inserting `emojis` in order stores: each string's last emoji. */
  function Inserted(emojis: seq<Emoji>): map<string, Emoji> {
    if emojis == [] then map[]
    else
      var last := emojis[|emojis| - 1];
      Inserted(emojis[..|emojis| - 1])[last.unicode := last]
  }

  /** `max_depth` after inserting `emojis`: the longest unicode string, 0 for none. */
  function MaxDepth(emojis: seq<Emoji>): nat {
    if emojis == [] then 0
    else
      var last := |emojis[|emojis| - 1].unicode|;
      var rest := MaxDepth(emojis[..|emojis| - 1]);
      if rest < last then last else rest
  }

  class EmojiTrie {
    const root: Node
    var maxDepth: nat
    ghost var contents: map<string, Emoji>
    ghost var nodeAt: map<seq<char>, Node>

    ghost predicate Valid()
      reads this, nodeAt.Values
    {
      Shaped() && Linked() && Stored()
    }

    /** The paths form a prefix-closed set rooted at the empty path, each node knows its own path, and every stored string has a node. */
    ghost predicate Shaped()
      reads this
    {
      && [] in nodeAt && nodeAt[[]] == root
      && (forall p | p in nodeAt :: nodeAt[p].path == p)
      && (forall p | p in nodeAt :: forall i | 0 <= i <= |p| :: p[..i] in nodeAt)
      && contents.Keys <= nodeAt.Keys
    }

    /** A node's children are exactly the nodes one character further down. */
    ghost predicate Linked()
      reads this, nodeAt.Values
    {
      && (forall p, c | p in nodeAt :: c in nodeAt[p].children <==> p + [c] in nodeAt)
      && (forall p, c | p in nodeAt && c in nodeAt[p].children :: nodeAt[p].children[c] == nodeAt[p + [c]])
    }

    /** The node at a path holds the emoji stored for that string, if any. */
    ghost predicate Stored()
      reads this, nodeAt.Values
    {
      forall p | p in nodeAt :: nodeAt[p].emoji == Find(contents, p)
    }

    /** `EmojiTrie(emojis)`: insert every emoji in list order. */
    constructor(emojis: seq<Emoji>)
      ensures Valid()
      ensures contents == Inserted(emojis)
      ensures maxDepth == MaxDepth(emojis)
    {
      var r := new Node([]);
      root := r;
      maxDepth := 0;
      contents := map[];
      nodeAt := map[[] := r];
      new;
      InsertAll(emojis);
    }

    /** The constructor's loop: insert every emoji, in list order, into the empty trie. */
    method InsertAll(emojis: seq<Emoji>)
      requires Valid() && contents == map[] && maxDepth == 0
      modifies this, nodeAt.Values
      ensures Valid() && fresh(nodeAt.Values - old(nodeAt.Values))
      ensures contents == Inserted(emojis)
      ensures maxDepth == MaxDepth(emojis)
    {
      var i := 0;
      while i < |emojis|
        invariant i <= |emojis|
        invariant Valid() && fresh(nodeAt.Values - old(nodeAt.Values))
        invariant contents == Inserted(emojis[..i])
        invariant maxDepth == MaxDepth(emojis[..i])
      {
        var e := emojis[i];
        assert emojis[..i + 1][..i] == emojis[..i] && emojis[..i + 1][i] == e;
        Insert(e);
        assert contents == Inserted(emojis[..i + 1]);
        assert maxDepth == MaxDepth(emojis[..i + 1]);
        i := i + 1;
      }
      assert emojis[..i] == emojis;
    }

    /** One turn of the constructor's loop: walk `e`'s characters, adding missing nodes, and store `e` at the end. */
    method Insert(e: Emoji)
      requires Valid()
      modifies this, nodeAt.Values
      ensures Valid() && fresh(nodeAt.Values - old(nodeAt.Values))
      ensures contents == old(contents)[e.unicode := e]
      ensures maxDepth == if old(maxDepth) < |e.unicode| then |e.unicode| else old(maxDepth)
      ensures forall p | p in old(nodeAt) :: p in nodeAt && nodeAt[p] == old(nodeAt[p])
    {
      if maxDepth < |e.unicode| {
        maxDepth := |e.unicode|;
      }
      var tree := Walk(e.unicode);
      Store(tree, e);
    }

    /** The insertion walk: follow `u` from the root, adding the nodes that are missing. */
    method Walk(u: string) returns (tree: Node)
      requires Valid()
      modifies this, nodeAt.Values
      ensures Valid() && fresh(nodeAt.Values - old(nodeAt.Values))
      ensures contents == old(contents) && maxDepth == old(maxDepth)
      ensures u in nodeAt && nodeAt[u] == tree
      ensures forall p | p in old(nodeAt) :: p in nodeAt && nodeAt[p] == old(nodeAt[p])
    {
      tree := root;
      var i := 0;
      while i < |u|
        invariant i <= |u|
        invariant Valid() && fresh(nodeAt.Values - old(nodeAt.Values))
        invariant contents == old(contents) && maxDepth == old(maxDepth)
        invariant u[..i] in nodeAt && nodeAt[u[..i]] == tree
        invariant forall p | p in old(nodeAt) :: p in nodeAt && nodeAt[p] == old(nodeAt[p])
      {
        assert u[..i + 1] == u[..i] + [u[i]];
        tree := Descend(tree, u[..i], u[i]);
        i := i + 1;
      }
      assert u[..i] == u;
    }

    /** One turn of the insertion walk: add the child under `c` when it is missing, then move to it. */
    method Descend(tree: Node, ghost p: seq<char>, c: char) returns (next: Node)
      requires Valid() && p in nodeAt && nodeAt[p] == tree
      modifies this, tree
      ensures Valid() && fresh(nodeAt.Values - old(nodeAt.Values))
      ensures contents == old(contents) && maxDepth == old(maxDepth)
      ensures p + [c] in nodeAt && nodeAt[p + [c]] == next
      ensures forall q | q in old(nodeAt) :: q in nodeAt && nodeAt[q] == old(nodeAt[q])
    {
      if !tree.HasChild(c) {
        Grow(tree, p, c);
      }
      next := tree.GetChild(c).value;
    }

    /** `tree.set_emoji(e)` on the node at `e`'s path. */
    method Store(tree: Node, e: Emoji)
      requires Valid() && e.unicode in nodeAt && nodeAt[e.unicode] == tree
      modifies this, tree
      ensures Valid()
      ensures contents == old(contents)[e.unicode := e]
      ensures nodeAt == old(nodeAt) && maxDepth == old(maxDepth)
    {
      tree.SetEmoji(e);
      contents := contents[e.unicode := e];
    }

    /** `add_child` on the node at `p`, with the ghost view extended by the new path. */
    method Grow(tree: Node, ghost p: seq<char>, c: char)
      requires Valid() && p in nodeAt && nodeAt[p] == tree && c !in tree.children
      modifies this, tree
      ensures Valid()
      ensures contents == old(contents) && maxDepth == old(maxDepth)
      ensures c in tree.children && nodeAt == old(nodeAt)[p + [c] := tree.children[c]]
      ensures fresh(tree.children[c])
    {
      tree.AddChild(c);
      var child := tree.children[c];
      nodeAt := nodeAt[p + [c] := child];
      GrowKeepsShape(old(nodeAt), p, c);
      forall q, d | q in nodeAt
        ensures d in nodeAt[q].children <==> q + [d] in nodeAt
        ensures d in nodeAt[q].children ==> nodeAt[q].children[d] == nodeAt[q + [d]]
      {
        SnocInjective(q, d, p, c);
      }
    }

    /** Searches `sequence` character by character; true exactly when the whole sequence was inserted. */
    method IsEmoji(sequence: seq<char>) returns (r: bool)
      requires Valid()
      ensures r <==> sequence in contents
    {
      var tree := root;
      var i := 0;
      while i < |sequence|
        invariant i <= |sequence|
        invariant sequence[..i] in nodeAt && nodeAt[sequence[..i]] == tree
      {
        var c := sequence[i];
        assert sequence[..i + 1] == sequence[..i] + [c];
        if !tree.HasChild(c) {
          Absent(sequence, i);
          return false;
        }
        tree := tree.GetChild(c).value;
        i := i + 1;
      }
      assert sequence[..i] == sequence;
      r := tree.IsEndOfEmoji();
    }

    /** Finds the emoji stored for `unicode`, or None when it was never inserted. */
    method GetEmoji(unicode: string) returns (r: Option<Emoji>)
      requires Valid()
      ensures r == Find(contents, unicode)
    {
      var tree := root;
      var i := 0;
      while i < |unicode|
        invariant i <= |unicode|
        invariant unicode[..i] in nodeAt && nodeAt[unicode[..i]] == tree
      {
        var c := unicode[i];
        assert unicode[..i + 1] == unicode[..i] + [c];
        if !tree.HasChild(c) {
          Absent(unicode, i);
          return None;
        }
        tree := tree.GetChild(c).value;
        i := i + 1;
      }
      assert unicode[..i] == unicode;
      r := tree.GetEmoji();
    }

    /** A missing child on the way down means the string was never inserted. */
    lemma Absent(s: seq<char>, i: nat)
      requires Valid() && i < |s| && s[..i] in nodeAt
      requires s[i] !in nodeAt[s[..i]].children
      ensures s !in nodeAt && s !in contents
    {
      assert s[..i + 1] == s[..i] + [s[i]];
    }
  }

  lemma SnocInjective(q: seq<char>, d: char, p: seq<char>, c: char)
    ensures q + [d] == p + [c] ==> q == p && d == c
  {
    if q + [d] == p + [c] {
      assert q == (q + [d])[..|q|];
      assert p == (p + [c])[..|p|];
    }
  }

  /**
   * Adding the path `p + [c]` to a prefix-closed set of paths in which it is
   * new keeps the set prefix-closed and gives the new path no extensions.
   */
  lemma GrowKeepsShape(nodeAt: map<seq<char>, Node>, p: seq<char>, c: char)
    requires p in nodeAt && p + [c] !in nodeAt
    requires forall q | q in nodeAt :: forall i | 0 <= i <= |q| :: q[..i] in nodeAt
    ensures forall i | 0 <= i <= |p + [c]| :: (p + [c])[..i] == p + [c] || (p + [c])[..i] in nodeAt
    ensures forall d :: p + [c] + [d] !in nodeAt
  {
    forall i | 0 <= i <= |p + [c]| ensures (p + [c])[..i] == p + [c] || (p + [c])[..i] in nodeAt {
      if i <= |p| {
        assert (p + [c])[..i] == p[..i];
      }
    }
    forall d ensures p + [c] + [d] !in nodeAt {
      assert (p + [c] + [d])[..|p| + 1] == p + [c];
    }
  }

  // -----------------------------------------------------------------------
  // What construction stores
  // -----------------------------------------------------------------------

  /** A string is stored exactly when some emoji in the list has it. */
  lemma {:induction false} InsertedKeys(emojis: seq<Emoji>, u: string)
    ensures u in Inserted(emojis) <==> exists i :: 0 <= i < |emojis| && emojis[i].unicode == u
  {
    if emojis != [] {
      var rest := emojis[..|emojis| - 1];
      InsertedKeys(rest, u);
      if exists i :: 0 <= i < |rest| && rest[i].unicode == u {
        var i :| 0 <= i < |rest| && rest[i].unicode == u;
        assert emojis[i] == rest[i];
      }
      if exists i :: 0 <= i < |emojis| && emojis[i].unicode == u {
        var i :| 0 <= i < |emojis| && emojis[i].unicode == u;
        if i < |rest| {
          assert rest[i] == emojis[i];
        }
      }
    }
  }

  /** For a duplicated string the last emoji inserted with it wins. */
  lemma {:induction false} InsertedLastWins(emojis: seq<Emoji>, u: string)
    requires u in Inserted(emojis)
    ensures exists i :: 0 <= i < |emojis| && emojis[i] == Inserted(emojis)[u] && emojis[i].unicode == u
                        && forall j :: i < j < |emojis| ==> emojis[j].unicode != u
  {
    var rest := emojis[..|emojis| - 1];
    var last := |emojis| - 1;
    assert Inserted(emojis) == Inserted(rest)[emojis[last].unicode := emojis[last]];
    if emojis[last].unicode != u {
      assert u in Inserted(rest) && Inserted(emojis)[u] == Inserted(rest)[u];
      InsertedLastWins(rest, u);
      var i :| 0 <= i < |rest| && rest[i] == Inserted(rest)[u] && rest[i].unicode == u
                && forall j :: i < j < |rest| ==> rest[j].unicode != u;
      assert emojis[i] == rest[i];
      assert forall j :: i < j < last ==> emojis[j] == rest[j];
    } else {
      assert emojis[last] == Inserted(emojis)[u];
    }
  }

  /** After construction every inserted emoji's string finds an emoji with that string. */
  lemma FindInserted(emojis: seq<Emoji>, k: nat)
    requires k < |emojis|
    ensures Find(Inserted(emojis), emojis[k].unicode).Some?
    ensures Find(Inserted(emojis), emojis[k].unicode).value.unicode == emojis[k].unicode
  {
    InsertedKeys(emojis, emojis[k].unicode);
    InsertedLastWins(emojis, emojis[k].unicode);
  }

  /** `max_depth` bounds every inserted string and is reached by one of them. */
  lemma {:induction false} MaxDepthIsLongest(emojis: seq<Emoji>)
    ensures forall i :: 0 <= i < |emojis| ==> |emojis[i].unicode| <= MaxDepth(emojis)
    ensures emojis != [] ==> exists i :: 0 <= i < |emojis| && |emojis[i].unicode| == MaxDepth(emojis)
  {
    if emojis != [] {
      var rest := emojis[..|emojis| - 1];
      MaxDepthIsLongest(rest);
      assert forall i :: 0 <= i < |rest| ==> emojis[i] == rest[i];
      if rest != [] && |emojis[|emojis| - 1].unicode| <= MaxDepth(rest) {
        var i :| 0 <= i < |rest| && |rest[i].unicode| == MaxDepth(rest);
        assert emojis[i] == rest[i];
      } else {
        assert |emojis[|emojis| - 1].unicode| == MaxDepth(emojis);
      }
    }
  }
}
