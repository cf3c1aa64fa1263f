/** The list operations the selection uses: searching for a tool and removing
    its first occurrence, keeping every other entry in place. */
module Selection {
  import opened Tools

  /** Position of the first occurrence of `t`, or `|sel|` when there is none. */
  function IndexOf(sel: seq<Tool>, t: Tool): (i: nat)
    ensures i <= |sel|
    ensures i < |sel| <==> t in sel
    ensures i < |sel| ==> sel[i] == t
    ensures t !in sel[..i]
  {
    if sel == [] then 0
    else if sel[0] == t then 0
    else
      assert sel[1..][..IndexOf(sel[1..], t)] == sel[..IndexOf(sel[1..], t) + 1][1..];
      1 + IndexOf(sel[1..], t)
  }

  /** Removes the first occurrence of `t`; a missing tool leaves the list as it is. */
  function Remove(sel: seq<Tool>, t: Tool): (r: seq<Tool>)
    ensures t !in sel ==> r == sel
    ensures t in sel ==> |r| == |sel| - 1
    ensures t in sel ==> exists i :: 0 <= i < |sel| && sel[i] == t && t !in sel[..i] && r == sel[..i] + sel[i + 1..]
    ensures multiset(r) == multiset(sel) - multiset{t}
  {
    var i := IndexOf(sel, t);
    if i < |sel| then
      assert sel == sel[..i] + [t] + sel[i + 1..];
      sel[..i] + sel[i + 1..]
    else sel
  }

  /** Entry `k` of the list after removing position `i` is the entry that sat
      at `k` before `i`, and one place further along from `i` on. */
  lemma RemoveAtIndex(sel: seq<Tool>, i: nat, k: nat)
    requires i < |sel| && k < |sel| - 1
    ensures (sel[..i] + sel[i + 1..])[k] == sel[if k < i then k else k + 1]
  {
  }

  /** Removing a tool from a duplicate-free list removes it entirely and keeps
      the list duplicate-free. */
  lemma RemoveNoDup(sel: seq<Tool>, t: Tool)
    requires NoDup(sel)
    ensures t !in Remove(sel, t)
    ensures NoDup(Remove(sel, t))
  {
    var i := IndexOf(sel, t);
    if i < |sel| {
      var r := sel[..i] + sel[i + 1..];
      assert Remove(sel, t) == r;
      forall a, b | 0 <= a < b < |r|
        ensures r[a] != r[b]
      {
        RemoveAtIndex(sel, i, a);
        RemoveAtIndex(sel, i, b);
      }
      forall k | 0 <= k < |r|
        ensures r[k] != t
      {
        RemoveAtIndex(sel, i, k);
      }
    }
  }

  /** Appending a tool and removing it again gives back the original list. */
  lemma RemoveAppended(sel: seq<Tool>, t: Tool)
    requires t !in sel
    ensures Remove(sel + [t], t) == sel
  {
    var s := sel + [t];
    var i := IndexOf(s, t);
    assert s[|sel|] == t;
    assert i == |sel|;
    assert s[..i] == sel;
  }
}
