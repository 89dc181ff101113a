/** Sequence helpers the model shares: `Array.prototype.filter` on lists,
    and subsequences given by the ascending positions they are read at. */
module ListOps {

  /** `idx` lists positions below `n`, strictly increasing. */
  ghost predicate Ascending(idx: seq<int>, n: int)
  {
    && (forall k :: 0 <= k < |idx| ==> 0 <= idx[k] < n)
    && (forall k, l :: 0 <= k < l < |idx| ==> idx[k] < idx[l])
  }

  /** `sub` is the subsequence of `s` taken at the ascending positions `idx`. */
  ghost predicate Embeds<T>(sub: seq<T>, s: seq<T>, idx: seq<int>)
  {
    && |idx| == |sub|
    && Ascending(idx, |s|)
    && (forall k :: 0 <= k < |idx| ==> sub[k] == s[idx[k]])
  }

  ghost predicate IsSubsequence<T>(sub: seq<T>, s: seq<T>)
  {
    exists idx :: Embeds(sub, s, idx)
  }

  /** `idx` shifted one position to the right, to embed into `[x] + s`. */
  function Shift(idx: seq<int>): seq<int>
  {
    seq(|idx|, k requires 0 <= k < |idx| => idx[k] + 1)
  }

  lemma ShiftMembers(idx: seq<int>)
    ensures forall i :: i in Shift(idx) <==> i - 1 in idx
  {
    forall i
      ensures i in Shift(idx) <==> i - 1 in idx
    {
      if i - 1 in idx {
        var k :| 0 <= k < |idx| && idx[k] == i - 1;
        assert Shift(idx)[k] == i;
      }
    }
  }

  /** An embedding into the tail of `s` is an embedding into `s`, shifted,
      and it extends by the head of `s`. */
  lemma EmbedsIntoCons<T>(sub: seq<T>, s: seq<T>, idx: seq<int>)
    requires |s| > 0
    requires Embeds(sub, s[1..], idx)
    ensures Embeds(sub, s, Shift(idx))
    ensures Embeds([s[0]] + sub, s, [0] + Shift(idx))
  {
    var sh := Shift(idx);
    assert forall k :: 0 <= k < |sh| ==> sub[k] == s[1..][idx[k]] == s[sh[k]];
    var sub', sh' := [s[0]] + sub, [0] + sh;
    forall k | 0 <= k < |sh'|
      ensures 0 <= sh'[k] < |s| && sub'[k] == s[sh'[k]]
    {
      if k > 0 {
        assert sh'[k] == sh[k - 1] && sub'[k] == sub[k - 1];
      }
    }
  }

  /** `s.filter(keep)`. */
  function Filter<T(!new)>(s: seq<T>, keep: T -> bool): (r: seq<T>)
    ensures |r| <= |s|
    ensures forall x :: x in r <==> x in s && keep(x)
  {
    if s == [] then []
    else if keep(s[0]) then [s[0]] + Filter(s[1..], keep)
    else Filter(s[1..], keep)
  }

  /** The filter keeps exactly the elements that pass, in their original
      order: `idx` lists, ascending, every position of a passing element and
      no other, and the result is `s` read at those positions. */
  lemma {:induction false} FilterSelects<T(!new)>(s: seq<T>, keep: T -> bool) returns (idx: seq<int>)
    ensures Embeds(Filter(s, keep), s, idx)
    ensures forall i :: 0 <= i < |s| ==> (i in idx <==> keep(s[i]))
  {
    if s == [] {
      idx := [];
    } else {
      var rest := FilterSelects(s[1..], keep);
      EmbedsIntoCons(Filter(s[1..], keep), s, rest);
      ShiftMembers(rest);
      if keep(s[0]) {
        idx := [0] + Shift(rest);
      } else {
        idx := Shift(rest);
      }
      assert forall i :: 0 < i < |s| ==> s[i] == s[1..][i - 1];
    }
  }

  lemma FilterIsSubsequence<T(!new)>(s: seq<T>, keep: T -> bool)
    ensures IsSubsequence(Filter(s, keep), s)
  {
    var idx := FilterSelects(s, keep);
  }

  /** Filtering a list with one more element at the end. */
  lemma {:induction false} FilterSnoc<T(!new)>(s: seq<T>, x: T, keep: T -> bool)
    ensures Filter(s + [x], keep) == Filter(s, keep) + (if keep(x) then [x] else [])
  {
    if s == [] {
      assert [x][1..] == [];
    } else {
      assert (s + [x])[1..] == s[1..] + [x];
      FilterSnoc(s[1..], x, keep);
    }
  }

  /** A filter every element passes changes nothing. */
  lemma {:induction false} FilterAllPass<T(!new)>(s: seq<T>, keep: T -> bool)
    requires forall i :: 0 <= i < |s| ==> keep(s[i])
    ensures Filter(s, keep) == s
  {
    if s != [] {
      FilterAllPass(s[1..], keep);
    }
  }
}
