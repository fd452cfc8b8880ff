/** Text helpers shared by the generator: JavaScript's `Array.prototype.join`
    and substring containment. */
module Strings {

  /** `parts.join(sep)`: the parts in order, with `sep` between neighbours. */
  function Join(parts: seq<string>, sep: string): (r: string)
    ensures |parts| == 0 ==> r == ""
    ensures |parts| == 1 ==> r == parts[0]
  {
    if |parts| == 0 then ""
    else if |parts| == 1 then parts[0]
    else parts[0] + sep + Join(parts[1..], sep)
  }

  /** `t` occurs in `s` starting at position `i`. */
  predicate OccursAt(s: string, t: string, i: nat)
  {
    i + |t| <= |s| && s[i..i + |t|] == t
  }

  /** `t` occurs in `s` as a contiguous block. */
  ghost predicate Contains(s: string, t: string)
  {
    exists i: nat :: OccursAt(s, t, i)
  }

  /** `p` is a prefix of `s`. */
  predicate StartsWith(s: string, p: string)
  {
    |p| <= |s| && s[..|p|] == p
  }

  predicate EndsWith(s: string, p: string)
  {
    |p| <= |s| && s[|s| - |p|..] == p
  }

  lemma ContainsMiddle(a: string, t: string, b: string)
    ensures Contains(a + t + b, t)
  {
    var s := a + t + b;
    assert s[|a|..|a| + |t|] == t;
    assert OccursAt(s, t, |a|);
  }

  lemma {:induction false} ContainsTrans(s: string, t: string, u: string)
    requires Contains(s, t) && Contains(t, u)
    ensures Contains(s, u)
  {
    var i: nat :| OccursAt(s, t, i);
    var j: nat :| OccursAt(t, u, j);
    assert t == s[i..i + |t|];
    forall k | 0 <= k < |u|
      ensures u[k] == s[i + j + k]
    {
      assert u[k] == t[j + k];
    }
    assert u == s[i + j..i + j + |u|];
    assert OccursAt(s, u, i + j);
  }

  /** What occurs in a middle piece occurs in the whole. */
  lemma ContainsInMiddle(a: string, t: string, b: string, u: string)
    requires Contains(t, u)
    ensures Contains(a + t + b, u)
  {
    ContainsMiddle(a, t, b);
    ContainsTrans(a + t + b, t, u);
  }

  /** Joining with the empty separator distributes over sequence concatenation. */
  lemma {:induction false} JoinEmptyAppend(a: seq<string>, b: seq<string>)
    ensures Join(a + b, "") == Join(a, "") + Join(b, "")
  {
    if |a| == 0 {
      assert a + b == b;
    } else if |a| == 1 {
      if |b| == 0 {
        assert a + b == a;
      } else {
        assert (a + b)[1..] == b;
      }
    } else {
      assert (a + b)[1..] == a[1..] + b;
      JoinEmptyAppend(a[1..], b);
    }
  }

  /** Splitting a join between positions `k - 1` and `k`. */
  lemma {:induction false} JoinSplit(parts: seq<string>, sep: string, k: nat)
    requires 0 < k < |parts|
    ensures Join(parts, sep) == Join(parts[..k], sep) + sep + Join(parts[k..], sep)
  {
    if k == 1 {
      assert parts[..1] == [parts[0]];
      assert parts[1..] == parts[k..];
    } else {
      JoinSplit(parts[1..], sep, k - 1);
      assert parts[1..][..k - 1] == parts[..k][1..];
      assert parts[1..][k - 1..] == parts[k..];
    }
  }

  /** Every part of a join occurs in it. */
  lemma {:induction false} JoinContainsPart(parts: seq<string>, sep: string, k: nat)
    requires k < |parts|
    ensures Contains(Join(parts, sep), parts[k])
  {
    if |parts| == 1 {
      ContainsMiddle("", parts[0], "");
      assert "" + parts[0] + "" == parts[0];
    } else if k == 0 {
      ContainsMiddle("", parts[0], sep + Join(parts[1..], sep));
      assert "" + parts[0] + (sep + Join(parts[1..], sep)) == Join(parts, sep);
    } else {
      JoinContainsPart(parts[1..], sep, k - 1);
      ContainsInMiddle(parts[0] + sep, Join(parts[1..], sep), "", parts[k]);
      assert parts[0] + sep + Join(parts[1..], sep) + "" == Join(parts, sep);
    }
  }

  /** Appending one part to a non-empty join adds the separator and the part. */
  lemma JoinSnoc(parts: seq<string>, sep: string, x: string)
    requires |parts| > 0
    ensures Join(parts + [x], sep) == Join(parts, sep) + sep + x
  {
    var all := parts + [x];
    JoinSplit(all, sep, |parts|);
    assert all[..|parts|] == parts;
    assert all[|parts|..] == [x];
  }

  /** The concatenation of the pieces of a template. */
  function Concat(pieces: seq<string>): (r: string)
    ensures |pieces| == 0 ==> r == ""
  {
    if |pieces| == 0 then "" else pieces[0] + Concat(pieces[1..])
  }

  /** Joining with the empty separator is concatenation. */
  lemma {:induction false} JoinEmptyIsConcat(parts: seq<string>)
    ensures Join(parts, "") == Concat(parts)
  {
    if |parts| == 1 {
      assert Concat(parts[1..]) == "";
    } else if |parts| > 1 {
      JoinEmptyIsConcat(parts[1..]);
    }
  }

  lemma {:induction false} ConcatAppend(a: seq<string>, b: seq<string>)
    ensures Concat(a + b) == Concat(a) + Concat(b)
  {
    if |a| == 0 {
      assert a + b == b;
    } else {
      assert (a + b)[1..] == a[1..] + b;
      ConcatAppend(a[1..], b);
    }
  }

  lemma Concat1(a: string)
    ensures Concat([a]) == a
  {
    assert [a][1..] == [];
  }

  lemma Concat3(a: string, b: string, c: string)
    ensures Concat([a, b, c]) == a + b + c
  {
    assert [a, b, c][1..] == [b, c];
    assert [b, c][1..] == [c];
    Concat1(c);
  }

  lemma Concat5(a: string, b: string, c: string, d: string, e: string)
    ensures Concat([a, b, c, d, e]) == a + b + c + d + e
  {
    assert [a, b, c, d, e][1..] == [b, c, d, e];
    assert [b, c, d, e][1..] == [c, d, e];
    Concat3(c, d, e);
  }

  lemma Concat7(a: string, b: string, c: string, d: string, e: string, f: string, g: string)
    ensures Concat([a, b, c, d, e, f, g]) == a + b + c + d + e + f + g
  {
    assert [a, b, c, d, e, f, g][1..] == [b, c, d, e, f, g];
    assert [b, c, d, e, f, g][1..] == [c, d, e, f, g];
    Concat5(c, d, e, f, g);
  }

  /** Cutting the pieces at `k` cuts the concatenation. */
  lemma {:induction false} ConcatSplitAt(pieces: seq<string>, k: nat)
    requires k <= |pieces|
    ensures Concat(pieces) == Concat(pieces[..k]) + Concat(pieces[k..])
  {
    if k == 0 {
      assert pieces[..0] == [] && pieces[0..] == pieces;
    } else {
      ConcatSplitAt(pieces[1..], k - 1);
      assert pieces[1..][..k - 1] == pieces[..k][1..];
      assert pieces[1..][k - 1..] == pieces[k..];
    }
  }

  /** Any run of consecutive pieces occurs in the concatenation. */
  lemma {:induction false} ConcatRun(pieces: seq<string>, i: nat, j: nat)
    requires i <= j <= |pieces|
    ensures Contains(Concat(pieces), Concat(pieces[i..j]))
  {
    if i == 0 {
      ConcatSplitAt(pieces, j);
      assert pieces[0..j] == pieces[..j];
      ContainsMiddle("", Concat(pieces[..j]), Concat(pieces[j..]));
      assert "" + Concat(pieces[..j]) + Concat(pieces[j..]) == Concat(pieces);
    } else {
      var tail := pieces[1..];
      ConcatRun(tail, i - 1, j - 1);
      assert tail[i - 1..j - 1] == pieces[i..j] by {
        forall k | 0 <= k < j - i
          ensures tail[i - 1..j - 1][k] == pieces[i..j][k]
        {
          assert tail[i - 1 + k] == pieces[i + k];
        }
      }
      ContainsInMiddle(pieces[0], Concat(tail), "", Concat(pieces[i..j]));
      assert pieces[0] + Concat(tail) + "" == Concat(pieces);
    }
  }

  /** Every piece occurs in the concatenation. */
  lemma ConcatPart(pieces: seq<string>, k: nat)
    requires k < |pieces|
    ensures Contains(Concat(pieces), pieces[k])
  {
    ConcatRun(pieces, k, k + 1);
    assert pieces[k..k + 1] == [pieces[k]];
    Concat1(pieces[k]);
  }

  /** The concatenation starts with the concatenation of its first pieces. */
  lemma ConcatPrefix(pieces: seq<string>, k: nat)
    requires k <= |pieces|
    ensures StartsWith(Concat(pieces), Concat(pieces[..k]))
  {
    assert pieces == pieces[..k] + pieces[k..];
    ConcatAppend(pieces[..k], pieces[k..]);
  }

  /** Three consecutive pieces occur, joined, in the concatenation. */
  lemma {:induction false} ConcatRun3(pieces: seq<string>, i: nat)
    requires i + 3 <= |pieces|
    ensures Contains(Concat(pieces), pieces[i] + pieces[i + 1] + pieces[i + 2])
  {
    var tail := pieces[1..];
    if i == 0 {
      var rest := Concat(pieces[3..]);
      assert tail[1..][1..] == pieces[3..];
      assert Concat(tail[1..]) == pieces[2] + rest;
      assert Concat(tail) == pieces[1] + Concat(tail[1..]);
      assert Concat(pieces) == pieces[0] + (pieces[1] + (pieces[2] + rest));
      assert Concat(pieces) == "" + (pieces[0] + pieces[1] + pieces[2]) + rest;
      ContainsMiddle("", pieces[0] + pieces[1] + pieces[2], rest);
    } else {
      ConcatRun3(tail, i - 1);
      assert tail[i - 1] == pieces[i] && tail[i] == pieces[i + 1] && tail[i + 1] == pieces[i + 2];
      ContainsInMiddle(pieces[0], Concat(tail), "", pieces[i] + pieces[i + 1] + pieces[i + 2]);
      assert pieces[0] + Concat(tail) + "" == Concat(pieces);
    }
  }

  /** A middle part occurs together with the end `u` of what precedes it
      and the start `v` of what follows it. */
  lemma ContainsFramed(a: string, b: string, c: string, u: string, v: string)
    requires EndsWith(a, u) && StartsWith(c, v)
    ensures Contains(a + b + c, u + b + v)
  {
    var s, t, p := a + b + c, u + b + v, |a| - |u|;
    forall k | 0 <= k < |t|
      ensures s[p + k] == t[k]
    {
      if k < |u| {
        assert s[p + k] == a[p + k] == u[k];
      } else if k < |u| + |b| {
        assert s[p + k] == b[k - |u|];
      } else {
        assert s[p + k] == c[k - |u| - |b|] == v[k - |u| - |b|];
      }
    }
    assert s[p..p + |t|] == t;
    assert OccursAt(s, t, p);
  }

  /** A piece occurs in the concatenation together with the end `u` of the
      piece before it and the start `v` of the piece after it. */
  lemma ConcatWindow(pieces: seq<string>, i: nat, u: string, v: string)
    requires i + 3 <= |pieces|
    requires EndsWith(pieces[i], u) && StartsWith(pieces[i + 2], v)
    ensures Contains(Concat(pieces), u + pieces[i + 1] + v)
  {
    var a, b, c := pieces[i], pieces[i + 1], pieces[i + 2];
    ConcatRun3(pieces, i);
    ContainsFramed(a, b, c, u, v);
    ContainsTrans(Concat(pieces), a + b + c, u + b + v);
  }

  /** The concatenation starts with its first three pieces. */
  lemma ConcatPrefix3(pieces: seq<string>)
    requires 3 <= |pieces|
    ensures StartsWith(Concat(pieces), pieces[0] + pieces[1] + pieces[2])
  {
    var run := pieces[..3];
    ConcatPrefix(pieces, 3);
    assert run == [run[0], run[1], run[2]];
    Concat3(run[0], run[1], run[2]);
  }

  /** What the last of three pieces holds, their concatenation holds. */
  lemma ConcatLastHolds(a: string, b: string, c: string, u: string)
    requires Contains(c, u)
    ensures Contains(Concat([a, b, c]), u)
  {
    Concat3(a, b, c);
    ContainsInMiddle(a + b, c, "", u);
    assert a + b + c + "" == a + b + c;
  }

  /** `s.map(f)`. */
  function MapSeq<A, B>(s: seq<A>, f: A -> B): (r: seq<B>)
    ensures |r| == |s|
    ensures forall k :: 0 <= k < |s| ==> r[k] == f(s[k])
  {
    if |s| == 0 then [] else [f(s[0])] + MapSeq(s[1..], f)
  }

  lemma MapSeqAppend<A, B>(a: seq<A>, b: seq<A>, f: A -> B)
    ensures MapSeq(a + b, f) == MapSeq(a, f) + MapSeq(b, f)
  {
    assert |MapSeq(a + b, f)| == |MapSeq(a, f) + MapSeq(b, f)|;
    forall k | 0 <= k < |a + b|
      ensures MapSeq(a + b, f)[k] == (MapSeq(a, f) + MapSeq(b, f))[k]
    {
      if k < |a| {
        assert (a + b)[k] == a[k];
      } else {
        assert (a + b)[k] == b[k - |a|];
      }
    }
  }
}
