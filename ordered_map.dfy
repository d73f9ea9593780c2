/**
 * std::map<std::string, V> as an association list kept in ascending key
 * order. Iteration over a std::map visits the keys in ascending order, which
 * is what the description getters and the planner listing expose; `operator[]`
 * assignment inserts or overwrites the value of one key.
 */
module OrderedMap {
  import opened Wrappers
  import opened StdString

  type Entries<V> = seq<(string, V)>

  /** The keys strictly ascend, so no key occurs twice. */
  predicate Ascending<V>(m: Entries<V>)
  {
    forall i, j :: 0 <= i < j < |m| ==> Less(m[i].0, m[j].0)
  }

  /** Every key of m lies above lo. */
  predicate AllAbove<V>(m: Entries<V>, lo: string)
  {
    forall i :: 0 <= i < |m| ==> Less(lo, m[i].0)
  }

  /** std::map::find: the value stored under k, if any. */
  function Get<V>(m: Entries<V>, k: string): (r: Option<V>)
    ensures r.Some? <==> exists i :: 0 <= i < |m| && m[i].0 == k
    ensures r.Some? ==> exists i :: 0 <= i < |m| && m[i] == (k, r.value)
  {
    if |m| == 0 then None
    else if m[0].0 == k then Some(m[0].1)
    else
      var t := Get(m[1..], k);
      assert forall i :: 0 < i < |m| ==> m[i] == m[1..][i - 1];
      t
  }

  /** The keys in iteration order. */
  function Keys<V>(m: Entries<V>): (r: seq<string>)
    ensures |r| == |m|
    ensures forall i :: 0 <= i < |m| ==> r[i] == m[i].0
  {
    if |m| == 0 then [] else [m[0].0] + Keys(m[1..])
  }

  /** The values in iteration order. */
  function Values<V>(m: Entries<V>): (r: seq<V>)
    ensures |r| == |m|
    ensures forall i :: 0 <= i < |m| ==> r[i] == m[i].1
  {
    if |m| == 0 then [] else [m[0].1] + Values(m[1..])
  }

  /** A key below every key of an ascending map is absent from it. */
  lemma {:induction false} AbsentBelow<V>(m: Entries<V>, k: string)
    requires AllAbove(m, k)
    ensures Get(m, k) == None
  {
    if |m| > 0 {
      LessIrreflexive(k);
      assert AllAbove(m[1..], k) by {
        forall i | 0 <= i < |m| - 1 ensures Less(k, m[1..][i].0) { assert m[1..][i] == m[i + 1]; }
      }
      AbsentBelow(m[1..], k);
    }
  }

  /** `m[k] = v`: overwrite the entry for k, or insert it at its place in key order. */
  function Put<V>(m: Entries<V>, k: string, v: V): (r: Entries<V>)
    requires Ascending(m)
    ensures Ascending(r)
    ensures Get(r, k) == Some(v)
    ensures forall k' :: k' != k ==> Get(r, k') == Get(m, k')
    ensures |r| == if Get(m, k).Some? then |m| else |m| + 1
    ensures forall lo :: AllAbove(m, lo) && Less(lo, k) ==> AllAbove(r, lo)
  {
    if |m| == 0 then [(k, v)]
    else if m[0].0 == k then [(k, v)] + m[1..]
    else if Less(k, m[0].0) then
      assert AllAbove(m, k) by {
        forall i | 0 <= i < |m| ensures Less(k, m[i].0) {
          if i > 0 { LessTransitive(k, m[0].0, m[i].0); }
        }
      }
      AbsentBelow(m, k);
      [(k, v)] + m
    else
      LessTotal(k, m[0].0);
      var tail := m[1..];
      assert Ascending(tail) by {
        forall i, j | 0 <= i < j < |tail| ensures Less(tail[i].0, tail[j].0) {
          assert tail[i] == m[i + 1] && tail[j] == m[j + 1];
        }
      }
      assert AllAbove(tail, m[0].0) by {
        forall i | 0 <= i < |tail| ensures Less(m[0].0, tail[i].0) { assert tail[i] == m[i + 1]; }
      }
      var rest := Put(tail, k, v);
      assert AllAbove(rest, m[0].0);
      var r := [m[0]] + rest;
      assert forall i :: 0 < i < |r| ==> r[i] == rest[i - 1];
      assert forall lo :: AllAbove(m, lo) && Less(lo, k) ==> AllAbove(r, lo) by {
        forall lo | AllAbove(m, lo) && Less(lo, k) ensures AllAbove(r, lo) {
          assert AllAbove(tail, lo) by {
            forall i | 0 <= i < |tail| ensures Less(lo, tail[i].0) { assert tail[i] == m[i + 1]; }
          }
        }
      }
      r
  }

  lemma HeadFound<V>(m: Entries<V>)
    requires |m| > 0
    ensures Get(m, m[0].0) == Some(m[0].1)
  {
  }

  /** Two ascending maps that agree on every lookup are the same list. */
  lemma {:induction false} Canonical<V>(a: Entries<V>, b: Entries<V>)
    requires Ascending(a) && Ascending(b)
    requires forall k :: Get(a, k) == Get(b, k)
    ensures a == b
  {
    if |a| == 0 && |b| > 0 {
      HeadFound(b);
      assert false;
    } else if |b| == 0 && |a| > 0 {
      HeadFound(a);
      assert false;
    } else if |a| > 0 {
      var ka, kb := a[0].0, b[0].0;
      if ka != kb {
        LessTotal(ka, kb);
        if Less(ka, kb) {
          assert AllAbove(b, ka) by {
            forall i | 0 <= i < |b| ensures Less(ka, b[i].0) {
              if i > 0 { LessTransitive(ka, kb, b[i].0); }
            }
          }
          assert Get(a, ka).Some?;
          AbsentBelow(b, ka);
        } else {
          assert AllAbove(a, kb) by {
            forall i | 0 <= i < |a| ensures Less(kb, a[i].0) {
              if i > 0 { LessTransitive(kb, ka, a[i].0); }
            }
          }
          assert Get(b, kb).Some?;
          AbsentBelow(a, kb);
        }
      }
      assert a[0].1 == b[0].1 by { assert Get(a, ka) == Get(b, ka); }
      var ta, tb := a[1..], b[1..];
      assert Ascending(ta) by {
        forall i, j | 0 <= i < j < |ta| ensures Less(ta[i].0, ta[j].0) { assert ta[i] == a[i + 1] && ta[j] == a[j + 1]; }
      }
      assert Ascending(tb) by {
        forall i, j | 0 <= i < j < |tb| ensures Less(tb[i].0, tb[j].0) { assert tb[i] == b[i + 1] && tb[j] == b[j + 1]; }
      }
      forall k ensures Get(ta, k) == Get(tb, k) {
        if k == ka {
          assert AllAbove(ta, ka) by {
            forall i | 0 <= i < |ta| ensures Less(ka, ta[i].0) { assert ta[i] == a[i + 1]; }
          }
          assert AllAbove(tb, ka) by {
            forall i | 0 <= i < |tb| ensures Less(ka, tb[i].0) { assert tb[i] == b[i + 1]; }
          }
          AbsentBelow(ta, ka);
          AbsentBelow(tb, ka);
        } else {
          assert Get(a, k) == Get(ta, k) && Get(b, k) == Get(tb, k);
        }
      }
      Canonical(ta, tb);
      assert a == [a[0]] + ta && b == [b[0]] + tb;
    }
  }

  /** Writing two different keys gives the same map in either order. */
  lemma PutCommutes<V>(m: Entries<V>, k1: string, v1: V, k2: string, v2: V)
    requires Ascending(m) && k1 != k2
    ensures Put(Put(m, k1, v1), k2, v2) == Put(Put(m, k2, v2), k1, v1)
  {
    Canonical(Put(Put(m, k1, v1), k2, v2), Put(Put(m, k2, v2), k1, v1));
  }

  /** A second write to the same key replaces the first. */
  lemma PutOverwrites<V>(m: Entries<V>, k: string, v1: V, v2: V)
    requires Ascending(m)
    ensures Put(Put(m, k, v1), k, v2) == Put(m, k, v2)
  {
    Canonical(Put(Put(m, k, v1), k, v2), Put(m, k, v2));
  }

  /** Writing the entries of a list into m one by one, in list order. */
  function PutAll<V>(m: Entries<V>, writes: seq<(string, V)>): (r: Entries<V>)
    requires Ascending(m)
    ensures Ascending(r)
  {
    if |writes| == 0 then m
    else Put(PutAll(m, writes[..|writes| - 1]), writes[|writes| - 1].0, writes[|writes| - 1].1)
  }

  /** The value the last write to k in the list gives it, if the list writes k at all. */
  function LastWrite<V>(writes: seq<(string, V)>, k: string): Option<V>
  {
    if |writes| == 0 then None
    else if writes[|writes| - 1].0 == k then Some(writes[|writes| - 1].1)
    else LastWrite(writes[..|writes| - 1], k)
  }

  /** One more write at the end of a list is one more Put. */
  lemma PutAllSnoc<V>(m: Entries<V>, writes: seq<(string, V)>, k: string, v: V)
    requires Ascending(m)
    ensures PutAll(m, writes + [(k, v)]) == Put(PutAll(m, writes), k, v)
  {
    assert (writes + [(k, v)])[..|writes|] == writes;
  }

  /** One more write at the end of a list decides the key it writes and leaves the others. */
  lemma LastWriteSnoc<V>(writes: seq<(string, V)>, k: string, v: V, key: string)
    ensures LastWrite(writes + [(k, v)], key) == if k == key then Some(v) else LastWrite(writes, key)
  {
    assert (writes + [(k, v)])[..|writes|] == writes;
  }

  /** After a list of writes, a key holds its last written value, or what it held before. */
  lemma {:induction false} PutAllGet<V>(m: Entries<V>, writes: seq<(string, V)>, k: string)
    requires Ascending(m)
    ensures Get(PutAll(m, writes), k) == if LastWrite(writes, k).Some? then LastWrite(writes, k) else Get(m, k)
  {
    if |writes| > 0 {
      PutAllGet(m, writes[..|writes| - 1], k);
    }
  }

  /** Writing two lists one after the other is writing their concatenation. */
  lemma {:induction false} PutAllAppend<V>(m: Entries<V>, a: seq<(string, V)>, b: seq<(string, V)>)
    requires Ascending(m)
    ensures PutAll(m, a + b) == PutAll(PutAll(m, a), b)
  {
    if |b| == 0 {
      assert a + b == a;
    } else {
      assert (a + b)[..|a + b| - 1] == a + b[..|b| - 1];
      PutAllAppend(m, a, b[..|b| - 1]);
    }
  }

  /** The last write of a concatenation comes from its second part when that part writes the key. */
  lemma {:induction false} LastWriteAppend<V>(a: seq<(string, V)>, b: seq<(string, V)>, k: string)
    ensures LastWrite(a + b, k) == if LastWrite(b, k).Some? then LastWrite(b, k) else LastWrite(a, k)
  {
    if |b| == 0 {
      assert a + b == a;
    } else {
      assert (a + b)[..|a + b| - 1] == a + b[..|b| - 1];
      LastWriteAppend(a, b[..|b| - 1], k);
    }
  }
}
