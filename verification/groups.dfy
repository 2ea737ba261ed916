/** Repeated-group expansion: the loop every listing runs over the
    instances of a group tag. Each instance in turn either yields one record, is
    skipped (`continue`), or aborts the whole document; kept records stay in
    instance order.
 */
module Groups {
  import opened Wrappers

  /** An instance whose extraction, given the context `c`, succeeds with a record. */
  predicate Kept<C, T, R>(f: (C, T) -> Result<Option<R>>, c: C, x: T) {
    f(c, x).Success? && f(c, x).value.Some?
  }

  /** How many of `items` are kept. */
  function KeptCount<C, T, R>(items: seq<T>, c: C, f: (C, T) -> Result<Option<R>>): nat {
    if |items| == 0 then 0
    else (if Kept(f, c, items[0]) then 1 else 0) + KeptCount(items[1..], c, f)
  }

  /** How many of `items` satisfy `p`. */
  function CountWhere<T>(items: seq<T>, p: T -> bool): nat {
    if |items| == 0 then 0
    else (if p(items[0]) then 1 else 0) + CountWhere(items[1..], p)
  }

  /** The records of all instances in order, or the first instance's failure; the
      context `c` is what every instance's extraction shares (the common columns). */
  function Expand<C, T, R>(items: seq<T>, c: C, f: (C, T) -> Result<Option<R>>): (r: Result<seq<R>>)
    ensures r.Success? <==> forall i | 0 <= i < |items| :: f(c, items[i]).Success?
    ensures r.Success? ==> |r.value| == KeptCount(items, c, f) <= |items|
    ensures r.Success? ==>
              forall k | 0 <= k < |r.value| :: exists i | 0 <= i < |items| :: f(c, items[i]) == Success(Some(r.value[k]))
    ensures r.Failure? ==>
              exists i | 0 <= i < |items| :: f(c, items[i]) == Failure(r.error) && forall j | 0 <= j < i :: f(c, items[j]).Success?
  {
    if |items| == 0 then Success([])
    else
      var head :- f(c, items[0]);
      var tail :- Expand(items[1..], c, f);
      Success((if head.Some? then [head.value] else []) + tail)
  }

  /** The records of a group none of whose instances is ever skipped: one per
      instance, in instance order, or the first instance's failure. */
  function ExpandAll<C, T, R>(items: seq<T>, c: C, f: (C, T) -> Result<R>): (r: Result<seq<R>>)
    ensures r.Success? <==> forall i | 0 <= i < |items| :: f(c, items[i]).Success?
    ensures r.Success? ==> |r.value| == |items| && forall k | 0 <= k < |items| :: f(c, items[k]) == Success(r.value[k])
    ensures r.Failure? ==>
              exists i | 0 <= i < |items| :: f(c, items[i]) == Failure(r.error) && forall j | 0 <= j < i :: f(c, items[j]).Success?
  {
    if |items| == 0 then Success([])
    else
      var head :- f(c, items[0]);
      var tail :- ExpandAll(items[1..], c, f);
      Success([head] + tail)
  }

  /** Each position shifted by one: the positions of a suffix seen from one earlier. */
  function Shift(s: seq<nat>): (r: seq<nat>)
    ensures |r| == |s| && forall k | 0 <= k < |s| :: r[k] == s[k] + 1
  {
    if |s| == 0 then [] else [s[0] + 1] + Shift(s[1..])
  }

  /** The positions of the kept instances, in increasing order. */
  ghost function Origins<C, T, R>(items: seq<T>, c: C, f: (C, T) -> Result<Option<R>>): seq<nat> {
    if |items| == 0 then []
    else (if Kept(f, c, items[0]) then [0] else []) + Shift(Origins(items[1..], c, f))
  }

  /** `idx` lists positions of `items`, increasing, at which `f` keeps the
      records `rs` in turn. */
  ghost predicate Selects<C, T, R>(items: seq<T>, c: C, f: (C, T) -> Result<Option<R>>, idx: seq<nat>, rs: seq<R>) {
    && |idx| == |rs|
    && (forall k | 0 <= k < |idx| :: idx[k] < |items| && f(c, items[idx[k]]) == Success(Some(rs[k])))
    && (forall k, l | 0 <= k < l < |idx| :: idx[k] < idx[l])
  }

  /** A selection from the tail, seen from the whole sequence. */
  lemma SelectsShifted<C, T, R>(items: seq<T>, c: C, f: (C, T) -> Result<Option<R>>, idx: seq<nat>, rs: seq<R>)
    requires |items| > 0 && Selects(items[1..], c, f, idx, rs)
    ensures Selects(items, c, f, Shift(idx), rs)
  {
    var tail := items[1..];
    forall k | 0 <= k < |idx|
      ensures Shift(idx)[k] < |items| && f(c, items[Shift(idx)[k]]) == Success(Some(rs[k]))
    {
      assert items[Shift(idx)[k]] == tail[idx[k]];
    }
  }

  /** A kept first instance goes in front of a selection from the tail. */
  lemma SelectsFirst<C, T, R>(items: seq<T>, c: C, f: (C, T) -> Result<Option<R>>, idx: seq<nat>, rs: seq<R>, v: R)
    requires |items| > 0 && f(c, items[0]) == Success(Some(v)) && Selects(items[1..], c, f, idx, rs)
    ensures Selects(items, c, f, [0] + Shift(idx), [v] + rs)
  {
    SelectsShifted(items, c, f, idx, rs);
    var i2, r2 := [0] + Shift(idx), [v] + rs;
    forall k | 1 <= k < |i2|
      ensures i2[k] == Shift(idx)[k - 1] && r2[k] == rs[k - 1]
    {
    }
  }

  /** Record `k` comes from the instance at position `Origins[k]`, and those
      positions increase: the output is an order-preserving selection of the
      instances. */
  lemma {:induction false} ExpandOrigins<C, T, R>(items: seq<T>, c: C, f: (C, T) -> Result<Option<R>>)
    requires Expand(items, c, f).Success?
    ensures Selects(items, c, f, Origins(items, c, f), Expand(items, c, f).value)
  {
    if |items| > 0 {
      var tail := items[1..];
      ExpandOrigins(tail, c, f);
      var rt, it := Expand(tail, c, f).value, Origins(tail, c, f);
      if Kept(f, c, items[0]) {
        var v := f(c, items[0]).value.value;
        assert Expand(items, c, f).value == [v] + rt;
        assert Origins(items, c, f) == [0] + Shift(it);
        SelectsFirst(items, c, f, it, rt, v);
      } else {
        assert Expand(items, c, f).value == rt;
        assert Origins(items, c, f) == Shift(it);
        SelectsShifted(items, c, f, it, rt);
      }
    }
  }

  /** When an instance is kept exactly if it satisfies `p`, the number of records is
      the number of instances satisfying `p`. */
  lemma {:induction false} KeptCountWhere<C, T, R>(items: seq<T>, c: C, f: (C, T) -> Result<Option<R>>, p: T -> bool)
    requires forall i | 0 <= i < |items| :: f(c, items[i]).Success? && (f(c, items[i]).value.Some? <==> p(items[i]))
    ensures KeptCount(items, c, f) == CountWhere(items, p)
  {
    if |items| > 0 {
      assert forall i | 0 <= i < |items| - 1 :: items[1..][i] == items[i + 1];
      KeptCountWhere(items[1..], c, f, p);
    }
  }

  /** When `a` is the first of three blocks joined, what pairs each record of
      `a` with its source in `src` pairs the leading records of the whole with it. */
  lemma FirstAt<R, L>(rows: seq<R>, a: seq<R>, b: seq<R>, c: seq<R>, src: seq<L>, p: (R, L) -> bool)
    requires rows == a + b + c
    requires |a| == |src| && forall k | 0 <= k < |a| :: p(a[k], src[k])
    ensures |src| <= |rows|
    ensures forall k | 0 <= k < |src| :: p(rows[k], src[k])
  {
    forall k | 0 <= k < |src|
      ensures p(rows[k], src[k])
    {
      assert rows[k] == a[k];
    }
  }

  /** Record `i` of three blocks joined, taken inside the middle block `b` that
      starts after `off` records, is record `i - off` of `b`. */
  lemma MiddleAt<R>(rows: seq<R>, a: seq<R>, b: seq<R>, c: seq<R>, off: nat, i: nat)
    requires rows == a + b + c
    requires off == |a|
    requires off <= i < off + |b|
    ensures i < |rows| && rows[i] == b[i - off]
  {
  }

  /** When `c` is the last of three blocks joined, starting after `off` records,
      what pairs each record of `c` with its source in `src` pairs the trailing
      records of the whole with it. */
  lemma LastAt<R, L>(rows: seq<R>, a: seq<R>, b: seq<R>, c: seq<R>, off: nat, src: seq<L>, p: (R, L) -> bool)
    requires rows == a + b + c
    requires off == |a| + |b|
    requires |c| == |src|
    requires forall k | 0 <= k < |c| :: p(c[k], src[k])
    ensures |rows| == off + |src|
    ensures forall i | off <= i < |rows| :: p(rows[i], src[i - off])
  {
    forall i | off <= i < |rows|
      ensures p(rows[i], src[i - off])
    {
      assert rows[i] == c[i - off];
    }
  }
}
