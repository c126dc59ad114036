/** The solver's buffers address row `r`, component `c` of a Jacobian block
    at `r * rowskip + c`. The model keeps rows as a table; this module
    writes such a table of vectors into a stride-addressed buffer and proves
    that each row lands at its offset and nothing else is overwritten. */
module Layout {
  import opened Vectors

  /** Component `c` of `v`, as `v[c]` on a `dVector3`. */
  function Component(v: Vec3, c: int): real
    requires 0 <= c < 3
  {
    if c == 0 then v.x else if c == 1 then v.y else v.z
  }

  lemma MulMonotone(a: int, b: int, s: int)
    requires 0 <= a <= b && 0 <= s
    ensures a * s <= b * s
  {
    assert b * s - a * s == (b - a) * s;
  }

  /** An offset `r * s + c` with `c < s` belongs to row `r`, component `c`. */
  lemma SlotOf(r: int, c: int, s: int)
    requires 0 <= r && 0 <= c < s
    ensures (r * s + c) / s == r && (r * s + c) % s == c
  {
    var i := r * s + c;
    var q, k := i / s, i % s;
    assert i == q * s + k && 0 <= k < s;
    assert (r - q) * s == k - c;
    if r - q >= 1 {
      MulMonotone(1, r - q, s);
    } else if r - q <= -1 {
      MulMonotone(1, q - r, s);
    }
  }

  /** The value offset `i` of a stride-`s` buffer holds once the first `n`
      rows of `vs` are written over `buf`. */
  function StridedValue(buf: seq<real>, vs: seq<Vec3>, n: int, s: int, i: int): real
    requires 0 < s && 0 <= n <= |vs| && 0 <= i < |buf|
  {
    if i / s < n && i % s < 3 then Component(vs[i / s], i % s) else buf[i]
  }

  /** An offset whose row is `n` and whose component is below 3 is one of
      row `n`'s three offsets. */
  lemma RowOffset(i: int, n: int, s: int)
    requires 0 < s && i / s == n
    ensures i == n * s + i % s
  {
  }

  /** `buf` with `v` written at offsets `base`, `base + 1`, `base + 2`. */
  function PutRow(buf: seq<real>, base: int, v: Vec3): (r: seq<real>)
    requires 0 <= base && base + 3 <= |buf|
    ensures |r| == |buf|
  {
    buf[base := v.x][base + 1 := v.y][base + 2 := v.z]
  }

  /** `out` holds rows `0 .. n-1` of `vs` over `buf`. */
  predicate WrittenUpTo(out: seq<real>, buf: seq<real>, vs: seq<Vec3>, n: int, s: int)
    requires 0 < s && 0 <= n <= |vs|
  {
    |out| == |buf| && forall i :: 0 <= i < |out| ==> out[i] == StridedValue(buf, vs, n, s, i)
  }

  /** Writing row `n` at its three offsets extends the written prefix by one row. */
  lemma WriteRowStep(prev: seq<real>, buf: seq<real>, vs: seq<Vec3>, n: int, s: int)
    requires 3 <= s && 0 <= n < |vs| && |vs| * s <= |buf|
    requires WrittenUpTo(prev, buf, vs, n, s)
    ensures n * s + 3 <= |prev|
    ensures WrittenUpTo(PutRow(prev, n * s, vs[n]), buf, vs, n + 1, s)
  {
    var base := n * s;
    MulMonotone(n + 1, |vs|, s);
    var out := PutRow(prev, base, vs[n]);
    forall i | 0 <= i < |out|
      ensures out[i] == StridedValue(buf, vs, n + 1, s, i)
    {
      if base <= i < base + 3 {
        SlotOf(n, i - base, s);
      } else if i / s == n && i % s < 3 {
        RowOffset(i, n, s);
        assert false;
      }
    }
  }

  /** Writes row `n` of `vs` into a buffer that already holds rows `0 .. n-1`. */
  function WriteRow(prev: seq<real>, buf: seq<real>, vs: seq<Vec3>, n: int, s: int): (out: seq<real>)
    requires 3 <= s && 0 <= n < |vs| && |vs| * s <= |buf|
    requires WrittenUpTo(prev, buf, vs, n, s)
    ensures WrittenUpTo(out, buf, vs, n + 1, s)
  {
    WriteRowStep(prev, buf, vs, n, s);
    PutRow(prev, n * s, vs[n])
  }

  /** Once every row is written, row `r`, component `c` sits at `r * s + c`. */
  lemma WrittenAtOffsets(out: seq<real>, buf: seq<real>, vs: seq<Vec3>, s: int)
    requires 3 <= s && |vs| * s <= |buf|
    requires WrittenUpTo(out, buf, vs, |vs|, s)
    ensures forall r, c :: 0 <= r < |vs| && 0 <= c < 3 ==>
              r * s + c < |out| && out[r * s + c] == Component(vs[r], c)
    ensures forall i :: 0 <= i < |buf| && (i / s >= |vs| || i % s >= 3) ==> out[i] == buf[i]
  {
    forall r, c | 0 <= r < |vs| && 0 <= c < 3
      ensures r * s + c < |out| && out[r * s + c] == Component(vs[r], c)
    {
      SlotOf(r, c, s);
      MulMonotone(r + 1, |vs|, s);
    }
  }

  /** Row `r` of a fully written buffer holds `vs[r]` at `r * s + c`. */
  lemma RowInBuffer(out: seq<real>, buf: seq<real>, vs: seq<Vec3>, s: int, r: int)
    requires 3 <= s && |vs| * s <= |buf| && 0 <= r < |vs|
    requires WrittenUpTo(out, buf, vs, |vs|, s)
    ensures forall c :: 0 <= c < 3 ==> r * s + c < |out| && out[r * s + c] == Component(vs[r], c)
  {
    WrittenAtOffsets(out, buf, vs, s);
  }

  /** The first three rows of a fully written buffer sit at offsets
      `0..2`, `s..s+2` and `2s..2s+2`. */
  lemma LeadingRowsInBuffer(out: seq<real>, buf: seq<real>, vs: seq<Vec3>, s: int)
    requires 3 <= s && |vs| * s <= |buf| && 1 <= |vs|
    requires WrittenUpTo(out, buf, vs, |vs|, s)
    ensures forall c :: 0 <= c < 3 ==> out[c] == Component(vs[0], c)
    ensures |vs| >= 2 ==> forall c :: 0 <= c < 3 ==> out[s + c] == Component(vs[1], c)
    ensures |vs| >= 3 ==> forall c :: 0 <= c < 3 ==> out[2 * s + c] == Component(vs[2], c)
  {
    forall c | 0 <= c < 3
      ensures out[c] == Component(vs[0], c)
    {
      RowInBuffer(out, buf, vs, s, 0);
      assert 0 * s + c == c;
    }
    if |vs| >= 2 {
      forall c | 0 <= c < 3
        ensures out[s + c] == Component(vs[1], c)
      {
        RowInBuffer(out, buf, vs, s, 1);
        assert 1 * s + c == s + c;
      }
    }
    if |vs| >= 3 {
      RowInBuffer(out, buf, vs, s, 2);
    }
  }

  /** Writes `vs[r]` at offsets `r * s`, `r * s + 1`, `r * s + 2` of `buf`. */
  method WriteStrided(buf: seq<real>, vs: seq<Vec3>, s: int) returns (out: seq<real>)
    requires 3 <= s
    requires |vs| * s <= |buf|
    ensures |out| == |buf|
    ensures WrittenUpTo(out, buf, vs, |vs|, s)
  {
    out := buf;
    var n := 0;
    while n < |vs|
      invariant 0 <= n <= |vs|
      invariant WrittenUpTo(out, buf, vs, n, s)
    {
      out := WriteRow(out, buf, vs, n, s);
      n := n + 1;
    }
  }
}
