/** The fixed-capacity sample ring behind the metrics charts, against the plain history it bounds. */
module Ring {

  datatype Sample = Sample(timestamp: int, values: map<string, real>)

  /** The samples at or after `since`, in order. */
  function Since(samples: seq<Sample>, since: int): seq<Sample> {
    if samples == [] then []
    else
      var rest := Since(samples[1..], since);
      if samples[0].timestamp >= since then [samples[0]] + rest else rest
  }

  lemma {:induction false} SinceConcat(a: seq<Sample>, b: seq<Sample>, since: int)
    ensures Since(a + b, since) == Since(a, since) + Since(b, since)
  {
    if a == [] {
      assert a + b == b;
    } else {
      SinceConcat(a[1..], b, since);
      assert (a + b)[0] == a[0] && (a + b)[1..] == a[1..] + b;
      var x, y := Since(a[1..], since), Since(b, since);
      assert [a[0]] + (x + y) == ([a[0]] + x) + y;
    }
  }

  /** The last `n` elements, or all of them when there are fewer. */
  function Last(samples: seq<Sample>, n: nat): seq<Sample> {
    if |samples| <= n then samples else samples[|samples| - n..]
  }

  /** Each sample from `since` on keeps its place: it stands behind as many as there are such samples before it. */
  lemma SinceAt(s: seq<Sample>, since: int, i: nat)
    requires i < |s|
    ensures |Since(s[..i + 1], since)| == |Since(s[..i], since)| + if s[i].timestamp >= since then 1 else 0
    ensures s[i].timestamp >= since ==>
              |Since(s[..i], since)| < |Since(s, since)| && Since(s, since)[|Since(s[..i], since)|] == s[i]
  {
    assert s[..i + 1] == s[..i] + [s[i]] && s == s[..i + 1] + s[i + 1..];
    SinceConcat(s[..i], [s[i]], since);
    SinceConcat(s[..i + 1], s[i + 1..], since);
  }

  lemma {:induction false} SinceIs(s: seq<Sample>, since: int, x: Sample)
    ensures x in Since(s, since) <==> x in s && x.timestamp >= since
  {
    if s == [] {
    } else {
      SinceIs(s[1..], since, x);
    }
  }

  /** A snapshot holds exactly the samples from `since` on among the `capacity` appended last, and no other. */
  lemma SnapshotIs(history: seq<Sample>, capacity: nat, since: int, x: Sample)
    ensures x in Since(Last(history, capacity), since)
            <==> x.timestamp >= since && exists n :: 0 <= n < |history| <= n + capacity && history[n] == x
  {
    var kept := Last(history, capacity);
    var first := |history| - |kept|;
    SinceIs(kept, since, x);
    if x in kept {
      var i :| 0 <= i < |kept| && kept[i] == x;
      assert history[first + i] == x;
    }
    if n :| 0 <= n < |history| <= n + capacity && history[n] == x { assert kept[n - first] == x; }
  }

  lemma MultipleGrows(d: int, capacity: nat)
    ensures d >= 1 ==> d * capacity >= capacity
    ensures d <= -1 ==> d * capacity <= 0 - capacity
  {
    if d >= 1 { assert (d - 1) * capacity >= 0; }
    if d <= -1 { assert (-d - 1) * capacity >= 0; }
  }

  lemma SameSlot(n: int, m: int, capacity: nat)
    requires capacity > 0 && 0 <= n - m < capacity && n % capacity == m % capacity
    ensures n == m
  {
    var d := n / capacity - m / capacity;
    assert n == n / capacity * capacity + n % capacity && m == m / capacity * capacity + m % capacity;
    assert n - m == d * capacity;
    MultipleGrows(d, capacity);
  }

  lemma Wrap(x: int, k: int, capacity: nat)
    requires capacity > 0
    ensures (x + k * capacity) % capacity == x % capacity
  {
    var q, r := x / capacity, x % capacity;
    assert x + k * capacity == (q + k) * capacity + r;
    QuotientIs(x + k * capacity, q + k, r, capacity);
  }

  lemma QuotientIs(x: int, q: int, r: int, capacity: nat)
    requires capacity > 0 && x == q * capacity + r && 0 <= r < capacity
    ensures x % capacity == r
  {
    var d := x / capacity - q;
    assert d * capacity == r - x % capacity;
    MultipleGrows(d, capacity);
  }

  lemma Advance(n: nat, capacity: nat)
    requires capacity > 0
    ensures (n % capacity + 1) % capacity == (n + 1) % capacity
  {
    var q := n / capacity;
    assert n + 1 == (n % capacity + 1) + q * capacity;
    Wrap(n % capacity + 1, q, capacity);
  }

  class Series {
    const capacity: nat
    const samples: array<Sample>
    var writeIdx: nat
    var count: nat
    ghost var history: seq<Sample>

    /** Sample number `n` of the history, if still kept, sits at `n % capacity`. */
    ghost predicate Valid()
      reads this, samples
    {
      && samples.Length == capacity
      && (capacity == 0 ==> history == [] && writeIdx == 0)
      && (capacity > 0 ==> writeIdx == |history| % capacity)
      && count == |Last(history, capacity)|
      && forall n :: |history| - count <= n < |history| ==> samples[n % capacity] == history[n]
    }

    constructor (capacity: nat, zero: Sample)
      ensures Valid() && this.capacity == capacity && history == [] && fresh(samples)
    {
      this.capacity := capacity;
      samples := new Sample[capacity](_ => zero);
      writeIdx, count, history := 0, 0, [];
    }

    /** A ring of capacity zero cannot be written to. */
    method Append(sample: Sample)
      requires Valid() && capacity > 0
      modifies this, samples
      ensures Valid() && history == old(history) + [sample]
    {
      ghost var h := |history|;
      forall n | h - capacity < n < h && n >= 0 ensures n % capacity != h % capacity {
        if n % capacity == h % capacity { SameSlot(h, n, capacity); }
      }
      Advance(h, capacity);
      samples[writeIdx] := sample;
      writeIdx := (writeIdx + 1) % capacity;
      if count < capacity { count := count + 1; }
      history := history + [sample];
    }

    /** The last min(n, capacity) appended samples, in order, from `since` on. */
    method Snapshot(since: int) returns (out: seq<Sample>)
      requires Valid()
      ensures out == Since(Last(history, capacity), since)
    {
      out := [];
      var start: int := writeIdx - count;
      if start < 0 { start := start + capacity; }
      ghost var kept := Last(history, capacity);
      for i := 0 to count
        invariant out == Since(kept[..i], since)
      {
        ReadSlot(start, i);
        var idx := (start + i) % capacity;
        var sample := samples[idx];
        assert kept[..i + 1] == kept[..i] + [kept[i]];
        SinceConcat(kept[..i], [kept[i]], since);
        if sample.timestamp >= since { out := out + [sample]; }
      }
      assert kept[..count] == kept;
    }

    lemma ReadSlot(start: int, i: nat)
      requires Valid() && i < count
              && start == (if writeIdx < count then writeIdx - count + capacity else writeIdx - count)
      ensures samples[(start + i) % capacity] == Last(history, capacity)[i]
    {
      var n, q := |history| - count + i, |history| / capacity;
      var offset := writeIdx - count + i;
      assert n == offset + q * capacity;
      Wrap(offset, q, capacity);
      Wrap(offset, 1, capacity);
      assert (start + i) % capacity == n % capacity;
    }
  }
}
