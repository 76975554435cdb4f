/** The circular log buffer (waldur_site_agent/common/log_buffer.py). */
module LogBuffer {
  datatype Entry = Entry(level: string, message: string, size: nat)

  function Total(entries: seq<Entry>): nat {
    if entries == [] then 0 else entries[0].size + Total(entries[1..])
  }

  lemma {:induction false} TotalConcat(xs: seq<Entry>, ys: seq<Entry>)
    ensures Total(xs + ys) == Total(xs) + Total(ys)
  {
    if xs == [] {
      assert xs + ys == ys;
    } else {
      assert (xs + ys)[1..] == xs[1..] + ys;
      TotalConcat(xs[1..], ys);
    }
  }

  /** The size of the entries from the k-th on. */
  function SizeFrom(added: seq<Entry>, k: nat): nat
    requires k <= |added|
  {
    Total(added[k..])
  }

  ghost predicate TooLongBefore(added: seq<Entry>, limit: int, k: nat)
    requires k <= |added|
  {
    forall j :: 0 <= j < k ==> SizeFrom(added, j) > limit
  }

  /** The entries from the k-th on fit, and from no earlier one do they. */
  ghost predicate FitsFrom(added: seq<Entry>, limit: int, k: nat) {
    && k <= |added|
    && (SizeFrom(added, k) <= limit || k == |added|)
    && TooLongBefore(added, limit, k)
  }

  /** The longest suffix of what was added whose size is within the limit; empty where none is. */
  ghost predicate LongestFit(kept: seq<Entry>, added: seq<Entry>, limit: int) {
    exists k: nat :: FitsFrom(added, limit, k) && kept == added[k..]
  }

  /** What is kept depends on the additions alone, and no suffix that fits is longer. */
  lemma LongestFitIsLongest(kept: seq<Entry>, added: seq<Entry>, limit: int, j: nat)
    requires LongestFit(kept, added, limit) && j <= |added| && SizeFrom(added, j) <= limit
    ensures |added[j..]| <= |kept| && added[j..] == kept[|kept| - |added[j..]|..]
  {
    var k: nat :| FitsFrom(added, limit, k) && kept == added[k..];
    assert k <= j;
  }

  lemma LongestFitUnique(a: seq<Entry>, b: seq<Entry>, added: seq<Entry>, limit: int)
    requires LongestFit(a, added, limit) && LongestFit(b, added, limit)
    ensures a == b
  {
    var k: nat :| FitsFrom(added, limit, k) && a == added[k..];
    var l: nat :| FitsFrom(added, limit, l) && b == added[l..];
    assert !(k < l) && !(l < k);
  }

  class CircularLogBuffer {
    const maxSize: int
    var buffer: seq<Entry>
    var currentSize: int
    /** What was added since the buffer was last cleared. */
    ghost var added: seq<Entry>

    ghost predicate Valid() reads this {
      currentSize == Total(buffer) && LongestFit(buffer, added, maxSize)
    }

    constructor (maxSize: int)
      ensures Valid() && this.maxSize == maxSize && added == [] && buffer == []
    {
      this.maxSize := maxSize;
      buffer, currentSize, added := [], 0, [];
      new;
      assert FitsFrom(added, maxSize, 0);
    }

    method Add(entry: Entry) returns (dropped: nat)
      requires Valid()
      modifies this
      ensures Valid() && added == old(added) + [entry]
      ensures dropped + |buffer| == |old(buffer)| + 1
    {
      ghost var first: nat :| FitsFrom(added, maxSize, first) && buffer == added[first..];
      Grown(added, entry, maxSize, first, buffer);
      buffer := buffer + [entry];
      currentSize := currentSize + entry.size;
      added := added + [entry];
      dropped := Evict(first);
    }

    /** The eviction loop of `Add`. */
    method Evict(ghost first: nat) returns (dropped: nat)
      requires AtLeastFrom(added, maxSize, first, buffer, currentSize)
      modifies this`buffer, this`currentSize
      ensures Valid() && dropped + |buffer| == |old(buffer)|
    {
      dropped := 0;
      while currentSize > maxSize && buffer != []
        invariant AtLeastFrom(added, maxSize, first + dropped, buffer, currentSize)
        invariant dropped + |buffer| == |old(buffer)|
        decreases |buffer|
      {
        Dropped(added, maxSize, first + dropped, buffer, currentSize);
        currentSize := currentSize - buffer[0].size;
        buffer := buffer[1..];
        dropped := dropped + 1;
      }
      Settled(added, maxSize, first + dropped, buffer, currentSize);
    }

    method GetAndClear() returns (entries: seq<Entry>)
      requires Valid()
      modifies this
      ensures Valid() && buffer == [] && added == [] && currentSize == 0
      ensures entries == old(buffer) && LongestFit(entries, old(added), maxSize)
    {
      entries := buffer;
      Clear();
    }

    method Clear()
      modifies this
      ensures Valid() && buffer == [] && added == [] && currentSize == 0
    {
      buffer, currentSize, added := [], 0, [];
      assert FitsFrom(added, maxSize, 0);
    }
  }

  /** The buffer holds the entries from the k-th on, and no earlier entry could be kept. */
  ghost predicate AtLeastFrom(added: seq<Entry>, limit: int, k: nat, buffer: seq<Entry>, size: int) {
    k <= |added| && buffer == added[k..] && size == Total(buffer) && TooLongBefore(added, limit, k)
  }

  lemma Grown(added: seq<Entry>, entry: Entry, limit: int, k: nat, buffer: seq<Entry>)
    requires k <= |added| && buffer == added[k..] && TooLongBefore(added, limit, k)
    ensures AtLeastFrom(added + [entry], limit, k, buffer + [entry], Total(buffer) + entry.size)
  {
    forall j | 0 <= j <= k ensures SizeFrom(added + [entry], j) == SizeFrom(added, j) + entry.size {
      assert (added + [entry])[j..] == added[j..] + [entry];
      TotalConcat(added[j..], [entry]);
    }
    TotalConcat(buffer, [entry]);
  }

  lemma Dropped(added: seq<Entry>, limit: int, k: nat, buffer: seq<Entry>, size: int)
    requires AtLeastFrom(added, limit, k, buffer, size) && size > limit && buffer != []
    ensures AtLeastFrom(added, limit, k + 1, buffer[1..], size - buffer[0].size)
  {
    assert added[k..][1..] == added[k + 1..];
  }

  lemma Settled(added: seq<Entry>, limit: int, k: nat, buffer: seq<Entry>, size: int)
    requires AtLeastFrom(added, limit, k, buffer, size) && (size <= limit || buffer == [])
    ensures LongestFit(buffer, added, limit) && size == Total(buffer)
  {
    assert FitsFrom(added, limit, k);
  }
}
