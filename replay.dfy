/** Success-or-error values for the operations of DQN.py that raise. */
module Results {
  datatype Result<+T, +E> = Ok(value: T) | Err(error: E)
}

/**
 * The experience replay of DQN.py: a bounded FIFO store of transition
 * records built on a deque with a maximum length, and uniform sampling of
 * a batch of distinct records from it.
 */
module Replay {
  import opened Results

  /** An observation vector of the environment. */
  type State = seq<real>

  /** One transition, the `Experience` named tuple. */
  datatype Experience = Experience(state: State, action: nat, reward: real, done: bool, newState: State)

  /** The five parallel columns that `sample` returns. */
  datatype Batch = Batch(
    states: seq<State>,
    actions: seq<nat>,
    rewards: seq<real>,
    dones: seq<bool>,
    newStates: seq<State>)

  /** Why `sample` raises. */
  datatype SampleError =
    | TooFewRecords   // more indices requested than records stored (no replacement)
    | EmptyBatch      // zero indices: the gathered list is empty and cannot be unzipped into five columns

  // ---------------------------------------------------------------------------
  // The deque with a maximum length, on values
  // ---------------------------------------------------------------------------

  /** What a deque with maximum length `c` keeps of `s`: the oldest elements are dropped until at most `c` remain. */
  function Window<T>(s: seq<T>, c: nat): (w: seq<T>)
    ensures |w| == if |s| <= c then |s| else c
    decreases |s|
  {
    if |s| <= c then s else Window(s[1..], c)
  }

  /** Appending the records `xs` one by one to a deque with maximum length `c`. */
  function AppendAll<T>(b: seq<T>, xs: seq<T>, c: nat): seq<T>
    decreases |xs|
  {
    if xs == [] then b else AppendAll(Window(b + [xs[0]], c), xs[1..], c)
  }

  /** Window keeps exactly the newest min(|s|, c) elements, in their order. */
  lemma {:induction false} WindowIsNewest<T>(s: seq<T>, c: nat)
    ensures |Window(s, c)| == if |s| <= c then |s| else c
    ensures Window(s, c) == s[|s| - |Window(s, c)|..]
    decreases |s|
  {
    if |s| > c {
      WindowIsNewest(s[1..], c);
      assert s[1..][|s| - 1 - |Window(s[1..], c)|..] == s[|s| - |Window(s[1..], c)|..];
    }
  }

  /** One append to a deque holding `b`: it grows by one until it is full, then stays full and drops its oldest record. */
  lemma WindowAppend<T>(b: seq<T>, x: T, c: nat)
    requires |b| <= c
    ensures |b| < c ==> Window(b + [x], c) == b + [x]
    ensures 0 < c == |b| ==> Window(b + [x], c) == b[1..] + [x]
    ensures c == 0 ==> Window(b + [x], c) == []
  {
  }

  /** Trimming to the window before more records arrive makes no difference. */
  lemma {:induction false} WindowConcat<T>(s: seq<T>, t: seq<T>, c: nat)
    ensures Window(Window(s, c) + t, c) == Window(s + t, c)
    decreases |s|
  {
    if |s| > c {
      WindowConcat(s[1..], t, c);
      assert (s + t)[1..] == s[1..] + t;
    }
  }

  /** After any sequence of appends to a deque holding `b`, it holds the newest records of `b + xs`. */
  lemma {:induction false} AppendAllWindow<T>(b: seq<T>, xs: seq<T>, c: nat)
    requires |b| <= c
    ensures AppendAll(b, xs, c) == Window(b + xs, c)
    decreases |xs|
  {
    if xs == [] {
      assert b + xs == b;
    } else {
      var b' := Window(b + [xs[0]], c);
      WindowIsNewest(b + [xs[0]], c);
      AppendAllWindow(b', xs[1..], c);
      WindowConcat(b + [xs[0]], xs[1..], c);
      assert (b + [xs[0]]) + xs[1..] == b + xs;
    }
  }

  /** Starting from an empty buffer, the contents are the last min(n, c) records appended. */
  lemma AppendsFromEmpty<T>(xs: seq<T>, c: nat)
    ensures AppendAll([], xs, c) == Window(xs, c)
    ensures |AppendAll([], xs, c)| <= c
  {
    AppendAllWindow([], xs, c);
    assert [] + xs == xs;
  }

  // ---------------------------------------------------------------------------
  // Sampling on values
  // ---------------------------------------------------------------------------

  /** No index occurs twice: each one is new to those before it. */
  predicate Distinct(s: seq<nat>)
    decreases |s|
  {
    s == [] || (s[|s| - 1] !in s[..|s| - 1] && Distinct(s[..|s| - 1]))
  }

  /** Distinct means that no two positions hold the same index. */
  lemma {:induction false} DistinctPositions(s: seq<nat>)
    ensures Distinct(s) <==> forall i, j :: 0 <= i < j < |s| ==> s[i] != s[j]
    decreases |s|
  {
    if s != [] {
      var t := s[..|s| - 1];
      DistinctPositions(t);
      if Distinct(s) {
        forall i, j | 0 <= i < j < |s|
          ensures s[i] != s[j]
        {
          if j == |s| - 1 {
            assert s[i] == t[i];
          } else {
            assert s[i] == t[i] && s[j] == t[j];
          }
        }
      }
      if forall i, j :: 0 <= i < j < |s| ==> s[i] != s[j] {
        assert forall i, j :: 0 <= i < j < |t| ==> t[i] != t[j] by {
          forall i, j | 0 <= i < j < |t|
            ensures t[i] != t[j]
          {
            assert t[i] == s[i] && t[j] == s[j];
          }
        }
        assert s[|s| - 1] !in t by {
          forall i | 0 <= i < |t|
            ensures t[i] != s[|s| - 1]
          {
            assert t[i] == s[i];
          }
        }
      }
    }
  }

  /** `k` distinct indices into a population of `n`: what a draw without replacement yields. */
  predicate IsDraw(draw: seq<nat>, k: nat, n: nat)
  {
    |draw| == k &&
    (forall i :: 0 <= i < k ==> draw[i] < n) &&
    Distinct(draw)
  }

  /** The five columns have one entry per record. */
  predicate Aligned(b: Batch)
  {
    |b.actions| == |b.states| && |b.rewards| == |b.states| &&
    |b.dones| == |b.states| && |b.newStates| == |b.states|
  }

  /** The `i`-th entries of the five columns, put back together. */
  function Row(b: Batch, i: nat): Experience
    requires Aligned(b) && i < |b.states|
  {
    Experience(b.states[i], b.actions[i], b.rewards[i], b.dones[i], b.newStates[i])
  }

  /** The batch read back as records, row by row. */
  function Rows(b: Batch): seq<Experience>
    requires Aligned(b)
  {
    seq(|b.states|, i requires 0 <= i < |b.states| => Row(b, i))
  }

  /** The records at the drawn indices, in the order drawn. */
  function Gather(buffer: seq<Experience>, draw: seq<nat>): (g: seq<Experience>)
    requires forall i :: 0 <= i < |draw| ==> draw[i] < |buffer|
    ensures |g| == |draw|
    ensures forall i :: 0 <= i < |g| ==> g[i] in buffer
  {
    seq(|draw|, i requires 0 <= i < |draw| => buffer[draw[i]])
  }

  /** Transposes records into five parallel columns. */
  function Unzip(rows: seq<Experience>): (b: Batch)
    ensures Aligned(b) && |b.states| == |rows|
  {
    Batch(
      seq(|rows|, i requires 0 <= i < |rows| => rows[i].state),
      seq(|rows|, i requires 0 <= i < |rows| => rows[i].action),
      seq(|rows|, i requires 0 <= i < |rows| => rows[i].reward),
      seq(|rows|, i requires 0 <= i < |rows| => rows[i].done),
      seq(|rows|, i requires 0 <= i < |rows| => rows[i].newState))
  }

  /** Reading the columns back row by row gives the records: the five entries of a row come from one record. */
  lemma UnzipRows(rows: seq<Experience>)
    ensures Rows(Unzip(rows)) == rows
  {
  }

  /** The set of indices in a sequence, built from its front. */
  function Drawn(s: seq<nat>): (d: set<nat>)
    ensures forall x :: x in d <==> x in s
  {
    if s == [] then {} else Drawn(s[..|s| - 1]) + {s[|s| - 1]}
  }

  /** The indices of a distinct sequence form a set of the same size. */
  lemma {:induction false} DistinctSetSize(s: seq<nat>)
    requires Distinct(s)
    ensures |Drawn(s)| == |s|
    decreases |s|
  {
    if s != [] {
      DistinctSetSize(s[..|s| - 1]);
    }
  }

  /** The indices 0, 1, ..., n - 1. */
  function Indices(n: nat): (s: seq<nat>)
    ensures |s| == n && forall i :: 0 <= i < n ==> s[i] == i
  {
    seq(n, i requires 0 <= i < n => i)
  }

  /** A subset as large as its superset is the whole superset. */
  lemma SubsetOfSameSize(a: set<nat>, b: set<nat>)
    requires a <= b && |a| == |b|
    ensures a == b
  {
    assert |b - a| == |b| - |a|;
  }

  /** A draw of `n` distinct indices out of `n` uses every index. */
  lemma FullDrawCovers(draw: seq<nat>, n: nat)
    requires IsDraw(draw, n, n)
    ensures forall j :: 0 <= j < n ==> j in draw
  {
    var drawn := Drawn(draw);
    var all := Drawn(Indices(n));
    DistinctSetSize(draw);
    DistinctPositions(Indices(n));
    DistinctSetSize(Indices(n));
    assert drawn <= all by {
      forall x | x in drawn ensures x in all {
        assert Indices(n)[x] == x;
      }
    }
    SubsetOfSameSize(drawn, all);
    forall j | 0 <= j < n
      ensures j in draw
    {
      assert Indices(n)[j] == j;
    }
  }

  // ---------------------------------------------------------------------------
  // The buffer object
  // ---------------------------------------------------------------------------

  /** `ExperienceReplay`: the deque of records and its maximum length. */
  class ExperienceReplay {
    var buffer: seq<Experience>
    const capacity: nat

    ghost predicate Valid()
      reads this
    {
      |buffer| <= capacity
    }

    /** A new, empty buffer holding at most `capacity` records. */
    constructor (capacity: nat)
      ensures Valid()
      ensures this.capacity == capacity && buffer == []
    {
      this.capacity := capacity;
      buffer := [];
    }

    /** `len(replay)`: the number of records stored, never above the capacity. */
    function Length(): (n: nat)
      reads this
      requires Valid()
      ensures n <= capacity
      ensures n == |buffer|
    {
      |buffer|
    }

    /** Adds a record at the newest end; when full, the oldest record is dropped first. */
    method Append(x: Experience)
      requires Valid()
      modifies this
      ensures Valid()
      ensures buffer == Window(old(buffer) + [x], capacity)
    {
      WindowAppend(buffer, x, capacity);
      if 0 < capacity {
        if |buffer| == capacity {
          buffer := buffer[1..] + [x];
        } else {
          buffer := buffer + [x];
        }
      }
    }

    /**
     * Gathers the records at the drawn indices into five columns. The indices
     * are the random draw without replacement, passed in.
     */
    function Sample(batchSize: nat, draw: seq<nat>): (r: Result<Batch, SampleError>)
      reads this
      requires 0 < batchSize <= |buffer| ==> IsDraw(draw, batchSize, |buffer|)
      ensures r.Ok? <==> 0 < batchSize <= |buffer|
      ensures batchSize > |buffer| ==> r == Err(TooFewRecords)
      ensures batchSize == 0 ==> r == Err(EmptyBatch)
      ensures r.Ok? ==> Aligned(r.value) && |r.value.states| == batchSize
      ensures r.Ok? ==> forall i :: 0 <= i < batchSize ==> Row(r.value, i) == buffer[draw[i]]
    {
      if batchSize > |buffer| then Err(TooFewRecords)
      else if batchSize == 0 then Err(EmptyBatch)
      else Ok(Unzip(Gather(buffer, draw)))
    }

    /** A batch as large as the buffer holds every stored record. */
    lemma FullSampleCoversBuffer(draw: seq<nat>)
      requires 0 < |buffer| && IsDraw(draw, |buffer|, |buffer|)
      ensures Sample(|buffer|, draw).Ok?
      ensures forall j :: 0 <= j < |buffer| ==> buffer[j] in Rows(Sample(|buffer|, draw).value)
    {
      var rows := Rows(Sample(|buffer|, draw).value);
      FullDrawCovers(draw, |buffer|);
      forall j | 0 <= j < |buffer|
        ensures buffer[j] in rows
      {
        assert j in draw;
        var i :| 0 <= i < |draw| && draw[i] == j;
        assert rows[i] == buffer[j];
      }
    }
  }
}
