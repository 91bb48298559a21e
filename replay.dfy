/** The cursor of `test_data`, which replays a list of diagnostic result
    dicts round-robin in place of querying the device. */
module Replay {

  /** The cursor after one call: `(idx + 1) % len(data)`. */
  function Next(idx: nat, n: nat): (r: nat)
    requires n > 0
    ensures r < n
    ensures idx < n - 1 ==> r == idx + 1
    ensures idx == n - 1 ==> r == 0
  {
    (idx + 1) % n
  }

  /** The cursor after `k` further calls. */
  function After(idx: nat, n: nat, k: nat): (r: nat)
    requires idx < n
    ensures r < n
  {
    if k == 0 then idx else Next(After(idx, n, k - 1), n)
  }

  /** Before it wraps, each call moves the cursor one row on. */
  lemma {:induction false} AfterNoWrap(idx: nat, n: nat, k: nat)
    requires idx + k < n
    ensures After(idx, n, k) == idx + k
  {
    if k > 0 {
      AfterNoWrap(idx, n, k - 1);
    }
  }

  /** `j` calls followed by `k` calls are `j + k` calls. */
  lemma {:induction false} AfterAfter(idx: nat, n: nat, j: nat, k: nat)
    requires idx < n
    ensures After(idx, n, j + k) == After(After(idx, n, j), n, k)
  {
    if k > 0 {
      AfterAfter(idx, n, j, k - 1);
    }
  }

  /** `len(data)` calls bring the cursor back to where it was. */
  lemma FullCycle(idx: nat, n: nat)
    requires idx < n
    ensures After(idx, n, n) == idx
  {
    var toLast := n - 1 - idx;
    AfterNoWrap(idx, n, toLast);
    AfterAfter(idx, n, toLast, idx + 1);
    AfterAfter(n - 1, n, 1, idx);
    AfterNoWrap(0, n, idx);
  }

  /** The replay has period `len(data)`. */
  lemma Periodic(idx: nat, n: nat, k: nat)
    requires idx < n
    ensures After(idx, n, n + k) == After(idx, n, k)
  {
    AfterAfter(idx, n, n, k);
    FullCycle(idx, n);
  }

  /** Started at cursor 0 by `test_data(data)`, the first `len(data)` calls
      return the rows in order. */
  lemma ServedInOrder<T>(data: seq<T>, k: nat)
    requires k < |data|
    ensures data[After(0, |data|, k)] == data[k]
  {
    AfterNoWrap(0, |data|, k);
  }
}
