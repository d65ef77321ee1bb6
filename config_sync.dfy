/** The polling loop of Camera.setConfigValue (src/camera.ts:156-172).

    After writing a configuration value the operation reads the configuration
    tree back up to ten times and stops at the first read whose root `name` is
    strictly equal to the written value. The comparison is against the root
    widget's own name, not against the field that was written, and it is a
    strict equality between a string and a `number | string | boolean`. */
module ConfigSync {
  import opened Failures
  import opened Driver

  const MaxRetries: nat := 10
  const TimeoutMessage := "Config value did not update in time"

  /** `config.name === value`: strict equality never converts, so only a
      string value can equal the (string) name. */
  predicate NameEquals(c: ConfigTree, value: Primitive): (r: bool)
    ensures r <==> value.Str? && value.s == c.name
  {
    value == Str(c.name)
  }

  /** Read number `k` returned a tree whose name is not `value`. */
  ghost predicate Mismatch(read: nat -> Outcome<ConfigTree>, value: Primitive, k: nat) {
    read(k).Returned? && !NameEquals(read(k).value, value)
  }

  /** Every read numbered `lo` up to (not including) `hi` was a mismatch. */
  ghost predicate MismatchesBetween(read: nat -> Outcome<ConfigTree>, value: Primitive, lo: nat, hi: int) {
    forall k: nat :: lo <= k < hi ==> Mismatch(read, value, k)
  }

  /** What polling does from retry number `retries` on: how it settles, and how
      many reads it has made in all by then. */
  function Poll(read: nat -> Outcome<ConfigTree>, value: Primitive, retries: nat): (r: (Outcome<()>, nat))
    requires retries <= MaxRetries
    ensures retries <= r.1 <= MaxRetries
    ensures r.0.Returned? ==> retries < r.1
    decreases MaxRetries - retries
  {
    if retries == MaxRetries then
      (Threw(PlainError(TimeoutMessage)), retries)
    else
      match read(retries)
      case Threw(e) => (Threw(e), retries + 1)
      case Returned(config) =>
        if NameEquals(config, value) then (Returned(()), retries + 1)
        else Poll(read, value, retries + 1)
  }

  /** How polling can end. It succeeds only on a read that matched, after
      mismatching reads only; it fails either with the timeout after ten
      mismatching reads or with the error of a read that itself failed, again
      after mismatching reads only. */
  lemma {:induction false} PollOutcomes(read: nat -> Outcome<ConfigTree>, value: Primitive, retries: nat)
    requires retries <= MaxRetries
    ensures var r := Poll(read, value, retries);
      && (r.0.Returned? ==>
            retries < r.1 && MismatchesBetween(read, value, retries, r.1 - 1)
            && read(r.1 - 1).Returned? && NameEquals(read(r.1 - 1).value, value))
      && (r.0.Threw? ==>
            (r.1 == MaxRetries && r.0.err == PlainError(TimeoutMessage)
             && MismatchesBetween(read, value, retries, MaxRetries))
            || (retries < r.1 && MismatchesBetween(read, value, retries, r.1 - 1)
                && read(r.1 - 1) == Threw(r.0.err)))
    decreases MaxRetries - retries
  {
    if retries == MaxRetries {
      return;
    }
    var r := Poll(read, value, retries);
    match read(retries)
    case Threw(e) =>
      assert r == (Threw(e), retries + 1);
    case Returned(config) =>
      if NameEquals(config, value) {
        assert r == (Returned(()), retries + 1);
      } else {
        assert Mismatch(read, value, retries);
        assert r == Poll(read, value, retries + 1);
        PollOutcomes(read, value, retries + 1);
        ExtendMismatches(read, value, retries, r.1 - 1);
        ExtendMismatches(read, value, retries, MaxRetries);
      }
  }

  lemma ExtendMismatches(read: nat -> Outcome<ConfigTree>, value: Primitive, lo: nat, hi: int)
    requires Mismatch(read, value, lo)
    ensures MismatchesBetween(read, value, lo + 1, hi) ==> MismatchesBetween(read, value, lo, hi)
  {
  }

  /** The loop as the source writes it: `retries` counts the reads that did not
      match; a match breaks out early; ten misses throw. */
  method PollUntilApplied(read: nat -> Outcome<ConfigTree>, value: Primitive) returns (r: Outcome<()>, readCount: nat)
    ensures (r, readCount) == Poll(read, value, 0)
  {
    var retries: nat := 0;
    readCount := 0;
    while retries < MaxRetries
      invariant retries <= MaxRetries && readCount == retries
      invariant Poll(read, value, retries) == Poll(read, value, 0)
    {
      var config := read(retries);      // await context.configToJS()
      readCount := readCount + 1;
      if config.Threw? {
        assert Poll(read, value, retries) == (Threw(config.err), retries + 1);
        r := Threw(config.err);
        return;
      }
      if NameEquals(config.value, value) {
        assert Poll(read, value, retries) == (Returned(()), retries + 1);
        break;
      }
      assert Poll(read, value, retries) == Poll(read, value, retries + 1);
      retries := retries + 1;           // after the 100 ms sleep
    }
    if retries == MaxRetries {
      r := Threw(PlainError(TimeoutMessage));
    } else {
      r := Returned(());
    }
  }

  /** A value that shows up on read `k` after `k` mismatching reads is accepted
      on exactly that read. */
  lemma {:induction false} PollConverges(read: nat -> Outcome<ConfigTree>, value: Primitive, from: nat, k: nat)
    requires from <= k < MaxRetries
    requires MismatchesBetween(read, value, from, k)
    requires read(k).Returned? && NameEquals(read(k).value, value)
    ensures Poll(read, value, from) == (Returned(()), k + 1)
    decreases k - from
  {
    if from < k {
      assert Mismatch(read, value, from);
      PollConverges(read, value, from + 1, k);
    }
  }

  /** A value that never shows up times out after exactly ten reads. */
  lemma {:induction false} PollTimesOut(read: nat -> Outcome<ConfigTree>, value: Primitive, from: nat)
    requires from <= MaxRetries
    requires MismatchesBetween(read, value, from, MaxRetries)
    ensures Poll(read, value, from) == (Threw(PlainError(TimeoutMessage)), MaxRetries)
    decreases MaxRetries - from
  {
    if from < MaxRetries {
      assert Mismatch(read, value, from);
      PollTimesOut(read, value, from + 1);
    }
  }

  /** Because a string name is compared strictly with the written value, writing
      a number or a boolean never converges: unless a read fails, it times out. */
  lemma {:induction false} NonStringNeverConverges(read: nat -> Outcome<ConfigTree>, value: Primitive, from: nat)
    requires !value.Str? && from <= MaxRetries
    requires forall k: nat :: from <= k < MaxRetries ==> read(k).Returned?
    ensures Poll(read, value, from) == (Threw(PlainError(TimeoutMessage)), MaxRetries)
    decreases MaxRetries - from
  {
    if from < MaxRetries {
      NonStringNeverConverges(read, value, from + 1);
    }
  }
}
