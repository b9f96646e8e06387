/**
 * What every record validator shares: the `{ valid, errors }` outcome, the
 * conditional push of one message onto the error list, and the fixed order
 * in which the checks run and so in which their messages may appear.
 */
module Validation {

  /**
   * The object `validate()` returns. Each model names its messages by an
   * error datatype `E` whose `Text()` is the exact message string.
   */
  datatype Outcome<E> = Outcome(valid: bool, errors: seq<E>)

  /** One check of a validator: whether it failed, and the message it pushes when it does. */
  datatype Check<E> = Check(failed: bool, message: E)

  /** `if (failed) errors.push(message)`. */
  function Push<E>(errors: seq<E>, failed: bool, message: E): seq<E>
  {
    if failed then errors + [message] else errors
  }

  /** The error list left by running `checks` in order, one conditional push each, from `[]`. */
  function Collect<E>(checks: seq<Check<E>>): seq<E>
    decreases |checks|
  {
    if checks == [] then []
    else
      var last := checks[|checks| - 1];
      Push(Collect(checks[..|checks| - 1]), last.failed, last.message)
  }

  /** Running the checks one at a time: the first `k + 1` checks extend the list of the first `k` by at most one message. */
  lemma CollectNext<E>(checks: seq<Check<E>>, k: nat)
    requires k < |checks|
    ensures Collect(checks[..k + 1]) == Push(Collect(checks[..k]), checks[k].failed, checks[k].message)
  {
    assert checks[..k + 1][..k] == checks[..k];
  }

  /** Three checks at a time: the first `k + 3` checks extend the list of the first `k` by up to three messages. */
  lemma CollectThreeMore<E>(c: seq<Check<E>>, k: nat)
    requires k + 3 <= |c|
    ensures Collect(c[..k + 3]) ==
      Push(Push(Push(Collect(c[..k]), c[k].failed, c[k].message), c[k + 1].failed, c[k + 1].message),
        c[k + 2].failed, c[k + 2].message)
  {
    CollectNext(c, k);
    CollectNext(c, k + 1);
    CollectNext(c, k + 2);
  }

  /** `Collect` of nine checks, written out as nine pushes. */
  lemma CollectNine<E>(c: seq<Check<E>>)
    requires |c| == 9
    ensures Collect(c) ==
      var e0 := Push([], c[0].failed, c[0].message);
      var e1 := Push(e0, c[1].failed, c[1].message);
      var e2 := Push(e1, c[2].failed, c[2].message);
      var e3 := Push(e2, c[3].failed, c[3].message);
      var e4 := Push(e3, c[4].failed, c[4].message);
      var e5 := Push(e4, c[5].failed, c[5].message);
      var e6 := Push(e5, c[6].failed, c[6].message);
      var e7 := Push(e6, c[7].failed, c[7].message);
      Push(e7, c[8].failed, c[8].message)
  {
    assert c[..0] == [];
    CollectThreeMore(c, 0);
    CollectThreeMore(c, 3);
    CollectThreeMore(c, 6);
    assert c[..9] == c;
  }

  /** No message is reported exactly when no check failed. */
  lemma {:induction false} CollectEmpty<E>(checks: seq<Check<E>>)
    ensures Collect(checks) == [] <==> forall i :: 0 <= i < |checks| ==> !checks[i].failed
    decreases |checks|
  {
    if checks != [] {
      var n := |checks| - 1;
      var init := checks[..n];
      CollectEmpty(init);
      if Collect(checks) == [] {
        forall i | 0 <= i < |checks| ensures !checks[i].failed {
          if i < n {
            assert checks[i] == init[i];
          }
        }
      }
    }
  }

  /** A message is reported exactly when some check carrying it failed. */
  lemma {:induction false} CollectMembers<E>(checks: seq<Check<E>>, m: E)
    ensures m in Collect(checks) <==> exists i :: 0 <= i < |checks| && checks[i].failed && checks[i].message == m
    decreases |checks|
  {
    if checks != [] {
      var n := |checks| - 1;
      var init := checks[..n];
      CollectMembers(init, m);
      if m in Collect(checks) && m in Collect(init) {
        var i :| 0 <= i < |init| && init[i].failed && init[i].message == m;
        assert checks[i] == init[i];
      }
      if exists i :: 0 <= i < |checks| && checks[i].failed && checks[i].message == m {
        var i :| 0 <= i < |checks| && checks[i].failed && checks[i].message == m;
        if i < n {
          assert init[i] == checks[i];
        }
      }
    }
  }

  /** The checks are numbered by `rank` in the order they run: check `i` carries the message of rank `i`. */
  predicate Numbered<E>(checks: seq<Check<E>>, rank: E -> nat)
  {
    forall i :: 0 <= i < |checks| ==> rank(checks[i].message) == i
  }

  /**
   * The errors appear in check order, each at most once: `rank` strictly
   * increases along the list.
   */
  predicate InOrder<E>(errors: seq<E>, rank: E -> nat)
  {
    forall i, j :: 0 <= i < j < |errors| ==> rank(errors[i]) < rank(errors[j])
  }

  /** Every error comes from a check numbered below `k`. */
  predicate RanksBelow<E>(errors: seq<E>, rank: E -> nat, k: nat)
  {
    forall i :: 0 <= i < |errors| ==> rank(errors[i]) < k
  }

  /** Numbered checks report their messages in check order, each at most once. */
  lemma {:induction false} CollectInOrder<E>(checks: seq<Check<E>>, rank: E -> nat)
    requires Numbered(checks, rank)
    ensures InOrder(Collect(checks), rank)
    ensures RanksBelow(Collect(checks), rank, |checks|)
    decreases |checks|
  {
    if checks != [] {
      var n := |checks| - 1;
      var init := checks[..n];
      assert Numbered(init, rank) by {
        forall i | 0 <= i < |init| ensures rank(init[i].message) == i {
          assert init[i] == checks[i];
        }
      }
      CollectInOrder(init, rank);
    }
  }

  /** With numbered checks, the message of check `k` is reported exactly when check `k` failed. */
  lemma ReportedIffFailed<E>(checks: seq<Check<E>>, rank: E -> nat, k: nat)
    requires Numbered(checks, rank) && k < |checks|
    ensures checks[k].message in Collect(checks) <==> checks[k].failed
  {
    CollectMembers(checks, checks[k].message);
  }
}
