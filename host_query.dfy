/** The unbilled-host query shared by every ledger generation: the executed-host
    dictionary built from the job-host summary query, and the loop that keeps the
    names with no billed row (aap_billing/db/db.py:121-137,
    azure_billing/db/db.py:103-124, azure_billing/db.py:40-66). */
module HostQuery {
  import opened Calendar

  /** A row of the job-host summary table: a host that a job ran against, and when. */
  datatype Execution = Execution(hostName: string, modified: Timestamp)

  predicate Distinct(s: seq<string>) {
    forall i, j :: 0 <= i < j < |s| ==> s[i] != s[j]
  }

  /** Some execution of `name` was modified strictly after `start`. */
  predicate ExecutedAfter(executions: seq<Execution>, start: DateTime, name: string) {
    exists e :: e in executions && e.hostName == name && Before(start, e.modified)
  }

  /** The position of the first occurrence of `x` in `s`. */
  function FirstIndex(s: seq<string>, x: string): (i: nat)
    requires x in s
    ensures i < |s| && s[i] == x
    ensures forall k :: 0 <= k < i ==> s[k] != x
  {
    if s[0] == x then 0 else 1 + FirstIndex(s[1..], x)
  }

  /** Appending an element leaves the first occurrence of an earlier one where it was. */
  lemma FirstIndexAppend(init: seq<string>, last: string, x: string)
    requires x in init
    ensures FirstIndex(init + [last], x) == FirstIndex(init, x)
  {
    var s := init + [last];
    assert s[FirstIndex(init, x)] == x;
  }

  /** The keys of a dict filled from `names` in order: every name once, in the order of
      its first occurrence. */
  function DedupNames(names: seq<string>): (r: seq<string>)
    ensures Distinct(r)
    ensures forall x :: x in r <==> x in names
    ensures forall i, j :: 0 <= i < j < |r| ==> FirstIndex(names, r[i]) < FirstIndex(names, r[j])
  {
    if names == [] then []
    else
      var init := names[..|names| - 1];
      var prefix := DedupNames(init);
      var last := names[|names| - 1];
      assert names == init + [last];
      forall x | x in prefix
        ensures FirstIndex(names, x) == FirstIndex(init, x)
      {
        FirstIndexAppend(init, last, x);
      }
      if last in prefix then prefix
      else
        assert FirstIndex(names, last) == |names| - 1;
        prefix + [last]
  }

  /** Host names of the executions modified strictly after `start`, in query order
      (`JobHostSummary.objects.filter(modified__gt=startDate)`). */
  function NamesExecutedAfter(executions: seq<Execution>, start: DateTime): (r: seq<string>)
    ensures forall x :: x in r <==> ExecutedAfter(executions, start, x)
  {
    if executions == [] then []
    else
      var e := executions[0];
      var rest := NamesExecutedAfter(executions[1..], start);
      assert forall x :: ExecutedAfter(executions, start, x) <==>
        (e.hostName == x && Before(start, e.modified)) || ExecutedAfter(executions[1..], start, x) by {
        assert executions == [e] + executions[1..];
      }
      (if Before(start, e.modified) then [e.hostName] else []) + rest
  }

  /** Names of all executions, in query order, with no date filter. */
  function AllNames(executions: seq<Execution>): (r: seq<string>)
    ensures |r| == |executions|
    ensures forall i :: 0 <= i < |executions| ==> r[i] == executions[i].hostName
  {
    seq(|executions|, i requires 0 <= i < |executions| => executions[i].hostName)
  }

  /** `keys` without the names in `billed`, order kept. */
  function WithoutNames(keys: seq<string>, billed: set<string>): (r: seq<string>)
    ensures forall x :: x in r <==> x in keys && x !in billed
    ensures Distinct(keys) ==> Distinct(r)
    ensures Distinct(keys) ==> forall i, j :: 0 <= i < j < |r| ==> FirstIndex(keys, r[i]) < FirstIndex(keys, r[j])
  {
    if keys == [] then []
    else
      var init := keys[..|keys| - 1];
      var prefix := WithoutNames(init, billed);
      var last := keys[|keys| - 1];
      assert keys == init + [last];
      assert Distinct(keys) ==> last !in init;
      forall x | x in prefix
        ensures FirstIndex(keys, x) == FirstIndex(init, x)
      {
        FirstIndexAppend(init, last, x);
      }
      if last in billed then prefix
      else
        assert Distinct(keys) ==> FirstIndex(keys, last) == |keys| - 1;
        prefix + [last]
  }

  /** `getUnbilledHosts`: the distinct names executed strictly after `start`, in
      first-occurrence order, minus the names in `billed`. */
  function UnbilledNames(executions: seq<Execution>, start: DateTime, billed: set<string>): (r: seq<string>)
    ensures Distinct(r)
    ensures forall x :: x in r <==> ExecutedAfter(executions, start, x) && x !in billed
    ensures var names := NamesExecutedAfter(executions, start);
            forall i, j :: 0 <= i < j < |r| ==> FirstIndex(names, r[i]) < FirstIndex(names, r[j])
  {
    var names := NamesExecutedAfter(executions, start);
    var keys := DedupNames(names);
    var r := WithoutNames(keys, billed);
    forall i, j | 0 <= i < j < |r|
      ensures FirstIndex(names, r[i]) < FirstIndex(names, r[j])
    {
      var p, q := FirstIndex(keys, r[i]), FirstIndex(keys, r[j]);
      assert p < q;
    }
    r
  }

  /** The loop of aap_billing/db/db.py:133-136 (the same loop is azure_billing/db/db.py:120-123):
      append each executed host that has no billed row. */
  method CollectNewHosts(executed: seq<string>, billed: set<string>) returns (newHosts: seq<string>)
    ensures newHosts == WithoutNames(executed, billed)
  {
    newHosts := [];
    var i := 0;
    while i < |executed|
      invariant 0 <= i <= |executed|
      invariant newHosts == WithoutNames(executed[..i], billed)
    {
      assert executed[..i + 1][..i] == executed[..i];
      if executed[i] !in billed {
        newHosts := newHosts + [executed[i]];
      }
      i := i + 1;
    }
    assert executed[..|executed|] == executed;
  }
}
