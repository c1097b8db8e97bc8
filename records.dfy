/** The billing record that a metering call produces and that the ledgers store
    (aap_billing/db/db.py:150-164, azure_billing/db/db.py:136-150), and the
    comma-joined host list it carries. */
module Records {
  import opened Wrappers
  import opened Calendar

  /** The `billing_record` dict returned by `pegBillingCounter`. */
  datatype BillingData = BillingData(
    hosts: string,
    dimension: string,
    quantity: int,
    managedAppId: string,
    resourceId: Option<string>,
    plan: Option<string>,
    usageEventId: string)

  /** A row of the BillingRecord table. */
  datatype BillingRecord = BillingRecord(
    billedDate: Timestamp,
    hosts: string,
    dimension: string,
    quantity: int,
    managedAppId: string,
    resourceId: Option<string>,
    plan: Option<string>,
    usageEventId: string)

  /** The row `recordBillingInstance` saves for `data`, billed at `now`. */
  function RecordRow(data: BillingData, now: Timestamp): BillingRecord {
    BillingRecord(now, data.hosts, data.dimension, data.quantity, data.managedAppId,
                  data.resourceId, data.plan, data.usageEventId)
  }

  /** The total length of `items`. */
  function TotalLength(items: seq<string>): nat {
    if items == [] then 0 else |items[0]| + TotalLength(items[1..])
  }

  /** `sep.join(items)`: the items in order with one separator between neighbours. */
  function Join(items: seq<string>, sep: char): (r: string)
    ensures items == [] ==> r == ""
    ensures |items| >= 1 ==> |r| == TotalLength(items) + |items| - 1
    ensures |items| >= 1 ==> r[..|items[0]|] == items[0]
  {
    if items == [] then ""
    else if |items| == 1 then items[0]
    else items[0] + [sep] + Join(items[1..], sep)
  }

  /** `s.split(sep)`: the pieces between occurrences of `sep`; always at least one. */
  function Split(s: string, sep: char): (r: seq<string>)
    ensures |r| >= 1
  {
    if s == [] then [""]
    else
      var rest := Split(s[1..], sep);
      if s[0] == sep then [""] + rest
      else [[s[0]] + rest[0]] + rest[1..]
  }

  /** A piece with no separator splits to itself. */
  lemma {:induction false} SplitNoSeparator(a: string, sep: char)
    requires sep !in a
    ensures Split(a, sep) == [a]
  {
    if a != [] {
      SplitNoSeparator(a[1..], sep);
      assert [a[0]] + a[1..] == a;
    }
  }

  /** Splitting at the first separator peels off the piece before it. */
  lemma {:induction false} SplitAtSeparator(a: string, sep: char, rest: string)
    requires sep !in a
    ensures Split(a + [sep] + rest, sep) == [a] + Split(rest, sep)
  {
    if a == [] {
      assert a + [sep] + rest == [sep] + rest;
      assert ([sep] + rest)[1..] == rest;
    } else {
      var s := a + [sep] + rest;
      assert s[1..] == a[1..] + [sep] + rest;
      SplitAtSeparator(a[1..], sep, rest);
      assert [a[0]] + a[1..] == a;
    }
  }

  /** `hosts.split(",")` recovers the host list from `",".join(hosts)` when the list is
      not empty and no host name contains a comma. */
  lemma {:induction false} SplitJoin(items: seq<string>, sep: char)
    requires |items| >= 1
    requires forall i :: 0 <= i < |items| ==> sep !in items[i]
    ensures Split(Join(items, sep), sep) == items
  {
    if |items| == 1 {
      SplitNoSeparator(items[0], sep);
    } else {
      SplitJoin(items[1..], sep);
      SplitAtSeparator(items[0], sep, Join(items[1..], sep));
      assert [items[0]] + items[1..] == items;
    }
  }
}
