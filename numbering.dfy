/**
 * Document numbering on per-business, per-financial-year counters: challan
 * numbers are issued by an upsert that increments, bill numbers by an upsert
 * that reads followed by a separate increment.
 */
module Numbering {
  import opened Text
  import opened FinancialYear
  import opened Entities

  /** The `BusinessCounter` table: the stored `nextNumber` per key. */
  type Counters = map<CounterKey, nat>

  function ChallanKey(businessId: Id, yearKey: string): CounterKey
  {
    CounterKey(businessId, CHALLAN, yearKey)
  }

  function BillKey(businessId: Id, yearKey: string): CounterKey
  {
    CounterKey(businessId, BILL, yearKey)
  }

  // ---- challan counter ---------------------------------------------------

  /** The CHALLAN upsert: a missing row is created holding 2, an existing one goes up by one. */
  function ChallanUpsert(counters: Counters, key: CounterKey): (r: Counters)
    ensures r.Keys == counters.Keys + {key}
    ensures r[key] >= 1
    ensures forall k :: k in counters && k != key ==> r[k] == counters[k]
  {
    if key in counters then counters[key := counters[key] + 1] else counters[key := 2]
  }

  /** The number the upsert issues: the stored value after it, minus one. */
  function Issued(counters: Counters, key: CounterKey): nat
  {
    ChallanUpsert(counters, key)[key] - 1
  }

  /**
   * The first allocation on a key issues 1 and leaves 2 stored; every later one
   * issues the value stored before it and raises it by exactly one.  Either way
   * the stored value afterwards is the issued number plus one.
   */
  lemma AllocationStep(counters: Counters, key: CounterKey)
    ensures key !in counters ==> Issued(counters, key) == 1
    ensures key in counters ==> Issued(counters, key) == counters[key]
    ensures ChallanUpsert(counters, key)[key] == Issued(counters, key) + 1
  {
  }

  /** The numbers issued by `n` allocations in a row on one key, and the counters after them. */
  function IssueRun(counters: Counters, key: CounterKey, n: nat): (r: (seq<nat>, Counters))
    ensures |r.0| == n
    ensures r.1.Keys == counters.Keys + (if n > 0 then {key} else {})
    decreases n
  {
    if n == 0 then ([], counters)
    else
      var next := IssueRun(ChallanUpsert(counters, key), key, n - 1);
      ([Issued(counters, key)] + next.0, next.1)
  }

  /** The number the next allocation on `key` issues. */
  function FirstIssued(counters: Counters, key: CounterKey): nat
  {
    if key in counters then counters[key] else 1
  }

  /**
   * `n` allocations in a row issue `n` consecutive numbers starting at the next
   * one, leave the counter one past the last, and touch no other key.
   */
  lemma {:induction false} IssueRunConsecutive(counters: Counters, key: CounterKey, n: nat)
    ensures var (issued, after) := IssueRun(counters, key, n);
      && (forall i :: 0 <= i < n ==> issued[i] == FirstIssued(counters, key) + i)
      && (n > 0 ==> after[key] == FirstIssued(counters, key) + n)
      && (forall k :: k in counters && k != key ==> k in after && after[k] == counters[k])
    decreases n
  {
    if n > 0 {
      var c1 := ChallanUpsert(counters, key);
      IssueRunConsecutive(c1, key, n - 1);
      AllocationStep(counters, key);
      assert FirstIssued(c1, key) == FirstIssued(counters, key) + 1;
      var issued := IssueRun(counters, key, n).0;
      forall i | 0 <= i < n ensures issued[i] == FirstIssued(counters, key) + i {
        if i > 0 {
          assert issued[i] == IssueRun(c1, key, n - 1).0[i - 1];
        }
      }
    }
  }

  /** No number is issued twice in a run of allocations. */
  lemma IssueRunDistinct(counters: Counters, key: CounterKey, n: nat)
    ensures var issued := IssueRun(counters, key, n).0;
      forall i, j :: 0 <= i < j < n ==> issued[i] != issued[j]
  {
    IssueRunConsecutive(counters, key, n);
  }

  /** `challanNumber`: the year key, a slash, and the issued number padded to four digits. */
  function ChallanNumber(yearKey: string, issued: nat): (r: string)
    ensures |r| == |yearKey| + 1 + |Pad(issued, DefaultPadWidth)|
    ensures |r| > |yearKey| && r[..|yearKey|] == yearKey && r[|yearKey|] == '/'
  {
    yearKey + "/" + Pad(issued, DefaultPadWidth)
  }

  /** Within one year key the challan number determines the issued number. */
  lemma ChallanNumberInjective(yearKey: string, a: nat, b: nat)
    ensures ChallanNumber(yearKey, a) == ChallanNumber(yearKey, b) ==> a == b
  {
    var n := |yearKey| + 1;
    if ChallanNumber(yearKey, a) == ChallanNumber(yearKey, b) {
      assert ChallanNumber(yearKey, a)[n..] == Pad(a, DefaultPadWidth);
      assert ChallanNumber(yearKey, b)[n..] == Pad(b, DefaultPadWidth);
      PadParseRoundTrip(a, DefaultPadWidth);
      PadParseRoundTrip(b, DefaultPadWidth);
    }
  }

  // ---- bill counter --------------------------------------------------------

  /** The value the BILL upsert reads: a missing row is created holding 1, an existing one is read as is. */
  function BillRead(counters: Counters, key: CounterKey): nat
  {
    if key in counters then counters[key] else 1
  }

  /** The counters after the BILL upsert and the separate increment. */
  function BillAdvance(counters: Counters, key: CounterKey): (r: Counters)
    ensures r.Keys == counters.Keys + {key}
    ensures forall k :: k in counters && k != key ==> r[k] == counters[k]
  {
    counters[key := BillRead(counters, key) + 1]
  }

  /** `billNo`: the year key, a hyphen, and the number read padded to four digits. */
  function BillNumber(yearKey: string, n: nat): (r: string)
    ensures |r| > |yearKey| && r[..|yearKey|] == yearKey && r[|yearKey|] == '-'
  {
    yearKey + "-" + Pad(n, DefaultPadWidth)
  }

  /**
   * Each bill uses the value read before the increment, the counter rises by
   * exactly one, and the first bill of a year is number 0001.
   */
  lemma BillNumbering(counters: Counters, key: CounterKey, yearKey: string)
    ensures BillAdvance(counters, key)[key] == BillRead(counters, key) + 1
    ensures key in counters ==> BillAdvance(counters, key)[key] == counters[key] + 1
    ensures key !in counters ==> BillNumber(yearKey, BillRead(counters, key)) == yearKey + "-0001"
  {
    if key !in counters {
      PadDefaultFirst();
    }
  }

  lemma PadDefaultFirst()
    ensures Pad(1, DefaultPadWidth) == "0001"
  {
    assert DecimalString(1) == "1";
  }

  /** Two bills drawn one after the other on the same key get different numbers. */
  lemma BillNumbersDistinct(counters: Counters, key: CounterKey, yearKey: string)
    ensures BillNumber(yearKey, BillRead(counters, key))
         != BillNumber(yearKey, BillRead(BillAdvance(counters, key), key))
  {
    var a, b := BillRead(counters, key), BillRead(BillAdvance(counters, key), key);
    assert b == a + 1;
    var n := |yearKey| + 1;
    assert BillNumber(yearKey, a)[n..] == Pad(a, DefaultPadWidth);
    assert BillNumber(yearKey, b)[n..] == Pad(b, DefaultPadWidth);
    PadParseRoundTrip(a, DefaultPadWidth);
    PadParseRoundTrip(b, DefaultPadWidth);
  }
}
