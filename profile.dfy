/** The figures `loadProfile` derives from the three query results: total XP,
    audit ratio, the chronological XP series, and pass/fail counts. */
module Profile {
  import opened Wrappers
  import opened JsStrings
  import opened StableSort

  /** One XP transaction; `createdAt` is the instant `new Date(createdAt)` denotes, in milliseconds. */
  datatype Transaction = Transaction(amount: int, createdAt: int, path: string)

  /** An element of `xpOverTime`: `{ date, amount }`. */
  datatype TimedAmount = TimedAmount(date: int, amount: int)

  /** One progress row; `grade` is `null` (None) or a number. */
  datatype ProgressRecord = ProgressRecord(grade: Option<real>, path: string)

  datatype User = User(login: string)

  /** What the profile panel and the two chart calls are given. */
  datatype ProfileView = ProfileView(login: string, totalXP: int, auditRatio: real,
                                     xpOverTime: seq<TimedAmount>, passCount: nat, failCount: nat)

  function TxAmount(tx: Transaction): int {
    tx.amount
  }

  function TimedAmountOf(t: TimedAmount): int {
    t.amount
  }

  function DateOf(t: TimedAmount): int {
    t.date
  }

  /** Reference definition of a total: the sum of `amountOf` over the elements. */
  function Total<T>(s: seq<T>, amountOf: T -> int): int {
    if s == [] then 0 else amountOf(s[0]) + Total(s[1..], amountOf)
  }

  lemma {:induction false} TotalAppend<T>(a: seq<T>, b: seq<T>, amountOf: T -> int)
    ensures Total(a + b, amountOf) == Total(a, amountOf) + Total(b, amountOf)
  {
    if a == [] {
      assert a + b == b;
    } else {
      assert (a + b)[0] == a[0];
      assert (a + b)[1..] == a[1..] + b;
      TotalAppend(a[1..], b, amountOf);
    }
  }

  /** A total does not depend on the order of the elements. */
  lemma {:induction false} TotalPermutation<T>(a: seq<T>, b: seq<T>, amountOf: T -> int)
    requires multiset(a) == multiset(b)
    ensures Total(a, amountOf) == Total(b, amountOf)
    decreases |a|
  {
    if a == [] {
      assert |b| == |multiset(b)| == 0;
    } else {
      var x := a[0];
      assert x in multiset(b);
      var j :| 0 <= j < |b| && b[j] == x;
      var rest := b[..j] + b[j + 1..];
      assert b == b[..j] + [x] + b[j + 1..];
      assert a == [x] + a[1..];
      assert multiset(rest) == multiset(b) - multiset{x};
      assert multiset(a[1..]) == multiset(a) - multiset{x};
      TotalPermutation(a[1..], rest, amountOf);
      TotalAppend(b[..j] + [x], b[j + 1..], amountOf);
      TotalAppend(b[..j], [x], amountOf);
      TotalAppend(b[..j], b[j + 1..], amountOf);
    }
  }

  /** `txs.reduce((sum, tx) => sum + tx.amount, acc)`: a left fold, which adds
      the amounts to the accumulator. */
  function ReduceFrom(acc: int, txs: seq<Transaction>): (r: int)
    ensures r == acc + Total(txs, TxAmount)
    decreases |txs|
  {
    if txs == [] then acc else ReduceFrom(acc + txs[0].amount, txs[1..])
  }

  /** `totalXP`: the sum of every transaction amount, 0 for no transactions. */
  function TotalXP(txs: seq<Transaction>): (t: int)
    ensures t == Total(txs, TxAmount)
    ensures txs == [] ==> t == 0
  {
    ReduceFrom(0, txs)
  }

  /** The elements of `s` that satisfy `p`, in order (`Array.prototype.filter`). */
  function Filter<T>(s: seq<T>, p: T -> bool): (r: seq<T>)
    ensures |r| <= |s|
    ensures forall x | x in r :: x in s && p(x)
    ensures forall i | 0 <= i < |s| && p(s[i]) :: s[i] in r
  {
    if s == [] then []
    else
      var rest := Filter(s[1..], p);
      assert forall i | 1 <= i < |s| :: s[i] == s[1..][i - 1];
      (if p(s[0]) then [s[0]] else []) + rest
  }

  /** Filtering distributes over concatenation, so the kept elements stay in
      their input order. */
  lemma {:induction false} FilterAppend<T>(a: seq<T>, b: seq<T>, p: T -> bool)
    ensures Filter(a + b, p) == Filter(a, p) + Filter(b, p)
  {
    if a == [] {
      assert a + b == b;
    } else {
      assert (a + b)[0] == a[0];
      assert (a + b)[1..] == a[1..] + b;
      FilterAppend(a[1..], b, p);
    }
  }

  /** A single element is kept exactly when it passes. */
  lemma FilterSingle<T>(x: T, p: T -> bool)
    ensures Filter([x], p) == if p(x) then [x] else []
  {
    assert [x][1..] == [];
  }

  /** The filter keeps everything exactly when every element passes, and
      nothing exactly when none does. */
  lemma {:induction false} FilterExtremes<T>(s: seq<T>, p: T -> bool)
    ensures |Filter(s, p)| == |s| <==> forall i | 0 <= i < |s| :: p(s[i])
    ensures |Filter(s, p)| == 0 <==> forall i | 0 <= i < |s| :: !p(s[i])
  {
    if s != [] {
      FilterExtremes(s[1..], p);
      assert forall i | 1 <= i < |s| :: s[i] == s[1..][i - 1];
      if !p(s[0]) {
        assert |Filter(s, p)| == |Filter(s[1..], p)| <= |s[1..]|;
      }
    }
  }

  /** `tx.path.includes('audit')`. */
  predicate IsAudit(tx: Transaction) {
    Includes(tx.path, "audit")
  }

  /** `auditRatio` before `toFixed(2)`: the share of transactions whose path
      mentions `audit`, and 0 for an empty list. */
  function AuditRatio(txs: seq<Transaction>): (r: real)
    ensures 0.0 <= r <= 1.0
    ensures txs == [] ==> r == 0.0
  {
    if |txs| == 0 then 0.0
    else
      var audits := |Filter(txs, IsAudit)|;
      RatioBounds(audits, |txs|);
      audits as real / |txs| as real
  }

  lemma RatioBounds(a: nat, n: nat)
    requires 0 < n && a <= n
    ensures 0.0 <= a as real / n as real <= 1.0
  {
    var r := a as real / n as real;
    assert r * n as real == a as real;
    if r > 1.0 {
      assert false;
    }
  }

  /** The ratio is 1 exactly when there are transactions and all of them are
      audits, and 0 exactly when none is. */
  lemma AuditRatioExtremes(txs: seq<Transaction>)
    ensures AuditRatio(txs) == 1.0 <==> txs != [] && forall i | 0 <= i < |txs| :: IsAudit(txs[i])
    ensures AuditRatio(txs) == 0.0 <==> forall i | 0 <= i < |txs| :: !IsAudit(txs[i])
  {
    FilterExtremes(txs, IsAudit);
    if txs != [] {
      RatioExtremes(|Filter(txs, IsAudit)|, |txs|);
    }
  }

  lemma RatioExtremes(a: nat, n: nat)
    requires 0 < n
    ensures a as real / n as real == 1.0 <==> a == n
    ensures a as real / n as real == 0.0 <==> a == 0
  {
    var r := a as real / n as real;
    assert r * n as real == a as real;
  }

  /** The `map` step of `xpOverTime`: each transaction's date and amount. */
  function Timed(txs: seq<Transaction>): seq<TimedAmount> {
    seq(|txs|, i requires 0 <= i < |txs| => TimedAmount(txs[i].createdAt, txs[i].amount))
  }

  lemma {:induction false} TimedTotal(txs: seq<Transaction>)
    ensures Total(Timed(txs), TimedAmountOf) == Total(txs, TxAmount)
  {
    if txs != [] {
      assert Timed(txs)[1..] == Timed(txs[1..]);
      TimedTotal(txs[1..]);
    }
  }

  /** `xpOverTime`: the mapped transactions sorted by `(a, b) => a.date - b.date`. */
  function XpOverTime(txs: seq<Transaction>): seq<TimedAmount> {
    SortBy(Timed(txs), DateOf)
  }

  /** The series is a chronological permutation of the transactions' (date,
      amount) pairs; transactions at the same instant keep their order; no
      amount is lost, so the series adds up to `totalXP`; and an already
      chronological list is kept as it is. */
  lemma XpOverTimeOrder(txs: seq<Transaction>)
    ensures |XpOverTime(txs)| == |txs| && multiset(XpOverTime(txs)) == multiset(Timed(txs))
    ensures forall i, j :: 0 <= i < j < |txs| ==> XpOverTime(txs)[i].date <= XpOverTime(txs)[j].date
    ensures forall d :: WithKey(XpOverTime(txs), DateOf, d) == WithKey(Timed(txs), DateOf, d)
    ensures Total(XpOverTime(txs), TimedAmountOf) == TotalXP(txs)
    ensures (forall i, j :: 0 <= i < j < |txs| ==> txs[i].createdAt <= txs[j].createdAt) ==>
      XpOverTime(txs) == Timed(txs)
  {
    var timed := Timed(txs);
    var r := XpOverTime(txs);
    assert SortedBy(r, DateOf);
    forall i, j | 0 <= i < j < |txs|
      ensures r[i].date <= r[j].date
    {
      assert DateOf(r[i]) <= DateOf(r[j]);
    }
    forall d
      ensures WithKey(r, DateOf, d) == WithKey(timed, DateOf, d)
    {
      SortByStable(timed, DateOf, d);
    }
    TotalPermutation(r, timed, TimedAmountOf);
    TimedTotal(txs);
    if forall i, j :: 0 <= i < j < |txs| ==> txs[i].createdAt <= txs[j].createdAt {
      assert SortedBy(timed, DateOf) by {
        forall i, j | 0 <= i < j < |timed|
          ensures DateOf(timed[i]) <= DateOf(timed[j])
        {
          assert timed[i].date == txs[i].createdAt && timed[j].date == txs[j].createdAt;
        }
      }
      SortBySorted(timed, DateOf);
    }
  }

  /** `p.grade === 1`. */
  predicate Passed(p: ProgressRecord) {
    p.grade == Some(1.0)
  }

  /** `p.grade === 0`. */
  predicate Failed(p: ProgressRecord) {
    p.grade == Some(0.0)
  }

  function PassCount(progress: seq<ProgressRecord>): nat {
    |Filter(progress, Passed)|
  }

  function FailCount(progress: seq<ProgressRecord>): nat {
    |Filter(progress, Failed)|
  }

  /** No row is counted twice, so the two counts add up to at most the number
      of rows, and to exactly that number iff every grade is exactly 0 or 1. */
  lemma {:induction false} PassFailBound(progress: seq<ProgressRecord>)
    ensures PassCount(progress) + FailCount(progress) <= |progress|
    ensures PassCount(progress) + FailCount(progress) == |progress| <==>
      forall i | 0 <= i < |progress| :: Passed(progress[i]) || Failed(progress[i])
  {
    if progress != [] {
      PassFailBound(progress[1..]);
      assert forall i | 1 <= i < |progress| :: progress[i] == progress[1..][i - 1];
      if !Passed(progress[0]) && !Failed(progress[0]) {
        assert PassCount(progress) + FailCount(progress) ==
          PassCount(progress[1..]) + FailCount(progress[1..]) <= |progress| - 1;
      }
    }
  }

  /** The processed data of a successful `loadProfile`; `users` is non-empty,
      since `userData.user[0].login` is read. */
  function ProfileOf(users: seq<User>, txs: seq<Transaction>, progress: seq<ProgressRecord>): ProfileView
    requires users != []
  {
    ProfileView(users[0].login, TotalXP(txs), AuditRatio(txs), XpOverTime(txs),
                PassCount(progress), FailCount(progress))
  }
}
