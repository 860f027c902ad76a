/**
 What one operation leaves of the database of the writer, and what a failed one leaves of the others.
*/
module WriterLaws {
  import opened Prelude
  import opened Writer

  /** Every operation is a transaction of its own: it works on what the ones before it left; if it goes
      through, its database stands and its value is the answer, and otherwise the database is as before. */
  lemma {:induction false} EachIsATransaction(m: Meaning, db: Db, ops: seq<Op>, i: nat)
    requires i < |ops|
    ensures var e, a := m(After(m, db, ops, i), ops[i]), Answers(m, db, ops)[i];
            && After(m, db, ops, 0) == db
            && (e.Done? ==> After(m, db, ops, i + 1) == e.db && a == Value(e.value))
            && (e.Raised? ==> After(m, db, ops, i + 1) == After(m, db, ops, i) && a == Error(e.error))
  {
  }

  lemma {:induction false} AfterWithout(m: Meaning, db: Db, ops: seq<Op>, i: nat, rest: seq<Op>, k: nat)
    requires i < |ops| && m(After(m, db, ops, i), ops[i]).Raised? && rest == ops[..i] + ops[i + 1..] && k <= |rest|
    ensures After(m, db, rest, k) == After(m, db, ops, if k <= i then k else k + 1)
  {
    if k > 0 {
      AfterWithout(m, db, ops, i, rest, k - 1);
      assert rest[k - 1] == if k <= i then ops[k - 1] else ops[k];
    }
    if k == i { EachIsATransaction(m, db, ops, i); }
  }

  lemma {:induction false} AnswerWithout(m: Meaning, db: Db, ops: seq<Op>, i: nat, rest: seq<Op>, j: nat)
    requires i < |ops| && m(After(m, db, ops, i), ops[i]).Raised? && rest == ops[..i] + ops[i + 1..] && j < |rest|
    ensures Answers(m, db, rest)[j] == Answers(m, db, ops)[if j < i then j else j + 1]
  {
    AfterWithout(m, db, ops, i, rest, j);
    if j == i { EachIsATransaction(m, db, ops, i); }
    assert rest[j] == if j < i then ops[j] else ops[j + 1];
  }

  /** A failed operation might as well not have been there: without it the database is the same, and so is
      the answer of every other operation. */
  lemma {:induction false} FailedLeavesNoTrace(
    m: Meaning, db: Db, ops: seq<Op>, i: nat, rest: seq<Op>, a: seq<Future>, b: seq<Future>)
    requires i < |ops| && m(After(m, db, ops, i), ops[i]).Raised? && rest == ops[..i] + ops[i + 1..]
    requires a == Answers(m, db, ops) && b == Answers(m, db, rest)
    ensures After(m, db, rest, |rest|) == After(m, db, ops, |ops|)
    ensures b == a[..i] + a[i + 1..]
  {
    AfterWithout(m, db, ops, i, rest, |rest|);
    if i == |rest| { EachIsATransaction(m, db, ops, i); }
    forall j: nat | j < |b| ensures b[j] == a[if j < i then j else j + 1] { AnswerWithout(m, db, ops, i, rest, j); }
    SpliceOut(a, b, i);
  }

  lemma {:induction false} SpliceOut<T>(a: seq<T>, b: seq<T>, i: nat)
    requires i < |a| && |b| == |a| - 1 && forall j: nat :: j < |b| ==> b[j] == a[if j < i then j else j + 1]
    ensures b == a[..i] + a[i + 1..]
  {
  }
}
