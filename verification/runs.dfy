/** The document loop of the command-line runs: each document's extraction in
    turn, its rows appended to the output; the first document whose extraction
    raises ends the run. */
module Runs {
  import opened Wrappers

  /** The rows of a run in which every document succeeds: each document's rows in
      turn, in document order. */
  ghost function Joined<T, R>(docs: seq<T>, f: T -> Result<seq<R>>): seq<R>
    requires forall i | 0 <= i < |docs| :: f(docs[i]).Success?
  {
    if |docs| == 0 then [] else Joined(docs[..|docs| - 1], f) + f(docs[|docs| - 1]).value
  }

  /** Runs the extraction `f` over the documents in order, collecting their rows. */
  method RunAll<T, R>(docs: seq<T>, f: T -> Result<seq<R>>) returns (r: Result<seq<R>>)
    ensures r.Success? <==> forall i | 0 <= i < |docs| :: f(docs[i]).Success?
    ensures r.Success? ==> r.value == Joined(docs, f)
    ensures r.Failure? ==>
              exists i | 0 <= i < |docs| :: f(docs[i]) == Failure(r.error) && forall j | 0 <= j < i :: f(docs[j]).Success?
  {
    var rows: seq<R> := [];
    var i := 0;
    while i < |docs|
      invariant 0 <= i <= |docs|
      invariant forall j | 0 <= j < i :: f(docs[j]).Success?
      invariant rows == Joined(docs[..i], f)
    {
      var lines := f(docs[i]);
      if lines.Failure? {
        return Failure(lines.error);
      }
      assert docs[..i + 1][..i] == docs[..i];
      rows := rows + lines.value;
      i := i + 1;
    }
    assert docs[..i] == docs;
    return Success(rows);
  }

  /** The total number of rows the documents give, document by document. */
  ghost function RowCount<T, R>(docs: seq<T>, f: T -> Result<seq<R>>): nat
    requires forall i | 0 <= i < |docs| :: f(docs[i]).Success?
  {
    if |docs| == 0 then 0 else RowCount(docs[..|docs| - 1], f) + |f(docs[|docs| - 1]).value|
  }

  /** A run's output is as long as the documents' row counts added up. */
  lemma {:induction false} JoinedLength<T, R>(docs: seq<T>, f: T -> Result<seq<R>>)
    requires forall i | 0 <= i < |docs| :: f(docs[i]).Success?
    ensures |Joined(docs, f)| == RowCount(docs, f)
  {
    if |docs| > 0 {
      JoinedLength(docs[..|docs| - 1], f);
    }
  }

  /** When every document gives exactly one row, the run has one row per document,
      in document order. */
  lemma {:induction false} JoinedOnePerDocument<T, R>(docs: seq<T>, f: T -> Result<seq<R>>)
    requires forall i | 0 <= i < |docs| :: f(docs[i]).Success? && |f(docs[i]).value| == 1
    ensures |Joined(docs, f)| == |docs|
    ensures forall i | 0 <= i < |docs| :: Joined(docs, f)[i] == f(docs[i]).value[0]
  {
    if |docs| > 0 {
      var front := docs[..|docs| - 1];
      JoinedOnePerDocument(front, f);
      assert forall i | 0 <= i < |front| :: front[i] == docs[i];
    }
  }
}
