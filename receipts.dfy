/** The receipt list of app/receipts/page.js: loading it from a snapshot of
    the "receipts" collection and deleting entries from it. */
module Receipts {
  import opened Wrappers
  import opened Store

  const LoadFailed := "Failed to load receipts"
  const DeleteFailed := "Failed to delete receipt"

  /** receipts.filter((receipt) => receipt.id !== id) */
  function WithoutId(xs: seq<ReceiptDoc>, id: string): (r: seq<ReceiptDoc>)
    ensures |r| <= |xs|
    decreases |xs|
  {
    if |xs| == 0 then []
    else if xs[|xs| - 1].id == id then WithoutId(xs[..|xs| - 1], id)
    else WithoutId(xs[..|xs| - 1], id) + [xs[|xs| - 1]]
  }

  /** a is b with some entries dropped and the rest in their order. */
  predicate IsSubsequence(a: seq<ReceiptDoc>, b: seq<ReceiptDoc>)
    decreases |b|
  {
    if |a| == 0 then true
    else if |b| == 0 then false
    else if a[|a| - 1] == b[|b| - 1] then IsSubsequence(a[..|a| - 1], b[..|b| - 1])
    else IsSubsequence(a, b[..|b| - 1])
  }

  /** The entries with the given id. */
  function WithId(xs: seq<ReceiptDoc>, id: string): seq<ReceiptDoc>
    decreases |xs|
  {
    if |xs| == 0 then []
    else if xs[|xs| - 1].id == id then WithId(xs[..|xs| - 1], id) + [xs[|xs| - 1]]
    else WithId(xs[..|xs| - 1], id)
  }

  /** No entry with the deleted id is left, and every entry left was in the list. */
  lemma {:induction false} WithoutIdRemoves(xs: seq<ReceiptDoc>, id: string)
    ensures forall k :: 0 <= k < |WithoutId(xs, id)| ==> WithoutId(xs, id)[k].id != id
    ensures forall e :: e in WithoutId(xs, id) <==> e in xs && e.id != id
    decreases |xs|
  {
    if |xs| > 0 {
      WithoutIdRemoves(xs[..|xs| - 1], id);
      assert xs == xs[..|xs| - 1] + [xs[|xs| - 1]];
    }
  }

  /** The entries that remain keep their relative order. */
  lemma {:induction false} WithoutIdIsSubsequence(xs: seq<ReceiptDoc>, id: string)
    ensures IsSubsequence(WithoutId(xs, id), xs)
    decreases |xs|
  {
    if |xs| > 0 {
      var init := xs[..|xs| - 1];
      WithoutIdIsSubsequence(init, id);
      if xs[|xs| - 1].id == id {
        SubsequenceOfLonger(WithoutId(init, id), init, xs[|xs| - 1]);
      } else {
        var r := WithoutId(init, id) + [xs[|xs| - 1]];
        assert r[..|r| - 1] == WithoutId(init, id);
      }
    }
  }

  lemma {:induction false} SubsequenceOfLonger(a: seq<ReceiptDoc>, b: seq<ReceiptDoc>, x: ReceiptDoc)
    requires IsSubsequence(a, b)
    ensures IsSubsequence(a, b + [x])
    decreases |b|, 1
  {
    var b' := b + [x];
    assert b'[..|b'| - 1] == b;
    if |a| > 0 && a[|a| - 1] == x {
      SubsequenceDropLast(a, b);
    }
  }

  lemma {:induction false} SubsequenceDropLast(a: seq<ReceiptDoc>, b: seq<ReceiptDoc>)
    requires |a| > 0 && IsSubsequence(a, b)
    ensures IsSubsequence(a[..|a| - 1], b)
    decreases |b|, 0
  {
    if a[|a| - 1] == b[|b| - 1] {
      var a' := a[..|a| - 1];
      if |a'| > 0 && a'[|a'| - 1] == b[|b| - 1] {
        SubsequenceDropLast(a', b[..|b| - 1]);
        assert a'[..|a'| - 1] == a[..|a| - 2];
        SubsequenceOfLonger(a'[..|a'| - 1], b[..|b| - 1], b[|b| - 1]);
        assert b[..|b| - 1] + [b[|b| - 1]] == b;
      } else {
        SubsequenceOfLonger(a', b[..|b| - 1], b[|b| - 1]);
        assert b[..|b| - 1] + [b[|b| - 1]] == b;
      }
    } else {
      SubsequenceDropLast(a, b[..|b| - 1]);
      SubsequenceOfLonger(a[..|a| - 1], b[..|b| - 1], b[|b| - 1]);
      assert b[..|b| - 1] + [b[|b| - 1]] == b;
    }
  }

  /** Every entry is kept or deleted: the two parts together hold each entry as
      often as the list does. */
  lemma {:induction false} WithoutIdPartition(xs: seq<ReceiptDoc>, id: string)
    ensures multiset(WithoutId(xs, id)) + multiset(WithId(xs, id)) == multiset(xs)
    ensures |WithoutId(xs, id)| + |WithId(xs, id)| == |xs|
    decreases |xs|
  {
    if |xs| > 0 {
      WithoutIdPartition(xs[..|xs| - 1], id);
      assert xs == xs[..|xs| - 1] + [xs[|xs| - 1]];
    }
  }

  /** Deleting an id that is not in the list changes nothing; deleting twice
      is deleting once. */
  lemma {:induction false} WithoutIdAbsent(xs: seq<ReceiptDoc>, id: string)
    requires forall k :: 0 <= k < |xs| ==> xs[k].id != id
    ensures WithoutId(xs, id) == xs
    decreases |xs|
  {
    if |xs| > 0 {
      WithoutIdAbsent(xs[..|xs| - 1], id);
      assert xs == xs[..|xs| - 1] + [xs[|xs| - 1]];
    }
  }

  lemma WithoutIdIdempotent(xs: seq<ReceiptDoc>, id: string)
    ensures WithoutId(WithoutId(xs, id), id) == WithoutId(xs, id)
  {
    WithoutIdRemoves(xs, id);
    WithoutIdAbsent(WithoutId(xs, id), id);
  }

  /** The filter works entry by entry: on a concatenation it filters each part. */
  lemma {:induction false} WithoutIdAppend(xs: seq<ReceiptDoc>, ys: seq<ReceiptDoc>, id: string)
    ensures WithoutId(xs + ys, id) == WithoutId(xs, id) + WithoutId(ys, id)
    decreases |ys|
  {
    if |ys| == 0 {
      assert xs + ys == xs;
    } else {
      var ys' := ys[..|ys| - 1];
      WithoutIdAppend(xs, ys', id);
      assert (xs + ys)[..|xs + ys| - 1] == xs + ys';
    }
  }

  class ReceiptsPage {
    var receipts: seq<ReceiptDoc>
    var loading: bool
    var error: Option<string>
    var isDeleting: bool

    constructor()
      ensures receipts == [] && loading && error.None? && !isDeleting
    {
      receipts := [];
      loading := true;
      error := None;
      isDeleting := false;
    }

    /** fetchReceipts: snapshot is None when getDocs fails. The list gets one
        entry per document, in snapshot order; loading ends either way. */
    method FetchReceipts(snapshot: Option<seq<ReceiptDoc>>)
      modifies this
      ensures snapshot.Some? ==> receipts == snapshot.value && error.None?
      ensures snapshot.None? ==> receipts == old(receipts) && error == Some(LoadFailed)
      ensures !loading && isDeleting == old(isDeleting)
    {
      loading := true;
      error := None;
      match snapshot {
        case None =>
          error := Some(LoadFailed);
        case Some(docs) =>
          var list: seq<ReceiptDoc> := [];
          var i := 0;
          while i < |docs|
            invariant 0 <= i <= |docs|
            invariant list == docs[..i]
          {
            list := list + [ReceiptDoc(docs[i].id, docs[i].data)];
            i := i + 1;
          }
          receipts := list;
      }
      loading := false;
    }

    /** handleDelete: nothing happens unless the user confirms; then the
        delete is issued, and on success (failed is false) the entries with
        that id are dropped from the list. */
    method HandleDelete(id: string, confirmed: bool, failed: bool) returns (issued: bool)
      modifies this
      ensures issued == confirmed
      ensures !confirmed ==> receipts == old(receipts) && error == old(error) && isDeleting == old(isDeleting)
      ensures confirmed && failed ==> receipts == old(receipts) && error == Some(DeleteFailed)
      ensures confirmed && !failed ==> receipts == WithoutId(old(receipts), id) && error == old(error)
      ensures confirmed ==> !isDeleting
      ensures loading == old(loading)
    {
      if !confirmed {
        return false;
      }
      issued := true;
      isDeleting := true;
      if failed {
        error := Some(DeleteFailed);
      } else {
        receipts := WithoutId(receipts, id);
      }
      isDeleting := false;
    }
  }
}
