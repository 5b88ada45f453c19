/**
 * The fold both backend error paths use to turn a list of field errors into a
 * `{ path: message }` object (`errors.reduce((acc, e) => { acc[e.path] = e.msg; return acc }, {})`).
 */
module ErrorFold {

  /** One reported problem with one request or document field. */
  datatype FieldError = FieldError(path: string, msg: string)

  /** The accumulated `{ path: message }` map; a later error for a path replaces an earlier one. */
  function FoldErrors(errs: seq<FieldError>): (m: map<string, string>)
    ensures forall i :: 0 <= i < |errs| ==> errs[i].path in m
    ensures forall k :: k in m ==> exists i :: 0 <= i < |errs| && errs[i].path == k
  {
    if errs == [] then map[]
    else
      var last := errs[|errs| - 1];
      var m := FoldErrors(errs[..|errs| - 1])[last.path := last.msg];
      assert forall k :: k in m ==> exists i :: 0 <= i < |errs| && errs[i].path == k by {
        forall k | k in m
          ensures exists i :: 0 <= i < |errs| && errs[i].path == k
        {
          if k != last.path {
            var i :| 0 <= i < |errs| - 1 && errs[..|errs| - 1][i].path == k;
            assert errs[i].path == k;
          }
        }
      }
      m
  }

  /** The message kept for a path is the one of the last error reported for that path. */
  lemma {:induction false} FoldKeepsLast(errs: seq<FieldError>, i: nat)
    requires i < |errs|
    requires forall j :: i < j < |errs| ==> errs[j].path != errs[i].path
    ensures FoldErrors(errs)[errs[i].path] == errs[i].msg
  {
    if i < |errs| - 1 {
      var init := errs[..|errs| - 1];
      assert init[i] == errs[i];
      FoldKeepsLast(init, i);
    }
  }

  /** No errors fold to the empty object. */
  lemma FoldEmpty(errs: seq<FieldError>)
    ensures FoldErrors(errs) == map[] <==> errs == []
  {
    if errs != [] {
      assert errs[0].path in FoldErrors(errs);
    }
  }

  /**
   * The `reduce` itself: walk the errors in order, assigning each message into
   * the accumulator under its path.
   */
  method FormatErrors(errs: seq<FieldError>) returns (acc: map<string, string>)
    ensures acc == FoldErrors(errs)
  {
    acc := map[];
    var i := 0;
    while i < |errs|
      invariant 0 <= i <= |errs|
      invariant acc == FoldErrors(errs[..i])
    {
      assert errs[..i + 1][..i] == errs[..i];
      acc := acc[errs[i].path := errs[i].msg];
      i := i + 1;
    }
    assert errs[..|errs|] == errs;
  }
}
