/**
 * The per-component toast list of front-end/src/components/ToastContainer.jsx:
 * `addToast` appends a copy of the toast under a new random id, and
 * `removeToast` filters out the toasts with a given id. The random id is a
 * parameter; the lemmas that need it new say so.
 */
module ToastContainer {
  import opened Seqs
  import opened JsValues

  /** A toast: a plain object of props. */
  type Toast = map<string, JsValue>

  /** The toast's `id` prop, `undefined` when it has none. */
  function IdOf(t: Toast): JsValue
  {
    Field(t, "id")
  }

  /** `{ ...toast, id }`: the props with the generated id written over any id the toast had. */
  function WithId(t: Toast, id: string): (r: Toast)
    ensures IdOf(r) == Str(id)
    ensures forall k :: k in t && k != "id" ==> k in r && r[k] == t[k]
    ensures r.Keys == t.Keys + {"id"}
  {
    t["id" := Str(id)]
  }

  /** `addToast(toast)` with generated id `id`: one toast more, at the end, and the others unchanged. */
  function AddToast(toasts: seq<Toast>, t: Toast, id: string): (r: seq<Toast>)
    ensures |r| == |toasts| + 1
    ensures r[..|toasts|] == toasts
    ensures r[|toasts|] == WithId(t, id)
  {
    toasts + [WithId(t, id)]
  }

  /** `removeToast(id)`: the toasts whose id is not `id`, in their order. */
  function RemoveToast(toasts: seq<Toast>, id: JsValue): (r: seq<Toast>)
    ensures forall i :: 0 <= i < |r| ==> IdOf(r[i]) != id && r[i] in toasts
    ensures forall i :: 0 <= i < |toasts| && IdOf(toasts[i]) != id ==> toasts[i] in r
    ensures IsSubseq(r, toasts)
  {
    FilterIsSubseq(toasts, (t: Toast) => IdOf(t) != id);
    Filter(toasts, (t: Toast) => IdOf(t) != id)
  }

  /** Removing an id no toast carries changes nothing. */
  lemma RemoveAbsent(toasts: seq<Toast>, id: JsValue)
    requires forall i :: 0 <= i < |toasts| ==> IdOf(toasts[i]) != id
    ensures RemoveToast(toasts, id) == toasts
  {
    FilterAll(toasts, (t: Toast) => IdOf(t) != id);
  }

  /** Adding a toast under a new id and then removing that id restores the list. */
  lemma AddThenRemove(toasts: seq<Toast>, t: Toast, id: string)
    requires forall i :: 0 <= i < |toasts| ==> IdOf(toasts[i]) != Str(id)
    ensures RemoveToast(AddToast(toasts, t, id), Str(id)) == toasts
  {
    var p := (x: Toast) => IdOf(x) != Str(id);
    FilterConcat(toasts, [WithId(t, id)], p);
    FilterAll(toasts, p);
    assert Filter([WithId(t, id)], p) == [];
  }
}
