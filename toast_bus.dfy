/**
 * The module-level toast queue of front-end/src/hooks/use-toast.js: one
 * queue that `toast` pushes onto, and the list of setters registered by
 * `useToast`, each of which `toast` calls with a copy of the queue. A setter
 * is identified by a number; what it was last called with is the state of
 * the component that registered it.
 */
module ToastBus {
  import opened JsValues

  type Toast = map<string, JsValue>

  /** `{ id: Date.now(), ...toastObj }`: the clock's id, unless the object brings its own. */
  function Stamped(obj: Toast, now: int): (t: Toast)
    ensures "id" in t
    ensures "id" !in obj ==> t["id"] == Num(now)
    ensures forall k :: k in obj ==> k in t && t[k] == obj[k]
    ensures t.Keys == obj.Keys + {"id"}
  {
    map["id" := Num(now)] + obj
  }

  /** No setter appears twice. */
  predicate NoDuplicates(s: seq<nat>)
  {
    forall i, j :: 0 <= i < j < |s| ==> s[i] != s[j]
  }

  class Bus {
    var toastQueue: seq<Toast>
    var listeners: seq<nat>
    /** For each setter that has been called, the copy of the queue it was last called with. */
    var delivered: map<nat, seq<Toast>>

    ghost predicate Valid()
      reads this
    {
      NoDuplicates(listeners)
    }

    constructor ()
      ensures Valid() && toastQueue == [] && listeners == [] && delivered == map[]
    {
      toastQueue := [];
      listeners := [];
      delivered := map[];
    }

    /**
     * `toast(obj)`: one entry more on the queue, then every registered setter
     * called with the whole queue; setters that are not registered keep what
     * they had.
     */
    method Toast(obj: Toast, now: int)
      requires Valid()
      modifies this
      ensures Valid() && listeners == old(listeners)
      ensures toastQueue == old(toastQueue) + [Stamped(obj, now)]
      ensures forall l :: l in listeners ==> l in delivered && delivered[l] == toastQueue
      ensures forall l :: l in old(delivered) && l !in listeners ==> l in delivered && delivered[l] == old(delivered)[l]
      ensures forall l :: l in delivered ==> l in old(delivered) || l in listeners
    {
      var queue := toastQueue + [Stamped(obj, now)];
      var ls, before := listeners, delivered;
      var d := before;
      var i := 0;
      while i < |ls|
        invariant 0 <= i <= |ls|
        invariant forall j :: 0 <= j < i ==> ls[j] in d && d[ls[j]] == queue
        invariant forall l :: l in before && l !in ls[..i] ==> l in d && d[l] == before[l]
        invariant forall l :: l in d ==> l in before || l in ls[..i]
      {
        d := d[ls[i] := queue];
        i := i + 1;
        assert ls[..i] == ls[..i - 1] + [ls[i - 1]];
      }
      assert ls[..i] == ls;
      toastQueue, delivered := queue, d;
    }

    /**
     * `useToast()` in a component whose setter is `setter`: its first state is
     * a copy of the queue, and the setter is registered unless it already is.
     * This models the component's first render only: `useState` takes its
     * initial value once, so on later renders the returned `toasts` are the
     * component's own state (kept current by the registered setter), not a
     * fresh copy of the queue.
     */
    method UseToast(setter: nat) returns (toasts: seq<Toast>)
      requires Valid()
      modifies this
      ensures Valid()
      ensures toasts == toastQueue && toastQueue == old(toastQueue) && delivered == old(delivered)
      ensures setter in old(listeners) ==> listeners == old(listeners)
      ensures setter !in old(listeners) ==> listeners == old(listeners) + [setter]
    {
      toasts := toastQueue;
      if setter !in listeners {
        listeners := listeners + [setter];
      }
    }
  }
}
