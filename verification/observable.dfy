/** The listener registry both the use case and the view keep.

    Registration appends the listener to the registry (a listener registered twice is
    listed twice); unregistration removes every entry of that listener and keeps the
    others in their registration order. A broadcast iterates over the registry as it
    stands when the broadcast starts. Listeners are compared by an identifier.
 */
module Observable {

  /** Identity of a registered listener. */
  type ListenerId = nat

  /** Adds `l` after every listener already registered. */
  function Register(listeners: seq<ListenerId>, l: ListenerId): (r: seq<ListenerId>)
    ensures |r| == |listeners| + 1
    ensures r[..|listeners|] == listeners && r[|listeners|] == l
  {
    listeners + [l]
  }

  /** Removes `l` from the registry; a listener that is not registered leaves it unchanged. */
  function Unregister(listeners: seq<ListenerId>, l: ListenerId): (r: seq<ListenerId>)
    ensures l !in r
    ensures forall x :: x != l ==> (x in r <==> x in listeners)
    ensures |r| == |listeners| - multiset(listeners)[l]
    ensures l !in listeners ==> r == listeners
  {
    if |listeners| == 0 then []
    else
      assert listeners == [listeners[0]] + listeners[1..];
      if listeners[0] == l then Unregister(listeners[1..], l)
      else [listeners[0]] + Unregister(listeners[1..], l)
  }

  /** Unregistration splits over concatenation, so it keeps the relative order of the others. */
  lemma {:induction false} UnregisterAppend(a: seq<ListenerId>, b: seq<ListenerId>, l: ListenerId)
    ensures Unregister(a + b, l) == Unregister(a, l) + Unregister(b, l)
    decreases |a|
  {
    if |a| == 0 {
      assert a + b == b;
    } else {
      assert (a + b)[0] == a[0];
      assert (a + b)[1..] == a[1..] + b;
      UnregisterAppend(a[1..], b, l);
    }
  }

  /** Registering a listener that was not registered and then unregistering it gives back
      the registry it started from. */
  lemma UnregisterUndoesRegister(listeners: seq<ListenerId>, l: ListenerId)
    requires l !in listeners
    ensures Unregister(Register(listeners, l), l) == listeners
  {
    UnregisterAppend(listeners, [l], l);
    assert Unregister([l], l) == Unregister([l][1..], l);
  }

  /** A listener that was not registered is listed exactly once after registering it. */
  lemma RegisterFreshOnce(listeners: seq<ListenerId>, l: ListenerId)
    requires l !in listeners
    ensures multiset(Register(listeners, l))[l] == 1
  {
  }
}
