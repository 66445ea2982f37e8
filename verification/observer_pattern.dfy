/**
 * The publish/subscribe mechanism: an observable holds an ordered list of
 * observers, `register_observer` appends, `remove_observer` deletes the
 * first matching entry, `notify_observers` calls `update` on each entry in
 * list order. Python compares observers by identity; an entry's `id` plays
 * that role, and the same observer may be registered more than once.
 */
module ObserverPattern {
  import opened Wrappers

  datatype Entry<O> = Entry(id: nat, observer: O)

  /** `Observable.__init__`: no observers yet. */
  function NewObservable<O>(): (r: seq<Entry<O>>)
    ensures |r| == 0
    ensures forall id :: Remove(r, id).None?
  {
    []
  }

  /** `register_observer`: append to the end of the list. */
  function Register<O>(observers: seq<Entry<O>>, e: Entry<O>): (r: seq<Entry<O>>)
    ensures |r| == |observers| + 1
    ensures r[..|observers|] == observers && r[|observers|] == e
  {
    observers + [e]
  }

  /** Position of the first entry with identity `id`, if any. */
  function IndexOf<O>(observers: seq<Entry<O>>, id: nat): (r: Option<nat>)
    ensures r.None? <==> forall k :: 0 <= k < |observers| ==> observers[k].id != id
    ensures r.Some? ==> r.value < |observers| && observers[r.value].id == id
    ensures r.Some? ==> forall k :: 0 <= k < r.value ==> observers[k].id != id
  {
    if |observers| == 0 then None
    else if observers[0].id == id then Some(0)
    else match IndexOf(observers[1..], id)
      case None => None
      case Some(k) => Some(k + 1)
  }

  /**
   * `remove_observer`: `list.remove` deletes the first entry with that
   * identity and raises `ValueError` (here `None`) when there is none.
   */
  function Remove<O>(observers: seq<Entry<O>>, id: nat): (r: Option<seq<Entry<O>>>)
    ensures r.None? <==> forall k :: 0 <= k < |observers| ==> observers[k].id != id
    ensures r.Some? ==> |r.value| == |observers| - 1
    ensures r.Some? ==> exists k :: 0 <= k < |observers| && observers[k].id == id
                          && (forall j :: 0 <= j < k ==> observers[j].id != id)
                          && r.value == observers[..k] + observers[k + 1..]
  {
    match IndexOf(observers, id)
    case None => None
    case Some(k) => Some(observers[..k] + observers[k + 1..])
  }

  /** Removing an observer right after registering a new identity restores the list. */
  lemma RegisterThenRemove<O>(observers: seq<Entry<O>>, e: Entry<O>)
    requires forall k :: 0 <= k < |observers| ==> observers[k].id != e.id
    ensures Remove(Register(observers, e), e.id) == Some(observers)
  {
    var r := Register(observers, e);
    assert IndexOf(r, e.id) == Some(|observers|);
    assert r[..|observers|] + r[|observers| + 1..] == observers;
  }

  /** Removal keeps the relative order of the remaining entries. */
  lemma RemoveKeepsOrder<O>(observers: seq<Entry<O>>, id: nat, i: nat, j: nat)
    requires Remove(observers, id).Some?
    requires i < j < |Remove(observers, id).value|
    ensures exists i', j' :: 0 <= i' < j' < |observers|
              && Remove(observers, id).value[i] == observers[i']
              && Remove(observers, id).value[j] == observers[j']
  {
    var k := IndexOf(observers, id).value;
    var r := Remove(observers, id).value;
    assert r == observers[..k] + observers[k + 1..];
    var i' := if i < k then i else i + 1;
    var j' := if j < k then j else j + 1;
    assert r[i] == observers[i'] && r[j] == observers[j'];
  }

  /** The observers after a notification, and the exception that ended it, if any. */
  datatype Notified<O, E> = Notified(observers: seq<Entry<O>>, fault: Option<E>)

  /**
   * How many leading observers `update` succeeds on: the position of the
   * first `update` that raises, or the whole list when none does.
   */
  function Reached<O, E>(observers: seq<Entry<O>>, update: O -> Result<O, E>): (n: nat)
    ensures n <= |observers|
    ensures forall j :: 0 <= j < n ==> update(observers[j].observer).Success?
    ensures n < |observers| ==> update(observers[n].observer).Failure?
  {
    if |observers| == 0 || update(observers[0].observer).Failure? then 0
    else 1 + Reached(observers[1..], update)
  }

  /**
   * `notify_observers`: call `update` on each entry in list order. An
   * exception from one `update` propagates at once, so the entries before it
   * have been updated and it and the entries after it have not.
   */
  function Notify<O, E>(observers: seq<Entry<O>>, update: O -> Result<O, E>): (r: Notified<O, E>)
    ensures |r.observers| == |observers|
    ensures r.fault.None? <==> Reached(observers, update) == |observers|
    ensures r.fault.Some? ==> update(observers[Reached(observers, update)].observer) == Failure(r.fault.value)
    ensures forall k :: 0 <= k < Reached(observers, update) ==>
              r.observers[k] == Entry(observers[k].id, update(observers[k].observer).value)
    ensures forall k :: Reached(observers, update) <= k < |observers| ==> r.observers[k] == observers[k]
  {
    if |observers| == 0 then Notified([], None)
    else match update(observers[0].observer)
      case Failure(e) => Notified(observers, Some(e))
      case Success(o) =>
        var rest := Notify(observers[1..], update);
        Notified([Entry(observers[0].id, o)] + rest.observers, rest.fault)
  }
}
