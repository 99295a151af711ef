/**
 * A named event subject holding an ordered list of observers. Observers are
 * callbacks compared by identity; the subject never calls them, so they are
 * opaque values of an equality type here.
 */
module Events {
  import opened Seqs

  class EventModel<T(==)> {
    var name: string
    var observers: seq<T>

    /** No observer is registered twice; adding and removing keep this. */
    ghost predicate Valid()
      reads this
    {
      NoDuplicates(observers)
    }

    /** A subject with the given name and no observers. */
    constructor (name: string)
      ensures this.name == name
      ensures observers == []
      ensures Valid()
    {
      this.name := "";
      observers := [];
      new;
      Init(name);
    }

    /** `init`: sets the name and nothing else. */
    method Init(name: string)
      modifies this
      ensures this.name == name
      ensures observers == old(observers)
    {
      this.name := name;
    }

    /** `hasObserver`: the observer is in the list. */
    function HasObserver(observer: T): (r: bool)
      reads this
      ensures r <==> observer in observers
    {
      IndexOf(observers, observer) != -1
    }

    /**
     * `addObserver`: appends an absent observer at the end of the list; an
     * observer already present leaves the list as it is.
     */
    method AddObserver(observer: T)
      modifies this
      ensures name == old(name)
      ensures old(observer in observers) ==> observers == old(observers)
      ensures old(observer !in observers) ==> observers == old(observers) + [observer]
      ensures HasObserver(observer)
      ensures old(Valid()) ==> Valid()
    {
      if HasObserver(observer) {
        return;
      }
      if NoDuplicates(observers) {
        AppendKeepsNoDuplicates(observers, observer);
      }
      observers := observers + [observer];
    }

    /**
     * `removeObserver`: an absent observer leaves the list as it is; otherwise
     * the element at the observer's first index is deleted and the others keep
     * their order. Without duplicates, that removes the observer entirely.
     */
    method RemoveObserver(observer: T)
      modifies this
      ensures name == old(name)
      ensures old(observer !in observers) ==> observers == old(observers)
      ensures old(observer in observers) ==>
        observers == RemoveAt(old(observers), IndexOf(old(observers), observer))
      ensures old(Valid()) ==> Valid() && !HasObserver(observer)
      ensures old(Valid()) ==> observers == Without(old(observers), observer)
    {
      if !HasObserver(observer) {
        WithoutAbsent(observers, observer);
        return;
      }
      var index := IndexOf(observers, observer);
      if NoDuplicates(observers) {
        RemoveFirstKeepsNoDuplicates(observers, observer);
        RemoveFirstIsWithout(observers, observer);
      }
      observers := RemoveAt(observers, index);
    }
  }

  /** Adding an observer twice leaves the same list as adding it once. */
  method AddObserverIdempotent<T(==)>(subject: EventModel<T>, observer: T)
    modifies subject
    ensures subject.observers == old(subject.observers) + (if observer in old(subject.observers) then [] else [observer])
    ensures subject.name == old(subject.name)
  {
    subject.AddObserver(observer);
    var once := subject.observers;
    subject.AddObserver(observer);
    assert subject.observers == once;
  }

  /** Removing an observer just added to a list that lacked it restores the list. */
  method RemoveUndoesAdd<T(==)>(subject: EventModel<T>, observer: T)
    requires observer !in subject.observers
    modifies subject
    ensures subject.observers == old(subject.observers)
    ensures subject.name == old(subject.name)
  {
    ghost var before := subject.observers;
    subject.AddObserver(observer);
    RemoveUndoesAppend(before, observer);
    subject.RemoveObserver(observer);
  }
}
