/** In-memory fan-out of persisted events: bounded queues that drop their oldest entry when full. */
module Broker {
  import opened Values

  /** One persisted event; `terminal` is a status of done or failed. */
  datatype Event = Event(id: int, doc: DocId, terminal: bool)

  /** `put_nowait`, dropping the oldest entry of a full queue. A size of zero or less means unbounded. */
  function Push(items: seq<Event>, e: Event, maxsize: int): seq<Event> {
    if maxsize <= 0 || |items| < maxsize || items == [] then items + [e] else items[1..] + [e]
  }

  class EventQueue {
    const maxsize: int
    var items: seq<Event>

    constructor (maxsize: int)
      ensures this.maxsize == maxsize && items == []
    {
      this.maxsize, items := maxsize, [];
    }

    predicate Full()
      reads this
    {
      maxsize > 0 && |items| >= maxsize
    }

    method Put(e: Event)
      requires !Full()
      modifies this
      ensures items == old(items) + [e]
    {
      items := items + [e];
    }

    method Get() returns (e: Event)
      requires items != []
      modifies this
      ensures old(items) == [e] + items
    {
      e := items[0];
      items := items[1..];
    }
  }

  class StatusBroker {
    const maxsize: int
    var docSubs: map<DocId, set<EventQueue>>
    var globalSubs: set<EventQueue>

    /** No document keeps an empty subscriber set, and no queue is over its size. */
    ghost predicate Valid()
      reads this, Queues()
    {
      && (forall d :: d in docSubs ==> docSubs[d] != {})
      && forall q :: q in Queues() ==> q.maxsize == maxsize && (maxsize > 0 ==> |q.items| <= maxsize)
    }

    ghost function Queues(): set<EventQueue>
      reads this
    {
      globalSubs + set d, q | d in docSubs && q in docSubs[d] :: q
    }

    function Subscribers(d: DocId): set<EventQueue>
      reads this
    {
      if d in docSubs then docSubs[d] else {}
    }

    constructor (maxsize: int)
      ensures Valid() && this.maxsize == maxsize && docSubs == map[] && globalSubs == {}
    {
      this.maxsize, docSubs, globalSubs := maxsize, map[], {};
    }

    method Subscribe(d: Option<DocId>) returns (q: EventQueue)
      requires Valid()
      modifies this
      ensures Valid() && fresh(q) && q.items == [] && q.maxsize == maxsize
      ensures d.None? ==> globalSubs == old(globalSubs) + {q} && docSubs == old(docSubs)
      ensures d.Some? ==>
                && globalSubs == old(globalSubs)
                && docSubs == old(docSubs)[d.value := old(Subscribers(d.value)) + {q}]
    {
      ghost var before := Queues();
      q := new EventQueue(maxsize);
      if d.None? {
        globalSubs := globalSubs + {q};
      } else {
        docSubs := docSubs[d.value := Subscribers(d.value) + {q}];
      }
      assert Queues() <= before + {q};
    }

    method Unsubscribe(d: Option<DocId>, q: EventQueue)
      requires Valid()
      modifies this
      ensures Valid()
      ensures d.None? ==> globalSubs == old(globalSubs) - {q} && docSubs == old(docSubs)
      ensures d.Some? ==> globalSubs == old(globalSubs) && Subscribers(d.value) == old(Subscribers(d.value)) - {q}
      ensures d.Some? ==> forall e :: e != d.value ==> Subscribers(e) == old(Subscribers(e))
    {
      ghost var before := Queues();
      if d.None? {
        globalSubs := globalSubs - {q};
      } else if d.value in docSubs {
        docSubs := docSubs[d.value := docSubs[d.value] - {q}];
        if docSubs[d.value] == {} {
          docSubs := docSubs - {d.value};
        }
      }
      assert Queues() <= before;
    }

    /** Never blocks: every subscriber of the document and every global one gets the event. */
    method Publish(e: Event)
      requires Valid()
      modifies Subscribers(e.doc) + globalSubs
      ensures Valid()
      ensures forall q :: q in Subscribers(e.doc) + globalSubs ==> q.items == Push(old(q.items), e, maxsize)
      ensures forall q :: q in Subscribers(e.doc) + globalSubs ==>
                if maxsize <= 0 || |old(q.items)| < maxsize then q.items == old(q.items) + [e]
                else old(q.items) != [] && q.items == old(q.items)[1..] + [e]
    {
      var targets := Subscribers(e.doc) + globalSubs;
      var left := targets;
      assert targets <= Queues();
      while left != {}
        invariant left <= targets
        invariant forall q :: q in left ==> q.items == old(q.items)
        invariant forall q :: q in targets - left ==> q.items == Push(old(q.items), e, maxsize)
        decreases left
      {
        var q :| q in left;
        left := left - {q};
        if q.Full() {
          var dropped := q.Get();
        }
        q.Put(e);
      }
    }
  }
}
