/** Circular doubly linked lists of chunks (kmalloc_dllist.c). */
module DlList {
  import opened FreeLists
  import opened HeapState

  /** kmalloc_dllist_add: the chunk becomes the new head. */
  method Add(s: KmState, chunk: int, head: int) returns (newHead: int)
    requires Stored(s.mem, s.own, s.links, s.heapStart, s.heapStart + s.heapSize) && chunk in s.own
    requires head != 0 ==> head in s.own && Get(s.links, head, Prev) in s.own
    modifies s`mem, s`links
    ensures Stored(s.mem, s.own, s.links, s.heapStart, s.heapStart + s.heapSize) && KeptOutside(old(s.mem), s.mem, s.own)
    ensures newHead == chunk
    ensures s.links == if head != 0 then LinkBetween(old(s.links), chunk, Get(old(s.links), head, Prev), head)
                                    else LinkAlone(old(s.links), chunk)
  {
    hide Stored;
    if head != 0 {
      var next := head;
      var prev := s.GetLink(next, Prev);
      s.SetLink(chunk, Next, next);
      s.SetLink(chunk, Prev, prev);
      s.SetLink(prev, Next, chunk);
      s.SetLink(next, Prev, chunk);
    } else {
      s.SetLink(chunk, Next, chunk);
      s.SetLink(chunk, Prev, chunk);
    }
    newHead := chunk;
  }

  /** kmalloc_dllist_add_end: the chunk becomes the last one of a nonempty list. */
  method AddEnd(s: KmState, chunk: int, head: int)
    requires Stored(s.mem, s.own, s.links, s.heapStart, s.heapStart + s.heapSize) && chunk in s.own
    requires head != 0 ==> head in s.own && Get(s.links, head, Prev) in s.own
    modifies s`mem, s`links
    ensures Stored(s.mem, s.own, s.links, s.heapStart, s.heapStart + s.heapSize) && KeptOutside(old(s.mem), s.mem, s.own)
    ensures s.links == if head != 0 then LinkBetween(old(s.links), chunk, Get(old(s.links), head, Prev), head)
                                    else old(s.links)
  {
    hide Stored;
    if head == 0 {
      return;
    }
    var prev := s.GetLink(head, Prev);
    s.SetLink(chunk, Prev, prev);
    s.SetLink(chunk, Next, head);
    assert s.links == Put(Put(old(s.links), chunk, Next, head), chunk, Prev, prev);
    s.SetLink(prev, Next, chunk);
    s.SetLink(head, Prev, chunk);
  }

  /** kmalloc_dllist_remove_intern: any chunk leaves the list. */
  method RemoveIntern(s: KmState, chunk: int, head: int) returns (newHead: int)
    requires Stored(s.mem, s.own, s.links, s.heapStart, s.heapStart + s.heapSize)
    requires chunk != 0 ==> chunk in s.own && Get(s.links, chunk, Next) in s.own && Get(s.links, chunk, Prev) in s.own
    modifies s`mem, s`links
    ensures Stored(s.mem, s.own, s.links, s.heapStart, s.heapStart + s.heapSize) && KeptOutside(old(s.mem), s.mem, s.own)
    ensures var next, prev := Get(old(s.links), chunk, Next), Get(old(s.links), chunk, Prev);
            if chunk == 0 then newHead == head && s.links == old(s.links)
            else if next == chunk then newHead == 0 && s.links == old(s.links)
            else newHead == (if head == chunk then next else head) && s.links == Bypass(old(s.links), prev, next)
  {
    hide Stored;
    newHead := head;
    if chunk == 0 {
      return;
    }
    var next := s.GetLink(chunk, Next);
    var prev := s.GetLink(chunk, Prev);
    if next != chunk {
      s.SetLink(prev, Next, next);
      s.SetLink(next, Prev, prev);
      if head == chunk {
        newHead := next;
      }
    } else {
      newHead := 0;
    }
  }

  /** kmalloc_dllist_remove: the head leaves the list. */
  method Remove(s: KmState, head: int) returns (chunk: int, newHead: int)
    requires Stored(s.mem, s.own, s.links, s.heapStart, s.heapStart + s.heapSize)
    requires head != 0 ==> head in s.own && Get(s.links, head, Next) in s.own && Get(s.links, head, Prev) in s.own
    modifies s`mem, s`links
    ensures Stored(s.mem, s.own, s.links, s.heapStart, s.heapStart + s.heapSize) && KeptOutside(old(s.mem), s.mem, s.own)
    ensures var next, prev := Get(old(s.links), head, Next), Get(old(s.links), head, Prev);
            chunk == head &&
            if head == 0 || next == head then newHead == 0 && s.links == old(s.links)
            else newHead == next && s.links == Bypass(old(s.links), prev, next)
  {
    chunk := head;
    hide Stored;
    newHead := head;
    if chunk == 0 {
      return;
    }
    var next := s.GetLink(chunk, Next);
    var prev := s.GetLink(chunk, Prev);
    if next != chunk {
      s.SetLink(prev, Next, next);
      s.SetLink(next, Prev, prev);
      newHead := next;
    } else {
      newHead := 0;
    }
  }
}
