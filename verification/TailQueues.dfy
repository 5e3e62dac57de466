/** The tail queue of lib/iperf3/queue.h, on the heap.

    A tail queue's back pointers hold the address of the previous cell's "next"
    pointer, and a head and an element start with the same two pointers.  One class
    serves for both: `prev` is the cell whose `next` the C pointer addresses, and for
    a head `prev` is tqh_last.  Reading through a back pointer, `*(e)->prev`, is
    `e.prev.next`.
 */
module TailQueues {

  class Link {
    var next: Link?
    var prev: Link?

    constructor ()
      ensures next == null && prev == null
    {
      next, prev := null, null;
    }
  }

  function Reversed<T>(s: seq<T>): (r: seq<T>)
    ensures |r| == |s|
    ensures forall i :: 0 <= i < |s| ==> r[i] == s[|s| - 1 - i]
  {
    if s == [] then [] else Reversed(s[1..]) + [s[0]]
  }

  // A new element spliced into a sequence of different ones
  lemma Spliced<T>(s: seq<T>, i: nat, e: T, t: seq<T>)
    requires i <= |s| && e !in s && t == s[..i] + [e] + s[i..]
    requires forall j, k :: 0 <= j < k < |s| ==> s[j] != s[k]
    ensures |t| == |s| + 1 && t[i] == e
    ensures forall j :: 0 <= j < i ==> t[j] == s[j]
    ensures forall j :: i < j < |t| ==> t[j] == s[j - 1]
    ensures forall j, k :: 0 <= j < k < |t| ==> t[j] != t[k]
  {
  }

  class TailQueue {
    const head: Link
    // The head followed by the elements, first to last.
    ghost var cells: seq<Link>

    ghost predicate Valid()
      reads this, cells
    {
      && |cells| >= 1 && cells[0] == head
      && (forall i, j :: 0 <= i < j < |cells| ==> cells[i] != cells[j])
      && (forall i :: 0 <= i < |cells| - 1 ==> cells[i].next == cells[i + 1])
      && (forall i :: 1 <= i < |cells| ==> cells[i].prev == cells[i - 1])
      && cells[|cells| - 1].next == null
      && head.prev == cells[|cells| - 1]
    }

    // What Valid() says of the cell at position i.
    lemma CellAt(i: nat)
      requires Valid() && i < |cells|
      ensures cells[i].next == if i + 1 < |cells| then cells[i + 1] else null
      ensures cells[i].prev == if i > 0 then cells[i - 1] else cells[|cells| - 1]
    {
    }

    ghost function Elements(): seq<Link>
      reads this
      requires |cells| >= 1
    {
      cells[1..]
    }

    // TAILQ_INIT
    constructor ()
      ensures Valid() && fresh(head) && Elements() == []
    {
      head := new Link();
      new;
      head.next := null;
      head.prev := head;
      cells := [head];
    }

    // TAILQ_INSERT_HEAD
    method InsertHead(e: Link)
      requires Valid() && e !in cells
      modifies this, cells, e
      ensures Valid() && cells == [head, e] + old(Elements())
    {
      CellAt(0);
      if |cells| > 1 { CellAt(1); }
      e.next := head.next;
      if e.next != null {
        head.next.prev := e;
      } else {
        head.prev := e;
      }
      head.next := e;
      e.prev := head;
      cells := [head, e] + cells[1..];
    }

    // TAILQ_INSERT_TAIL
    method InsertTail(e: Link)
      requires Valid() && e !in cells
      modifies this, cells, e
      ensures Valid() && cells == old(cells) + [e]
    {
      CellAt(0);
      CellAt(|cells| - 1);
      e.next := null;
      e.prev := head.prev;
      head.prev.next := e;
      head.prev := e;
      cells := cells + [e];
    }

    // TAILQ_INSERT_AFTER: `i` says where `at` stands, the head being at 0.
    method InsertAfter(at: Link, e: Link, ghost i: nat)
      requires Valid() && e !in cells
      requires 1 <= i < |cells| && cells[i] == at
      modifies this, cells, e
      ensures Valid() && cells == old(cells[..i + 1] + [e] + cells[i + 1..])
    {
      CellAt(i);
      if i + 1 < |cells| { CellAt(i + 1); }
      e.next := at.next;
      if e.next != null {
        e.next.prev := e;
      } else {
        head.prev := e;
      }
      at.next := e;
      e.prev := at;
      Spliced(cells, i + 1, e, cells[..i + 1] + [e] + cells[i + 1..]);
      cells := cells[..i + 1] + [e] + cells[i + 1..];
    }

    // TAILQ_INSERT_BEFORE never looks at the head.
    method InsertBefore(at: Link, e: Link, ghost i: nat)
      requires Valid() && e !in cells
      requires 1 <= i < |cells| && cells[i] == at
      modifies this, cells, e
      ensures Valid() && cells == old(cells[..i] + [e] + cells[i..])
    {
      CellAt(i);
      CellAt(i - 1);
      ghost var was := cells;
      e.prev := at.prev;
      e.next := at;
      at.prev.next := e;
      at.prev := e;
      cells := cells[..i] + [e] + cells[i..];
      Spliced(was, i, e, cells);
    }

    // TAILQ_REMOVE leaves the removed element's own pointers as they were.
    method Remove(e: Link, ghost i: nat)
      requires Valid()
      requires 1 <= i < |cells| && cells[i] == e
      modifies this, cells
      ensures Valid() && cells == old(cells[..i] + cells[i + 1..])
      ensures e.next == old(e.next) && e.prev == old(e.prev)
    {
      CellAt(i);
      CellAt(i - 1);
      if i + 1 < |cells| { CellAt(i + 1); }
      if e.next != null {
        e.next.prev := e.prev;
      } else {
        head.prev := e.prev;
      }
      e.prev.next := e.next;
      cells := cells[..i] + cells[i + 1..];
    }

    // TAILQ_REPLACE
    method Replace(e: Link, e2: Link, ghost i: nat)
      requires Valid() && e2 !in cells
      requires 1 <= i < |cells| && cells[i] == e
      modifies this, cells, e2
      ensures Valid() && cells == old(cells)[i := e2]
    {
      CellAt(i);
      CellAt(i - 1);
      if i + 1 < |cells| { CellAt(i + 1); }
      e2.next := e.next;
      if e2.next != null {
        e2.next.prev := e2;
      } else {
        head.prev := e2;
      }
      e2.prev := e.prev;
      e2.prev.next := e2;
      cells := cells[i := e2];
    }

    // TAILQ_LAST reinterprets the cell the head's back pointer names as a head.
    method Last() returns (e: Link?)
      requires Valid()
      ensures Elements() == [] ==> e == null
      ensures Elements() != [] ==> e == Elements()[|Elements()| - 1]
    {
      CellAt(0);
      CellAt(|cells| - 1);
      if |cells| > 1 { CellAt(|cells| - 2); }
      e := head.prev.prev.next;
    }

    // TAILQ_PREV reinterprets the cell the element's back pointer names as a head.
    method Prev(at: Link, ghost i: nat) returns (e: Link?)
      requires Valid()
      requires 1 <= i < |cells| && cells[i] == at
      ensures e == if i == 1 then null else cells[i - 1]
    {
      CellAt(i);
      CellAt(i - 1);
      if i > 1 { CellAt(i - 2); } else { CellAt(|cells| - 1); }
      e := at.prev.prev.next;
    }

    // TAILQ_FOREACH
    method Forward() returns (s: seq<Link>)
      requires Valid()
      ensures s == Elements()
    {
      s := [];
      var e := head.next;
      while e != null
        invariant |s| <= |cells| - 1 && s == cells[1..|s| + 1]
        invariant e == cells[|s|].next
        decreases |cells| - |s|
      {
        CellAt(|s|);
        s := s + [e];
        e := e.next;
      }
      CellAt(|s|);
    }

    // TAILQ_FOREACH_REVERSE
    method Backward() returns (s: seq<Link>)
      requires Valid()
      ensures s == Reversed(Elements())
    {
      s := [];
      var e := Last();
      while e != null
        invariant |s| <= |Elements()|
        invariant forall i :: 0 <= i < |s| ==> s[i] == Elements()[|Elements()| - 1 - i]
        invariant e == if |s| < |Elements()| then Elements()[|Elements()| - 1 - |s|] else null
        decreases |cells| - |s|
      {
        ghost var i := |Elements()| - |s|;
        s := s + [e];
        e := Prev(e, i);
      }
    }
  }
}
