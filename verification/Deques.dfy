/**
  The stored deque at key level: a head key, a tail key and one key per item. Reads, pushes
  and pops address an item by head plus position. `Set` writes the key that equals the
  position, without adding the head; `relative` is the alternative that adds it.
 */
module Deques {
  import opened Common

  ghost predicate Live<T>(head: nat, tail: nat, items: map<nat, T>) {
    head <= tail && forall k :: head <= k < tail ==> k in items
  }

  /** The items from front to back. */
  function View<T>(head: nat, tail: nat, items: map<nat, T>): (s: seq<T>)
    requires Live(head, tail, items)
    ensures |s| == tail - head
    ensures forall i :: 0 <= i < |s| ==> s[i] == items[head + i]
  {
    if head == tail then [] else View(head, tail - 1, items) + [items[tail - 1]]
  }

  /** A write meant for position `pos` that lands `lag` positions too early, or outside. */
  function Landed<T>(s: seq<T>, pos: nat, lag: nat, v: T): (r: seq<T>)
    requires pos < |s|
    ensures |r| == |s|
    ensures lag > 0 ==> r[pos] == s[pos]
  {
    if pos < lag then s else s[pos - lag := v]
  }

  /** Writing key `pos` lands `head` positions too early. */
  lemma SetLands<T>(head: nat, tail: nat, items: map<nat, T>, pos: nat, v: T)
    requires Live(head, tail, items) && pos < tail - head
    ensures Live(head, tail, items[pos := v])
    ensures View(head, tail, items[pos := v]) == Landed(View(head, tail, items), pos, head, v)
  {
  }

  /** Writing key `pos` is the update at position `pos` exactly when the deque was never
      popped, or the value is already there and where the write lands. */
  lemma SetIsUpdate<T>(head: nat, tail: nat, items: map<nat, T>, pos: nat, v: T)
    requires Live(head, tail, items) && pos < tail - head
    ensures Live(head, tail, items[pos := v])
    ensures View(head, tail, items[pos := v]) == View(head, tail, items)[pos := v] <==>
            head == 0 || (items[head + pos] == v && (pos >= head ==> items[pos] == v))
  {
    SetLands(head, tail, items, pos, v);
    var before, after := View(head, tail, items), View(head, tail, items[pos := v]);
    if head > 0 && after == before[pos := v] {
      assert after[pos] == v;
      assert pos >= head ==> after[pos - head] == v;
    }
  }

  /** Once the deque was popped, a read after a write of a new value returns the old one. */
  lemma SetThenGet<T>(head: nat, tail: nat, items: map<nat, T>, pos: nat, v: T)
    requires Live(head, tail, items) && pos < tail - head && head > 0
    ensures Live(head, tail, items[pos := v])
    ensures View(head, tail, items[pos := v])[pos] == View(head, tail, items)[pos]
  {
  }

  class Deque<T> {
    const relative: bool
    var head: nat
    var tail: nat
    var items: map<nat, T>

    ghost predicate Valid()
      reads this
    {
      Live(head, tail, items)
    }

    function Contents(): seq<T>
      reads this
      requires Valid()
    {
      View(head, tail, items)
    }

    /** Whether `Set` addresses what `Get` reads. */
    predicate Aligned()
      reads this
    {
      relative || head == 0
    }

    /** How many positions too early `Set` writes. */
    function Lag(): nat
      reads this
    {
      if relative then 0 else head
    }

    constructor (relative: bool)
      ensures Valid() && Contents() == [] && Aligned() && this.relative == relative && head == 0
    {
      this.relative := relative;
      head, tail, items := 0, 0, map[];
    }

    function Len(): nat
      reads this
      requires Valid()
    {
      tail - head
    }

    function Get(pos: nat): (r: Option<T>)
      reads this
      requires Valid()
      ensures r == if pos < |Contents()| then Some(Contents()[pos]) else None
    {
      if pos < tail - head then Some(items[head + pos]) else None
    }

    method PushBack(v: T)
      requires Valid()
      modifies this
      ensures Valid() && Contents() == old(Contents()) + [v] && head == old(head)
    {
      items := items[tail := v];
      tail := tail + 1;
    }

    method PopFront() returns (r: Option<T>)
      requires Valid()
      modifies this
      ensures Valid()
      ensures r == if old(Contents()) == [] then None else Some(old(Contents())[0])
      ensures Contents() == if old(Contents()) == [] then [] else Suffix(old(Contents()), 1)
      ensures head == if old(Contents()) == [] then old(head) else old(head) + 1
    {
      if head == tail {
        return None;
      }
      r := Some(items[head]);
      items := map k | k in items && k != head :: items[k];
      head := head + 1;
    }

    method PopBack()
      requires Valid()
      modifies this
      ensures Valid() && head == old(head)
      ensures |Contents()| == if old(Contents()) == [] then 0 else |old(Contents())| - 1
      ensures forall i :: 0 <= i < |Contents()| ==> Contents()[i] == old(Contents()[i])
    {
      if head < tail {
        tail := tail - 1;
        items := map k | k in items && k != tail :: items[k];
      }
    }

    /** `DequeExtension::set`. */
    method Set(pos: nat, v: T)
      requires Valid()
      modifies this`items
      ensures Valid()
      ensures pos < |old(Contents())| ==> Contents() == Landed(old(Contents()), pos, Lag(), v)
      ensures !relative ==> items == old(items)[pos := v]
    {
      if !relative && pos < tail - head {
        SetLands(head, tail, items, pos, v);
      }
      var key := if relative then head + pos else pos;
      items := items[key := v];
    }

    /** `DequeExtension::clear`. */
    method Clear()
      requires Valid()
      modifies this
      ensures Valid() && Contents() == []
    {
      var n := Len();
      while n > 0
        invariant Valid() && n == |Contents()|
      {
        PopBack();
        n := n - 1;
      }
    }
  }
}
