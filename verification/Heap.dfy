/** One of the scheduler's `_heaps`: a priority queue of `(due, turn, id)`.
    Entries are never taken back when an item is put off or leaves. A stale
    entry stays until `_peek` meets it, so what must hold is that every item
    still has an entry with its present due time. */
module Heaps {
  import opened Items

  datatype Entry = Entry(due: real, turn: nat, id: string)

  predicate Precedes(a: Entry, b: Entry) {
    a.due < b.due || (a.due == b.due && a.turn <= b.turn)
  }

  /** `heap[0]` is always a least entry. */
  ghost predicate Sorted(heap: seq<Entry>) {
    forall i, j :: 0 <= i < j < |heap| ==> Precedes(heap[i], heap[j])
  }

  /** `heappush` */
  function Pushed(heap: seq<Entry>, entry: Entry): (r: seq<Entry>)
    ensures forall e :: e in r <==> e == entry || e in heap
  {
    if heap == [] || Precedes(entry, heap[0]) then [entry] + heap
    else
      var rest := Pushed(heap[1..], entry);
      assert heap == [heap[0]] + heap[1..];
      [heap[0]] + rest
  }

  lemma {:induction false} PushedIsSorted(heap: seq<Entry>, entry: Entry)
    requires Sorted(heap)
    ensures Sorted(Pushed(heap, entry))
  {
    if !(heap == [] || Precedes(entry, heap[0])) {
      PushedIsSorted(heap[1..], entry);
      var rest := Pushed(heap[1..], entry);
      forall j | 0 <= j < |rest| ensures Precedes(heap[0], rest[j]) {
        assert rest[j] in rest;
      }
    }
  }

  ghost predicate HasEntry(heap: seq<Entry>, id: string, due: real) {
    exists e :: e in heap && e.id == id && e.due == due
  }

  /** The entry still speaks for an item: it is in the queue, due when the entry says. */
  predicate Stands(e: Entry, items: map<string, PendingItem>) {
    e.id in items && items[e.id].dueAt == e.due
  }

  /** Every item of the kind, running or not, has an entry with its present due time. */
  ghost predicate HeapOk(heap: seq<Entry>, kind: Kind, items: map<string, PendingItem>, used: set<string>) {
    && Sorted(heap)
    && (forall e :: e in heap ==> e.id in used && (e.id in items ==> items[e.id].action == kind))
    && (forall id :: id in items && items[id].action == kind ==> HasEntry(heap, id, items[id].dueAt))
  }

  /** Items may leave, and may change in everything but kind and due time. */
  lemma LeavingKeepsHeap(heap: seq<Entry>, kind: Kind, items: map<string, PendingItem>, used: set<string>,
                         items': map<string, PendingItem>)
    requires HeapOk(heap, kind, items, used)
    requires forall id :: id in items' ==>
      id in items && items'[id].action == items[id].action && items'[id].dueAt == items[id].dueAt
    ensures HeapOk(heap, kind, items', used)
  {
  }

  /** A new item, or a new due time, pushes an entry on the heap of its kind and on no other. */
  lemma PutKeepsHeap(heap: seq<Entry>, kind: Kind, items: map<string, PendingItem>, used: set<string>,
                     item: PendingItem, turn: nat)
    requires HeapOk(heap, kind, items, used)
    requires item.id in items ==> items[item.id].action == item.action
    requires item.id in used ==> item.id in items
    ensures kind == item.action ==>
      HeapOk(Pushed(heap, Entry(item.dueAt, turn, item.id)), kind, items[item.id := item], used + {item.id})
    ensures kind != item.action ==> HeapOk(heap, kind, items[item.id := item], used + {item.id})
  {
    var items' := items[item.id := item];
    if kind == item.action {
      var r := Pushed(heap, Entry(item.dueAt, turn, item.id));
      PushedIsSorted(heap, Entry(item.dueAt, turn, item.id));
      assert Entry(item.dueAt, turn, item.id) in r;
      forall id | id in items' && items'[id].action == kind ensures HasEntry(r, id, items'[id].dueAt) {
        if id != item.id {
          var e :| e in heap && e.id == id && e.due == items[id].dueAt;
          assert e in r;
        }
      }
    }
  }

  /** Popping the head is harmless when no item stands behind it. */
  lemma PopKeepsHeap(heap: seq<Entry>, kind: Kind, items: map<string, PendingItem>, used: set<string>)
    requires HeapOk(heap, kind, items, used) && heap != []
    requires !Stands(heap[0], items)
    ensures HeapOk(heap[1..], kind, items, used)
  {
    forall id | id in items && items[id].action == kind ensures HasEntry(heap[1..], id, items[id].dueAt) {
      var e :| e in heap && e.id == id && e.due == items[id].dueAt;
      assert heap == [heap[0]] + heap[1..];
      assert e in heap[1..];
    }
  }

  /** The first entry that stands names an item of least due time. */
  lemma HeadIsLeast(heap: seq<Entry>, kind: Kind, items: map<string, PendingItem>, used: set<string>)
    requires HeapOk(heap, kind, items, used) && heap != [] && Stands(heap[0], items)
    ensures items[heap[0].id].action == kind
    ensures forall id :: id in items && items[id].action == kind ==> items[heap[0].id].dueAt <= items[id].dueAt
  {
    forall id | id in items && items[id].action == kind ensures items[heap[0].id].dueAt <= items[id].dueAt {
      var e :| e in heap && e.id == id && e.due == items[id].dueAt;
      var i :| 0 <= i < |heap| && heap[i] == e;
      assert i > 0 ==> Precedes(heap[0], heap[i]);
    }
  }
}
