/** The heap-linked list of utils-list.c, which a script uses to keep the handles of the native
    modules it loaded until its teardown closes them. */
module ModuleList {
  import opened Sums

  /** A stored item: its data and whether a destructor was given with it. */
  datatype Item<T> = Item(data: T, hasDestructor: bool)

  /** The data handed to destructors when the items are destroyed in order. */
  function Destructed<T>(items: seq<Item<T>>): seq<T> {
    if items == [] then []
    else (if items[0].hasDestructor then [items[0].data] else []) + Destructed(items[1..])
  }

  lemma {:induction false} DestructedAppend<T>(items: seq<Item<T>>, item: Item<T>)
    ensures Destructed(items + [item]) == Destructed(items) + if item.hasDestructor then [item.data] else []
  {
    if items == [] {
      assert [] + [item] == [item] && [item][1..] == [];
    } else {
      assert (items + [item])[1..] == items[1..] + [item];
      DestructedAppend(items[1..], item);
    }
  }

  function CountOf<T(==)>(items: seq<Item<T>>, x: T): nat {
    Sum(items, (item: Item<T>) => if item.hasDestructor && item.data == x then 1 else 0)
  }

  /** Each datum is destroyed as often as it was added with a destructor. */
  lemma {:induction false} DestroyedAsOftenAsAdded<T>(items: seq<Item<T>>, x: T)
    ensures multiset(Destructed(items))[x] == CountOf(items, x)
  {
    if items != [] {
      DestroyedAsOftenAsAdded(items[1..], x);
      var first := if items[0].hasDestructor then [items[0].data] else [];
      assert Destructed(items) == first + Destructed(items[1..]);
      assert multiset(first + Destructed(items[1..])) == multiset(first) + multiset(Destructed(items[1..]));
    }
  }

  class Node<T> {
    const item: Item<T>
    var next: Node?<T>

    constructor (i: Item<T>)
      ensures item == i && next == null
    {
      item, next := i, null;
    }
  }

  class JsList<T> {
    var size: nat
    var head: Node?<T>
    var tail: Node?<T>
    ghost var nodes: seq<Node<T>>

    /** The nodes are the chain from head to tail. */
    ghost predicate Valid()
      reads this, nodes
    {
      && size == |nodes|
      && (forall i, j :: 0 <= i < j < |nodes| ==> nodes[i] != nodes[j])
      && (size > 0 ==> head == nodes[0] && tail == nodes[size - 1])
      && (size == 0 ==> head == null)
      && (forall i :: 0 <= i < size ==> nodes[i].next == if i + 1 < size then nodes[i + 1] else null)
    }

    ghost function Repr(): set<object>
      reads this
    {
      {this} + (set n: object | n in nodes)
    }

    /** What is stored, in the order of insertion. */
    ghost function Items(): (items: seq<Item<T>>)
      reads this, nodes
      ensures |items| == |nodes|
    {
      seq(|nodes|, i requires 0 <= i < |nodes| reads this, nodes => nodes[i].item)
    }

    /** js_list_create. */
    constructor ()
      ensures Valid() && nodes == [] && Items() == []
    {
      size, head, tail, nodes := 0, null, null, [];
    }

    method Append(item: Item<T>)
      requires Valid()
      modifies Repr()
      ensures Valid() && Items() == old(Items()) + [item]
      ensures fresh(Repr() - old(Repr()))
    {
      var node := new Node(item);
      if size == 0 {
        head, tail, size := node, node, 1;
      } else {
        tail.next := node;
        tail := node;
        size := size + 1;
      }
      nodes := nodes + [node];
    }
  }

  /** js_list_add: appends, unless there is no list or no data. */
  method Add<T>(list: JsList?<T>, data: Option<T>, hasDestructor: bool) returns (status: bool)
    requires list != null ==> list.Valid()
    modifies if list == null then {} else list.Repr()
    ensures status == (list != null && data.Some?)
    ensures list != null ==> list.Valid() && fresh(list.Repr() - old(list.Repr()))
    ensures list != null ==>
      list.Items() == old(list.Items()) + if data.Some? then [Item(data.value, hasDestructor)] else []
  {
    if list == null || data == None { return false; }
    list.Append(Item(data.value, hasDestructor));
    status := true;
  }

  /** js_list_foreach hands the callback each index with its data, in order. */
  method ForEach<T>(list: JsList?<T>, hasCallback: bool) returns (status: bool, calls: seq<(nat, T)>)
    requires list != null ==> list.Valid()
    ensures status == (list != null && hasCallback)
    ensures |calls| == if status then |list.Items()| else 0
    ensures forall i :: 0 <= i < |calls| ==> calls[i] == (i, list.Items()[i].data)
  {
    status, calls := list != null && hasCallback, [];
    if !status || list.size == 0 { return; }
    var target := list.head;
    for i := 0 to list.size
      invariant list.Valid() && target == if i < list.size then list.nodes[i] else null
      invariant |calls| == i && forall j :: 0 <= j < i ==> calls[j] == (j, list.Items()[j].data)
    {
      if target == null { break; }
      calls := calls + [(i, target.item.data)];
      target := target.next;
    }
  }

  /** js_list_destroy: runs each destructor once, in the order of insertion, and frees each node
      once and only after its successor was read. `freed` lists the freed nodes. */
  method Destroy<T>(list: JsList?<T>) returns (destructed: seq<T>, ghost freed: seq<Node<T>>)
    requires list != null ==> list.Valid()
    ensures destructed == if list == null then [] else Destructed(list.Items())
    ensures freed == if list == null then [] else list.nodes
    ensures forall i, j :: 0 <= i < j < |freed| ==> freed[i] != freed[j]
  {
    destructed, freed := [], [];
    if list == null { return; }
    var t := list.head;
    ghost var n := 0;
    while t != null
      invariant list.Valid() && n <= list.size && t == if n < list.size then list.nodes[n] else null
      invariant freed == list.nodes[..n] && destructed == Destructed(list.Items()[..n])
      decreases list.size - n
    {
      var tt := t;
      assert n < list.size && tt == list.nodes[n] && tt !in freed;
      assert list.nodes[n].next == if n + 1 < list.size then list.nodes[n + 1] else null;
      t := t.next;
      DestructedAppend(list.Items()[..n], tt.item);
      assert list.Items()[..n + 1] == list.Items()[..n] + [tt.item];
      if tt.item.hasDestructor { destructed := destructed + [tt.item.data]; }
      freed := freed + [tt];
      n := n + 1;
    }
    assert list.Items()[..n] == list.Items();
  }

  /** The life of a script's module list: every handle registered with a destructor is closed
      exactly once, in the order of registration. */
  method LoadAndClose<T>(handles: seq<T>) returns (closed: seq<T>)
    ensures closed == handles
  {
    var list := new JsList<T>();
    ghost var added: seq<Item<T>> := [];
    for i := 0 to |handles|
      invariant list.Valid() && fresh(list.Repr())
      invariant list.Items() == added && Destructed(added) == handles[..i]
    {
      var ok := Add(list, Some(handles[i]), true);
      DestructedAppend(added, Item(handles[i], true));
      added := added + [Item(handles[i], true)];
      assert handles[..i + 1] == handles[..i] + [handles[i]];
    }
    ghost var freed;
    closed, freed := Destroy(list);
    assert handles[..|handles|] == handles;
  }
}
