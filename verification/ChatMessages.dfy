/** The messages of a script's inbox: js_chat_message_alloc and js_chat_message_free of js_chat.c. */
module ChatMessages {
  import opened Sums
  import opened Resources

  datatype Block = Block(id: nat, text: string)

  /** A message and the copies it owns. */
  datatype Message = Message(self: nat, from: Option<Block>, fromTitle: Option<Block>, body: Option<Block>)

  /** What a script is shown of a text: an empty one counts as missing. */
  function Shown(text: string): Option<string> {
    if text == "" then None else Some(text)
  }

  function TextOf(b: Option<Block>): Option<string> {
    if b.Some? then Some(b.value.text) else None
  }

  function Own(b: Option<Block>): set<nat> {
    if b.Some? then {b.value.id} else {}
  }

  /** The blocks a message consists of. */
  function Blocks(m: Message): set<nat> { {m.self} + Own(m.from) + Own(m.fromTitle) + Own(m.body) }

  predicate Separate(m: Message) {
    && m.self !in Own(m.from) + Own(m.fromTitle) + Own(m.body)
    && Own(m.from) !! Own(m.fromTitle) && Own(m.from) !! Own(m.body) && Own(m.fromTitle) !! Own(m.body)
  }

  method Duplicate(ledger: Ledger, text: string) returns (b: Option<Block>)
    requires ledger.Valid()
    modifies ledger
    ensures ledger.Valid() && TextOf(b) == Shown(text)
    ensures Own(b) !! old(ledger.live) && ledger.live == old(ledger.live) + Own(b)
  {
    b := None;
    if text != "" {
      var id := ledger.Acquire(false);
      b := Some(Block(id.value, text));
    }
  }

  /** js_chat_message_alloc: the script will read what the sender sent. */
  method Alloc(ledger: Ledger, from: string, fromTitle: string, body: string) returns (m: Message)
    requires ledger.Valid()
    modifies ledger
    ensures ledger.Valid() && Separate(m)
    ensures Blocks(m) !! old(ledger.live) && ledger.live == old(ledger.live) + Blocks(m)
    ensures TextOf(m.from) == Shown(from) && TextOf(m.fromTitle) == Shown(fromTitle) && TextOf(m.body) == Shown(body)
  {
    var self := ledger.Acquire(false);
    var f := Duplicate(ledger, from);
    var t := Duplicate(ledger, fromTitle);
    var b := Duplicate(ledger, body);
    m := Message(self.value, f, t, b);
  }

  method FreeBlock(ledger: Ledger, b: Option<Block>)
    requires ledger.Valid() && Own(b) <= ledger.live
    modifies ledger
    ensures ledger.Valid() && ledger.live == old(ledger.live) - Own(b)
  {
    if b.Some? { ledger.Destroy(b.value.id); }
  }

  /** js_chat_message_free gives back everything but the title of the sender. */
  method Free(ledger: Ledger, m: Message)
    requires ledger.Valid() && Separate(m) && Blocks(m) <= ledger.live
    modifies ledger
    ensures ledger.Valid() && ledger.live == old(ledger.live) - (Blocks(m) - Own(m.fromTitle))
    ensures ledger.live == old(ledger.live) - Blocks(m) <==> m.fromTitle == None
  {
    FreeBlock(ledger, m.from);
    FreeBlock(ledger, m.body);
    ledger.Destroy(m.self);
    assert m.fromTitle.Some? ==> m.fromTitle.value.id in ledger.live;
  }

  /** A message sent and freed leaves nothing behind if and only if its sender gave no title. */
  method SendAndFree(ledger: Ledger, from: string, fromTitle: string, body: string)
    requires ledger.Valid()
    modifies ledger
    ensures ledger.Valid() && old(ledger.live) <= ledger.live
    ensures ledger.live == old(ledger.live) <==> fromTitle == ""
  {
    var m := Alloc(ledger, from, fromTitle, body);
    Free(ledger, m);
    assert m.fromTitle.Some? ==> m.fromTitle.value.id in ledger.live;
  }
}
