/** The conversation store (src/lib/chat/storage.ts): one localStorage slot
    holding a JSON array of conversations.

    `JSON.parse` and `JSON.stringify` are not modelled: the slot holds the
    outcome of parsing what is stored under the key, and saving a list
    stores its records unchanged. */
module Storage {
  import opened Text
  import opened ChatTypes
  import opened Lists

  /** The localStorage key of the slot. */
  const StorageKey: string := "aion_gpt_conversations_v1"

  /** One element of the parsed array: a falsy value (`null`, `0`, `""`,
      `false`), a value whose `id` is not a string or whose `messages` is
      not an array, or a record of the expected shape. */
  datatype Item = Falsy | Malshaped | Record(conversation: Conversation)

  /** What `JSON.parse` makes of the slot: nothing stored (`null` or the
      empty string), text that does not parse, a value that is not an
      array, or an array. */
  datatype Slot = Missing | Unparsable | NotArray | Array(items: seq<Item>)

  /** `safeParse`: the parsed array, and `[]` in every other case. */
  function SafeParse(slot: Slot): (r: seq<Item>)
    ensures slot.Array? ==> r == slot.items
    ensures !slot.Array? ==> r == []
  {
    match slot
    case Array(items) => items
    case _ => []
  }

  /** The shape check of `loadConversations`: truthy, a string `id` and an
      array `messages`. */
  predicate HasShape(item: Item) {
    item.Record?
  }

  /** The entries that pass the shape check, in stored order. */
  function Records(items: seq<Item>): (r: seq<Conversation>)
    ensures |r| <= |items|
    ensures forall c :: c in r <==> Record(c) in items
  {
    if items == [] then []
    else if HasShape(items[0]) then [items[0].conversation] + Records(items[1..])
    else Records(items[1..])
  }

  /** The entries of two stretches of the array pass the check in order. */
  lemma {:induction false} RecordsAppend(a: seq<Item>, b: seq<Item>)
    ensures Records(a + b) == Records(a) + Records(b)
    decreases |a|
  {
    if a == [] {
      assert a + b == b;
    } else {
      assert (a + b)[0] == a[0] && (a + b)[1..] == a[1..] + b;
      RecordsAppend(a[1..], b);
    }
  }

  /** One entry is kept exactly when it has the shape of a conversation. */
  lemma RecordsSingle(item: Item)
    ensures Records([item]) == if HasShape(item) then [item.conversation] else []
  {
    assert [item][1..] == [];
  }

  /** What `saveConversations(next)` stores, read back by `JSON.parse`. */
  function Stored(next: seq<Conversation>): (items: seq<Item>)
    ensures |items| == |next|
    ensures forall i :: 0 <= i < |next| ==> items[i] == Record(next[i])
  {
    seq(|next|, i requires 0 <= i < |next| => Record(next[i]))
  }

  lemma {:induction false} RecordsOfStored(next: seq<Conversation>)
    ensures Records(Stored(next)) == next
    decreases |next|
  {
    if next != [] {
      RecordsOfStored(next[1..]);
      assert Stored(next)[1..] == Stored(next[1..]);
    }
  }

  // ---------------------------------------------------------------------
  // Sorting by `updatedAt`, newest first

  /** No entry is newer than one before it. */
  predicate NewestFirst(xs: seq<Conversation>) {
    forall i, j :: 0 <= i < j < |xs| ==> xs[i].updatedAt >= xs[j].updatedAt
  }

  /** Puts `c` before the first entry that is not newer than it. */
  function Insert(c: Conversation, xs: seq<Conversation>): (r: seq<Conversation>)
    ensures multiset(r) == multiset(xs) + multiset{c}
    ensures r[0] == c || (xs != [] && r[0] == xs[0])
  {
    if xs == [] || c.updatedAt >= xs[0].updatedAt then [c] + xs
    else
      assert xs == [xs[0]] + xs[1..];
      [xs[0]] + Insert(c, xs[1..])
  }

  lemma {:induction false} InsertNewestFirst(c: Conversation, xs: seq<Conversation>)
    requires NewestFirst(xs)
    ensures NewestFirst(Insert(c, xs))
    decreases |xs|
  {
    if xs != [] && c.updatedAt < xs[0].updatedAt {
      InsertNewestFirst(c, xs[1..]);
      var r := Insert(c, xs[1..]);
      assert xs[1..] != [] ==> xs[0].updatedAt >= xs[1..][0].updatedAt;
      assert xs[0].updatedAt >= r[0].updatedAt;
    }
  }

  /** `sort((a, b) => b.updatedAt - a.updatedAt)`. The comparator orders by
      `updatedAt`, newest first, and `Array.prototype.sort` is stable. */
  function SortNewestFirst(xs: seq<Conversation>): (r: seq<Conversation>)
    ensures NewestFirst(r)
    ensures multiset(r) == multiset(xs)
  {
    if xs == [] then []
    else
      var rest := SortNewestFirst(xs[1..]);
      InsertNewestFirst(xs[0], rest);
      assert multiset(xs) == multiset(xs[1..]) + multiset{xs[0]} by {
        assert xs == [xs[0]] + xs[1..];
      }
      Insert(xs[0], rest)
  }

  /** The entries of `xs` with `updatedAt == t`, in order. */
  function WithTime(t: int, xs: seq<Conversation>): seq<Conversation> {
    Filter((c: Conversation) => c.updatedAt == t, xs)
  }

  lemma {:induction false} InsertKeepsTies(c: Conversation, xs: seq<Conversation>, t: int)
    requires NewestFirst(xs)
    ensures WithTime(t, Insert(c, xs)) == if c.updatedAt == t then [c] + WithTime(t, xs) else WithTime(t, xs)
    decreases |xs|
  {
    if xs == [] || c.updatedAt >= xs[0].updatedAt {
      assert ([c] + xs)[1..] == xs;
    } else {
      assert ([xs[0]] + Insert(c, xs[1..]))[1..] == Insert(c, xs[1..]);
      InsertKeepsTies(c, xs[1..], t);
    }
  }

  /** The sort is stable: entries with the same `updatedAt` keep their order. */
  lemma {:induction false} SortIsStable(xs: seq<Conversation>, t: int)
    ensures WithTime(t, SortNewestFirst(xs)) == WithTime(t, xs)
    decreases |xs|
  {
    if xs != [] {
      var rest := SortNewestFirst(xs[1..]);
      assert SortNewestFirst(xs) == Insert(xs[0], rest);
      InsertKeepsTies(xs[0], rest, t);
      SortIsStable(xs[1..], t);
      assert WithTime(t, xs) == if xs[0].updatedAt == t then [xs[0]] + WithTime(t, xs[1..]) else WithTime(t, xs[1..]);
    }
  }

  // ---------------------------------------------------------------------
  // Upsert and delete

  /** `all.findIndex((c) => c.id === id)`: the first position holding `id`,
      or -1. */
  function FindIndex(all: seq<Conversation>, id: string): (i: int)
    ensures -1 <= i < |all|
    ensures 0 <= i ==> all[i].id == id
    ensures forall k :: 0 <= k < |all| && (i == -1 || k < i) ==> all[k].id != id
  {
    if all == [] then -1
    else if all[0].id == id then 0
    else
      var i := FindIndex(all[1..], id);
      if i == -1 then -1 else i + 1
  }

  /** The list `upsertConversation` saves: the first entry with the same id
      replaced in place, or the conversation put in front. */
  function UpsertInto(all: seq<Conversation>, c: Conversation): (next: seq<Conversation>)
    ensures c in next
    ensures var i := FindIndex(all, c.id);
      && (0 <= i ==> |next| == |all| && next[i] == c && forall k :: 0 <= k < |all| && k != i ==> next[k] == all[k])
      && (i == -1 ==> |next| == |all| + 1 && next[0] == c && next[1..] == all)
  {
    var i := FindIndex(all, c.id);
    if 0 <= i then
      assert all[i := c][i] == c;
      all[i := c]
    else
      assert ([c] + all)[1..] == all;
      [c] + all
  }

  /** `all.filter((c) => c.id !== id)`. */
  function Without(all: seq<Conversation>, id: string): (next: seq<Conversation>)
    ensures forall k :: 0 <= k < |next| ==> next[k].id != id
    ensures forall k :: 0 <= k < |all| && all[k].id != id ==> all[k] in next
    ensures IsSubsequence(next, all)
  {
    FilterIsSubsequence((c: Conversation) => c.id != id, all);
    Filter((c: Conversation) => c.id != id, all)
  }

  /** The browser's localStorage, reduced to the one key the store uses. */
  class ConversationStore {
    var slot: Slot

    constructor (slot: Slot)
      ensures this.slot == slot
    {
      this.slot := slot;
    }

    /** `loadConversations`: the records of the expected shape, newest first. */
    function Load(): (r: seq<Conversation>)
      reads this
      ensures NewestFirst(r)
      ensures multiset(r) == multiset(Records(SafeParse(slot)))
    {
      SortNewestFirst(Records(SafeParse(slot)))
    }

    /** `saveConversations`: what is loaded next is `next`, newest first. */
    method Save(next: seq<Conversation>)
      modifies this
      ensures slot == Array(Stored(next))
      ensures Load() == SortNewestFirst(next)
    {
      slot := Array(Stored(next));
      RecordsOfStored(next);
    }

    /** `upsertConversation`. */
    method Upsert(conversation: Conversation)
      modifies this
      ensures slot == Array(Stored(UpsertInto(old(Load()), conversation)))
      ensures conversation in Load()
    {
      var all := Load();
      var idx := FindIndex(all, conversation.id);
      var next := all;
      if idx >= 0 {
        next := next[idx := conversation];
      } else {
        next := [conversation] + next;
      }
      Save(next);
      assert conversation in multiset(SortNewestFirst(next));
    }

    /** `deleteConversation`. */
    method Delete(id: string)
      modifies this
      ensures slot == Array(Stored(Without(old(Load()), id)))
      ensures forall c :: c in Load() ==> c.id != id
    {
      var all := Load();
      var next := Without(all, id);
      Save(next);
      forall c | c in Load()
        ensures c.id != id
      {
        assert c in multiset(next);
      }
    }
  }

  // ---------------------------------------------------------------------
  // Markdown export

  /** The heading of a message: `User` or `AION GPT`. */
  function RoleHeading(role: ChatRole): string {
    if role == User then "## User" else "## AION GPT"
  }

  /** Four lines per message: its heading, a blank line, its content, a
      blank line. */
  function MessageLines(messages: seq<ChatMessage>): (lines: seq<string>)
    ensures |lines| == 4 * |messages|
  {
    if messages == [] then []
    else
      var m := messages[|messages| - 1];
      MessageLines(messages[..|messages| - 1]) + [RoleHeading(m.role), "", m.content, ""]
  }

  /** Where each message lands in the export's lines. */
  lemma {:induction false} MessageLinesLayout(messages: seq<ChatMessage>, i: nat)
    requires i < |messages|
    ensures var lines := MessageLines(messages);
      && lines[4 * i] == RoleHeading(messages[i].role)
      && lines[4 * i + 1] == ""
      && lines[4 * i + 2] == messages[i].content
      && lines[4 * i + 3] == ""
    decreases |messages|
  {
    var init := messages[..|messages| - 1];
    if i < |init| {
      MessageLinesLayout(init, i);
      assert init[i] == messages[i];
    }
  }

  lemma MessageLinesSnoc(messages: seq<ChatMessage>, k: nat)
    requires k < |messages|
    ensures MessageLines(messages[..k + 1]) == MessageLines(messages[..k]) + [RoleHeading(messages[k].role), "", messages[k].content, ""]
  {
    assert messages[..k + 1][..k] == messages[..k];
  }

  /** The lines of the export: `# <title>`, a blank line, then each message. */
  function MarkdownLines(c: Conversation): (lines: seq<string>)
    ensures |lines| == 2 + 4 * |c.messages|
    ensures lines[0] == "# " + c.title && lines[1] == ""
    ensures forall i :: 0 <= i < |c.messages| ==>
      && lines[2 + 4 * i] == RoleHeading(c.messages[i].role)
      && lines[2 + 4 * i + 2] == c.messages[i].content
  {
    forall i | 0 <= i < |c.messages|
      ensures MessageLines(c.messages)[4 * i] == RoleHeading(c.messages[i].role)
      ensures MessageLines(c.messages)[4 * i + 2] == c.messages[i].content
    {
      MessageLinesLayout(c.messages, i);
    }
    ["# " + c.title, ""] + MessageLines(c.messages)
  }

  /** `exportConversationMarkdown`: the lines pushed one by one, joined by `\n`. */
  method ExportMarkdown(c: Conversation) returns (md: string)
    ensures md == Join(MarkdownLines(c), "\n")
  {
    var lines: seq<string> := [];
    lines := lines + ["# " + c.title];
    lines := lines + [""];
    for k := 0 to |c.messages|
      invariant lines == ["# " + c.title, ""] + MessageLines(c.messages[..k])
    {
      var m := c.messages[k];
      MessageLinesSnoc(c.messages, k);
      lines := lines + [RoleHeading(m.role)];
      lines := lines + [""];
      lines := lines + [m.content];
      lines := lines + [""];
    }
    assert c.messages[..|c.messages|] == c.messages;
    md := Join(lines, "\n");
  }
}
