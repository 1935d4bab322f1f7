/**
 * Lecterns (server/block/lectern.go): placing, taking and paging through a
 * book, the drops and the saved record; and the session's handler for the
 * LecternUpdate packet (server/session/handler_lectern_update.go).
 */
module Lecterns {
  import opened Wrappers
  import opened Ints
  import opened Cube
  import opened Items
  import opened Nbt
  import opened Events
  import opened Blocks
  import opened Worlds

  /** The lectern itself as an item, named by its EncodeItem. */
  const LecternItem: Item := Plain("minecraft:lectern", 0)

  /** BreakInfo's drops: one lectern, and the book when there is one. */
  function Drops(l: Block): (ds: seq<Stack>)
    requires l.Lectern?
    ensures |ds| == if Empty(l.book) then 1 else 2
    ensures ds[0] == Stack(LecternItem, 1)
    ensures !Empty(l.book) ==> ds[1] == l.book
  {
    [Stack(LecternItem, 1)] + (if !Empty(l.book) then [l.book] else [])
  }

  /**
   * Activate with `held` in the user's main hand. A lectern that has a book,
   * or a held item that is not a readable book, refuses. Otherwise the held
   * stack becomes the book at page 0, and one item is taken from the hand.
   */
  method Activate(l: Block, pos: Pos, w: World, held: Stack) returns (ok: bool, consumed: nat)
    requires l.Lectern?
    modifies w
    ensures ok <==> Empty(l.book) && IsReadable(held.item)
    ensures !ok ==> w.blocks == old(w.blocks) && w.events == old(w.events) && consumed == 0
    ensures ok ==> w.blocks == old(w.blocks)[pos := l.(book := held, page := 0)] && consumed == 1
    ensures ok ==> w.events == old(w.events) + [BlockSet(pos, NoOpts), SoundPlayed(pos, LecternBookPlace)]
    ensures w.liquids == old(w.liquids)
  {
    if !Empty(l.book) {
      return false, 0;
    }
    if !IsReadable(held.item) {
      return false, 0;
    }
    w.SetBlock(pos, l.(book := held, page := 0), NoOpts);
    w.Emit([SoundPlayed(pos, LecternBookPlace)]);
    return true, 1;
  }

  /** Punch: nothing on an empty lectern; otherwise the book drops above it and is cleared. */
  method Punch(l: Block, pos: Pos, w: World)
    requires l.Lectern?
    modifies w
    ensures Empty(l.book) ==> w.blocks == old(w.blocks) && w.events == old(w.events)
    ensures !Empty(l.book) ==> w.blocks == old(w.blocks)[pos := l.(book := EmptyStack)]
    ensures !Empty(l.book) ==>
      w.events == old(w.events) + [ItemDropped(pos.Side(FaceUp), l.book), BlockSet(pos, NoOpts), SoundPlayed(pos, AttackSound)]
    ensures w.liquids == old(w.liquids)
  {
    if Empty(l.book) {
      return;
    }
    w.Emit([ItemDropped(pos.Side(FaceUp), l.book)]);
    w.SetBlock(pos, l.(book := EmptyStack), NoOpts);
    w.Emit([SoundPlayed(pos, AttackSound)]);
  }

  /** The errors TurnPage returns. */
  datatype PageError = LecternEmpty(pos: Pos) | PageOutOfBounds(page: int)

  /** Whether TurnPage would fail: the page is checked against the book only when it differs. */
  function PageCheck(l: Block, pos: Pos, page: int): (r: Option<PageError>)
    requires l.Lectern?
    ensures page == l.page ==> r == None
    ensures page != l.page && Empty(l.book) ==> r == Some(LecternEmpty(pos))
    ensures page != l.page && !Empty(l.book) && IsReadable(l.book.item) ==>
      (r.Some? <==> page < 0 || page >= l.book.item.totalPages)
    ensures r.Some? && r.value.PageOutOfBounds? ==> r.value.page == page
    ensures page != l.page && !Empty(l.book) && !IsReadable(l.book.item) ==> r == None
  {
    if page == l.page then None
    else if Empty(l.book) then Some(LecternEmpty(pos))
    else if IsReadable(l.book.item) && (page >= l.book.item.totalPages || page < 0) then Some(PageOutOfBounds(page))
    else None
  }

  /** TurnPage: turn to `page`, writing the lectern back unless nothing changes or the page is refused. */
  method TurnPage(l: Block, pos: Pos, w: World, page: int) returns (err: Option<PageError>)
    requires l.Lectern?
    modifies w
    ensures err == PageCheck(l, pos, page)
    ensures err.None? && page != l.page ==>
      w.blocks == old(w.blocks)[pos := l.(page := page)] && w.events == old(w.events) + [BlockSet(pos, NoOpts)]
    ensures err.Some? || page == l.page ==> w.blocks == old(w.blocks) && w.events == old(w.events)
    ensures w.liquids == old(w.liquids)
  {
    if page == l.page {
      return None;
    }
    if Empty(l.book) {
      return Some(LecternEmpty(pos));
    }
    if IsReadable(l.book.item) && (page >= l.book.item.totalPages || page < 0) {
      return Some(PageOutOfBounds(page));
    }
    w.SetBlock(pos, l.(page := page), NoOpts);
    return None;
  }

  /**
   * A lectern whose book is empty or readable, with a page inside the book:
   * the states placing and paging reach from an empty lectern.
   */
  predicate Consistent(l: Block) {
    && l.Lectern? && l.page >= 0
    && (l.book == EmptyStack || (!Empty(l.book) && IsReadable(l.book.item)))
    && (l.book != EmptyStack ==> l.page == 0 || l.page < l.book.item.totalPages)
  }

  /** Placing a readable book, taking it and turning to an accepted page keep a lectern consistent. */
  lemma {:induction false} OperationsKeepConsistent(l: Block, held: Stack, page: int, pos: Pos)
    requires Consistent(l)
    ensures Empty(l.book) && IsReadable(held.item) && !Empty(held) ==> Consistent(l.(book := held, page := 0))
    ensures !Empty(l.book) ==> Consistent(l.(book := EmptyStack))
    ensures page != l.page && PageCheck(l, pos, page).None? ==> Consistent(l.(page := page))
  {
    if page != l.page && PageCheck(l, pos, page).None? {
      assert !Empty(l.book) && IsReadable(l.book.item);
    }
  }

  /** EncodeNBT. */
  function EncodeNBT(l: Block): (m: Record)
    requires l.Lectern?
    ensures "hasBook" in m && m["hasBook"] == Byte(if Empty(l.book) then 0 else 1)
    ensures "page" in m && m["page"] == Int(Int32(l.page))
    ensures "id" in m && m["id"] == Str("Lectern")
    ensures ("book" in m <==> IsReadable(l.book.item)) && ("totalPages" in m <==> IsReadable(l.book.item))
    ensures IsReadable(l.book.item) ==>
      m["book"] == ItemValue(l.book) && m["totalPages"] == Int(Int32(l.book.item.totalPages))
    ensures forall k :: k in m ==> k in {"hasBook", "page", "id", "book", "totalPages"}
  {
    var m := map["hasBook" := Byte(if Empty(l.book) then 0 else 1), "page" := Int(Int32(l.page)), "id" := Str("Lectern")];
    if IsReadable(l.book.item) then m["book" := ItemValue(l.book)]["totalPages" := Int(Int32(l.book.item.totalPages))]
    else m
  }

  /** DecodeNBT: the record's page and book on the receiver's facing. */
  function DecodeNBT(l: Block, m: Record): (r: Block)
    requires l.Lectern?
    ensures r == Lectern(l.facing, GetItem(m, "book"), GetInt32(m, "page"))
  {
    l.(page := GetInt32(m, "page"), book := GetItem(m, "book"))
  }

  /** A lectern with no book or a readable one, on a 32-bit page, survives saving and loading. */
  lemma RecordRoundTrip(l: Block)
    requires l.Lectern? && InInt32(l.page)
    requires l.book == EmptyStack || IsReadable(l.book.item)
    ensures DecodeNBT(l, EncodeNBT(l)) == l
  {
  }

  /** Any other book is not saved: it is gone after loading. */
  lemma OtherBooksAreLost(l: Block)
    requires l.Lectern? && !IsReadable(l.book.item)
    ensures DecodeNBT(l, EncodeNBT(l)).book == EmptyStack
  {
  }

  // ---------------------------------------------------------------------
  // The LecternUpdate packet handler

  /** The packet's fields: the page and the block position, as protocol integers. */
  datatype LecternUpdate = LecternUpdate(page: int, x: int, y: int, z: int)

  /** The outcome of Handle: an error, or the player's TurnLecternPage on a position and page. */
  datatype HandleOutcome = NotInReach(pos: Pos) | NotALectern(pos: Pos) | TurnLecternPage(pos: Pos, page: int)

  /** blockPosFromProtocol. */
  function BlockPosFromProtocol(pk: LecternUpdate): (p: Pos)
    ensures p.x == pk.x && p.y == pk.y && p.z == pk.z
  {
    Pos(pk.x, pk.y, pk.z)
  }

  /**
   * LecternUpdateHandler.Handle. `canReach` stands for the reach check on the
   * block's middle and `blockAt` for the player's world.
   */
  function Handle(pk: LecternUpdate, canReach: Pos -> bool, blockAt: Pos -> Block): (r: HandleOutcome)
    ensures !canReach(BlockPosFromProtocol(pk)) ==> r == NotInReach(BlockPosFromProtocol(pk))
    ensures canReach(BlockPosFromProtocol(pk)) && !blockAt(BlockPosFromProtocol(pk)).Lectern? ==>
      r == NotALectern(BlockPosFromProtocol(pk))
    ensures r.TurnLecternPage? <==> canReach(BlockPosFromProtocol(pk)) && blockAt(BlockPosFromProtocol(pk)).Lectern?
    ensures r.TurnLecternPage? ==> r.pos == BlockPosFromProtocol(pk) && r.page == pk.page
  {
    var pos := BlockPosFromProtocol(pk);
    if !canReach(pos) then NotInReach(pos)
    else if !blockAt(pos).Lectern? then NotALectern(pos)
    else TurnLecternPage(pos, pk.page)
  }

  /** The reach check comes first: an unreachable position is refused whatever block is there. */
  lemma ReachCheckedFirst(pk: LecternUpdate, canReach: Pos -> bool, blockAt: Pos -> Block, other: Pos -> Block)
    requires !canReach(BlockPosFromProtocol(pk))
    ensures Handle(pk, canReach, blockAt) == Handle(pk, canReach, other)
  {
  }

  /** EncodeBlock: the facing by name, and powered_bit always 0. */
  function EncodeBlock(l: Block): (s: BlockState)
    requires l.Lectern? && IsDirection(l.facing)
    ensures s.name == "minecraft:lectern"
    ensures s.properties.Keys == {"minecraft:cardinal_direction", "powered_bit"}
    ensures s.properties["minecraft:cardinal_direction"] == Str(String(l.facing))
    ensures s.properties["powered_bit"] == Byte(0)
  {
    BlockState("minecraft:lectern",
      map["minecraft:cardinal_direction" := Str(String(l.facing)), "powered_bit" := Byte(0)])
  }

  /** The book and page are left out of the block state; the facing alone tells states apart. */
  lemma EncodeBlockInjective(l: Block, k: Block)
    requires l.Lectern? && IsDirection(l.facing) && k.Lectern? && IsDirection(k.facing)
    ensures EncodeBlock(l) == EncodeBlock(k) <==> l.facing == k.facing
  {
    if EncodeBlock(l) == EncodeBlock(k) {
      assert EncodeBlock(l).properties["minecraft:cardinal_direction"] == EncodeBlock(k).properties["minecraft:cardinal_direction"];
      StringInjective(l.facing, k.facing);
    }
  }

  /** allLecterns: one empty lectern per horizontal direction. */
  function AllLecterns(): (bs: seq<Block>)
    ensures |bs| == 4
    ensures forall i :: 0 <= i < |bs| ==> bs[i] == Lectern(Directions()[i], EmptyStack, 0)
    ensures forall i, j :: 0 <= i < j < |bs| ==> bs[i] != bs[j]
  {
    var ds := Directions();
    seq(|ds|, i requires 0 <= i < |ds| => Lectern(ds[i], EmptyStack, 0))
  }

  /** UseOnBlock at the resolved position: the lectern is placed facing the user. */
  method UseOnBlock(l: Block, pos: Pos, w: World, userDirection: int) returns (used: bool)
    requires l.Lectern? && IsDirection(userDirection)
    modifies w
    ensures used
    ensures w.blocks == old(w.blocks)[pos := Lectern(Opposite(userDirection), l.book, l.page)]
    ensures w.events == old(w.events) + [BlockSet(pos, NoOpts)]
    ensures w.liquids == old(w.liquids)
  {
    w.SetBlock(pos, Lectern(Opposite(userDirection), l.book, l.page), NoOpts);
    return true;
  }
}
