/**
 * The Vision Board page: boards of goal items laid out in a four-column grid,
 * moving an item to a neighbouring cell, replacing the selected board's items,
 * adding goals and quotes, and deleting boards and items. Prompt and confirm
 * answers and the fresh `Date.now()` ids are passed in by the caller.
 */
module VisionBoard {
  import opened Wrappers
  import opened Text
  import opened Seqs
  import opened JsMath

  datatype ItemKind = TextItem | ImageItem

  datatype BoardItem = BoardItem(
    id: int,
    kind: ItemKind,
    content: Option<string>,
    src: Option<string>,
    title: Option<string>,
    color: Option<string>)

  datatype Board = Board(id: int, title: string, userId: string, items: seq<BoardItem>)

  datatype Direction = Up | Down | Left | Right

  /** The page state: all boards and the selected board (a copy of one, or none). */
  datatype Page = Page(boards: seq<Board>, selected: Option<Board>)

  /** Number of grid columns `moveItem` assumes. */
  const Cols := 4

  // ---- Selecting boards ----

  /** `boards.find(b => b.id === id)`. */
  function FindBoard(boards: seq<Board>, id: int): (r: Option<Board>)
    ensures r.Some? ==> r.value in boards && r.value.id == id
    ensures r.None? <==> forall k :: 0 <= k < |boards| ==> boards[k].id != id
    ensures r.Some? ==> exists k :: 0 <= k < |boards| && boards[k] == r.value
                                     && forall j :: 0 <= j < k ==> boards[j].id != id
  {
    if boards == [] then None
    else if boards[0].id == id then Some(boards[0])
    else
      var r := FindBoard(boards[1..], id);
      assert forall k :: 1 <= k < |boards| ==> boards[k] == boards[1..][k - 1];
      r
  }

  /** `userBoards`: the boards of the current user. */
  function UserBoards(boards: seq<Board>, userId: string): seq<Board> {
    Filter(boards, (b: Board) => b.userId == userId)
  }

  /** The first selection: `userBoards[0] || boards[0] || null`. */
  function InitialSelection(boards: seq<Board>, userId: string): Option<Board> {
    var mine := UserBoards(boards, userId);
    if |mine| > 0 then Some(mine[0])
    else if |boards| > 0 then Some(boards[0])
    else None
  }

  /** The selected board's items, or none: `selectedBoard?.items || []`. */
  function SelectedItems(p: Page): seq<BoardItem> {
    if p.selected.Some? then p.selected.value.items else []
  }

  // ---- Moving an item ----

  /** `items.findIndex(item => item.id === id)`: the first index with that id, or -1. */
  function ItemIndex(items: seq<BoardItem>, id: int): (i: int)
    ensures -1 <= i < |items|
    ensures i >= 0 ==> items[i].id == id && forall k :: 0 <= k < i ==> items[k].id != id
    ensures i == -1 <==> forall k :: 0 <= k < |items| ==> items[k].id != id
  {
    if items == [] then -1
    else if items[0].id == id then 0
    else
      var i := ItemIndex(items[1..], id);
      assert forall k :: 1 <= k < |items| ==> items[k] == items[1..][k - 1];
      if i < 0 then -1 else i + 1
  }

  /** The `switch` on the direction: the cell an item at `index` swaps with, or -1 at a row edge. */
  function SwapTarget(index: int, dir: Direction): int {
    match dir
    case Up => index - Cols
    case Down => index + Cols
    case Left => if JsRem(index, Cols) == 0 then -1 else index - 1
    case Right => if JsRem(index + 1, Cols) == 0 then -1 else index + 1
  }

  /** Whether a move changes anything: the item is on the board and its target cell exists. */
  predicate ValidMove(items: seq<BoardItem>, id: int, dir: Direction) {
    var i := ItemIndex(items, id);
    var t := SwapTarget(i, dir);
    0 <= i && 0 <= t < |items|
  }

  /** `s` with the elements at `i` and `j` exchanged. */
  function Swapped<T>(s: seq<T>, i: int, j: int): (r: seq<T>)
    requires 0 <= i < |s| && 0 <= j < |s|
    ensures |r| == |s| && r[i] == s[j] && r[j] == s[i]
    ensures forall k :: 0 <= k < |s| && k != i && k != j ==> r[k] == s[k]
  {
    s[i := s[j]][j := s[i]]
  }

  /** The items after `moveItem`: swapped on a valid move, untouched otherwise. */
  function MovedItems(items: seq<BoardItem>, id: int, dir: Direction): seq<BoardItem> {
    if ValidMove(items, id, dir)
    then Swapped(items, ItemIndex(items, id), SwapTarget(ItemIndex(items, id), dir))
    else items
  }

  /**
   * The body of `moveItem` on the selected board's items: copy them into a
   * fresh array, pick the swap cell, and swap the two cells in place.
   */
  method MoveItems(items: seq<BoardItem>, id: int, dir: Direction) returns (moved: bool, r: seq<BoardItem>)
    ensures moved == ValidMove(items, id, dir)
    ensures r == MovedItems(items, id, dir)
  {
    var index := ItemIndex(items, id);
    var newItems := new BoardItem[|items|](k requires 0 <= k < |items| => items[k]);
    var swapIndex := -1;
    match dir {
      case Up => swapIndex := index - Cols;
      case Down => swapIndex := index + Cols;
      case Left => swapIndex := if JsRem(index, Cols) == 0 then -1 else index - 1;
      case Right => swapIndex := if JsRem(index + 1, Cols) == 0 then -1 else index + 1;
    }
    if index < 0 || swapIndex < 0 || swapIndex >= newItems.Length {
      return false, items;
    }
    newItems[index], newItems[swapIndex] := newItems[swapIndex], newItems[index];
    moved, r := true, newItems[..];
  }

  // ---- Changing the selected board ----

  /** `updateBoardItems`: the boards with the selected id get the new items, and the selection is re-read. */
  function UpdateBoardItems(p: Page, newItems: seq<BoardItem>): Page {
    if p.selected.None? then p
    else
      var id := p.selected.value.id;
      var boards := seq(|p.boards|, k requires 0 <= k < |p.boards| =>
        if p.boards[k].id == id then p.boards[k].(items := newItems) else p.boards[k]);
      Page(boards, FindBoard(boards, id))
  }

  /** `moveItem` on the page: nothing happens without a selection or on an invalid move. */
  function Moved(p: Page, id: int, dir: Direction): Page {
    if p.selected.None? || !ValidMove(p.selected.value.items, id, dir) then p
    else UpdateBoardItems(p, MovedItems(p.selected.value.items, id, dir))
  }

  /** The goal item `addTextItem` appends. */
  function GoalItem(id: int, text: string): BoardItem {
    BoardItem(id, TextItem, Some(Trim(text)), None, None, Some("bg-pink-200"))
  }

  /** The quote item `addQuote` appends. */
  function QuoteItem(id: int, text: string): BoardItem {
    BoardItem(id, TextItem, Some(text), None, None, Some("bg-green-200"))
  }

  /** `addTextItem`: a cancelled, empty or blank prompt adds nothing. */
  function TextItemAdded(p: Page, input: Option<string>, freshId: int): Page {
    if input == None || input == Some("") || Trim(input.value) == "" then p
    else UpdateBoardItems(p, SelectedItems(p) + [GoalItem(freshId, input.value)])
  }

  /** `addQuote`: only a cancelled or empty prompt adds nothing. */
  function QuoteAdded(p: Page, input: Option<string>, freshId: int): Page {
    if input == None || input == Some("") then p
    else UpdateBoardItems(p, SelectedItems(p) + [QuoteItem(freshId, input.value)])
  }

  /** The sidebar delete button of board `id`: the selection falls back only when that board was selected. */
  function BoardDeleted(p: Page, id: int, confirmed: bool): Page {
    if !confirmed then p
    else
      var boards := Filter(p.boards, (b: Board) => b.id != id);
      var selected :=
        if p.selected.Some? && p.selected.value.id == id
        then (if |boards| > 0 then Some(boards[0]) else None)
        else p.selected;
      Page(boards, selected)
  }

  /** The canvas delete button: removes the selected board and always selects the first remaining one. */
  function SelectedBoardDeleted(p: Page, confirmed: bool): Page {
    if p.selected.None? || !confirmed then p
    else
      var boards := Filter(p.boards, (b: Board) => b.id != p.selected.value.id);
      Page(boards, if |boards| > 0 then Some(boards[0]) else None)
  }

  /** The item delete button: the selected board keeps its other items. */
  function ItemDeleted(p: Page, itemId: int, confirmed: bool): Page {
    if p.selected.None? || !confirmed then p
    else UpdateBoardItems(p, Filter(p.selected.value.items, (i: BoardItem) => i.id != itemId))
  }

  // ---- Properties ----

  /** A target that exists is the grid neighbour: same column one row away, or same row one column away. */
  lemma MovesStayOnGrid(index: int, dir: Direction)
    requires index >= 0 && SwapTarget(index, dir) >= 0
    ensures var t := SwapTarget(index, dir);
      match dir
      case Up => t == index - 4 && t % 4 == index % 4
      case Down => t == index + 4 && t % 4 == index % 4
      case Left => t == index - 1 && t / 4 == index / 4
      case Right => t == index + 1 && t / 4 == index / 4
  {
  }

  /** An item in the first column cannot move left, and one in the last column cannot move right. */
  lemma RowEdgesBlock(index: int)
    requires index >= 0
    ensures index % 4 == 0 <==> SwapTarget(index, Left) == -1
    ensures index % 4 == 3 <==> SwapTarget(index, Right) == -1
  {
  }

  /** A target outside the board leaves the items as they are. */
  lemma OutOfRangeMoveUnchanged(items: seq<BoardItem>, id: int, dir: Direction)
    requires SwapTarget(ItemIndex(items, id), dir) < 0 || SwapTarget(ItemIndex(items, id), dir) >= |items|
    ensures MovedItems(items, id, dir) == items
  {
  }

  /** A valid move exchanges exactly the item and its target cell; everything else stays. */
  lemma ValidMoveSwaps(items: seq<BoardItem>, id: int, dir: Direction)
    requires ValidMove(items, id, dir)
    ensures var i := ItemIndex(items, id);
      var t := SwapTarget(i, dir);
      var r := MovedItems(items, id, dir);
      && |r| == |items| && r[t] == items[i] && r[i] == items[t] && r[t].id == id
      && (forall k :: 0 <= k < |items| && k != i && k != t ==> r[k] == items[k])
      && multiset(r) == multiset(items)
  {
    var i := ItemIndex(items, id);
    var t := SwapTarget(i, dir);
    SwapPermutes(items, i, t);
  }

  lemma SwapPermutes<T>(s: seq<T>, i: int, j: int)
    requires 0 <= i < |s| && 0 <= j < |s|
    ensures multiset(Swapped(s, i, j)) == multiset(s)
  {
    if i != j {
      var s1 := s[i := s[j]];
      UpdateMultiset(s, i, s[j]);
      UpdateMultiset(s1, j, s[i]);
      assert s1[j] == s[j];
    }
  }

  lemma UpdateMultiset<T>(s: seq<T>, i: int, v: T)
    requires 0 <= i < |s|
    ensures multiset(s[i := v]) == multiset(s) - multiset{s[i]} + multiset{v}
  {
    assert s == s[..i] + [s[i]] + s[i + 1..];
    assert s[i := v] == s[..i] + [v] + s[i + 1..];
  }

  /** After a valid move the item is found at its target cell. */
  lemma MovedItemFoundAtTarget(items: seq<BoardItem>, id: int, dir: Direction)
    requires ValidMove(items, id, dir)
    requires SwapTarget(ItemIndex(items, id), dir) < ItemIndex(items, id)
    ensures ItemIndex(MovedItems(items, id, dir), id) == SwapTarget(ItemIndex(items, id), dir)
  {
    var i := ItemIndex(items, id);
    var t := SwapTarget(i, dir);
    var r := MovedItems(items, id, dir);
    assert forall k :: 0 <= k < t ==> r[k] == items[k];
  }

  /** A valid move left followed by a move right of the same item restores the order. */
  lemma LeftThenRightRestores(items: seq<BoardItem>, id: int)
    requires ValidMove(items, id, Left)
    ensures MovedItems(MovedItems(items, id, Left), id, Right) == items
  {
    var i := ItemIndex(items, id);
    var r := MovedItems(items, id, Left);
    MovedItemFoundAtTarget(items, id, Left);
    assert ItemIndex(r, id) == i - 1;
    assert JsRem(i, Cols) != 0;
    assert SwapTarget(i - 1, Right) == i;
  }

  /** A valid move up followed by a move down of the same item restores the order. */
  lemma UpThenDownRestores(items: seq<BoardItem>, id: int)
    requires ValidMove(items, id, Up)
    ensures MovedItems(MovedItems(items, id, Up), id, Down) == items
  {
    var i := ItemIndex(items, id);
    var r := MovedItems(items, id, Up);
    MovedItemFoundAtTarget(items, id, Up);
    assert ItemIndex(r, id) == i - 4;
  }

  /** Replacing items touches only the boards with the selected id and re-selects the updated board. */
  lemma UpdateBoardItemsEffect(p: Page, newItems: seq<BoardItem>)
    requires p.selected.Some?
    ensures var q := UpdateBoardItems(p, newItems);
      var id := p.selected.value.id;
      && |q.boards| == |p.boards|
      && (forall k :: 0 <= k < |p.boards| && p.boards[k].id != id ==> q.boards[k] == p.boards[k])
      && (forall k :: 0 <= k < |p.boards| && p.boards[k].id == id ==> q.boards[k] == p.boards[k].(items := newItems))
      && (q.selected.Some? <==> exists k :: 0 <= k < |p.boards| && p.boards[k].id == id)
      && (q.selected.Some? ==> q.selected.value.id == id && q.selected.value.items == newItems)
  {
    var q := UpdateBoardItems(p, newItems);
    var id := p.selected.value.id;
    if q.selected.None? {
      forall k | 0 <= k < |p.boards| ensures p.boards[k].id != id {
        assert q.boards[k].id == p.boards[k].id;
      }
    } else {
      var k :| 0 <= k < |q.boards| && q.boards[k] == q.selected.value;
      assert q.boards[k].id == p.boards[k].id;
    }
  }

  /** Without a selection, item changes do nothing. */
  lemma NoSelectionNoChange(p: Page, newItems: seq<BoardItem>, id: int, dir: Direction)
    requires p.selected.None?
    ensures UpdateBoardItems(p, newItems) == p && Moved(p, id, dir) == p
  {
  }

  /** A cancelled, empty or blank goal adds nothing; otherwise the trimmed goal is appended in pink. */
  lemma AddTextItemEffect(p: Page, input: Option<string>, freshId: int)
    ensures input.None? || Trim(input.value) == "" ==> TextItemAdded(p, input, freshId) == p
    ensures input.Some? && Trim(input.value) != "" ==>
      TextItemAdded(p, input, freshId) == UpdateBoardItems(p, SelectedItems(p) + [GoalItem(freshId, input.value)])
      && GoalItem(freshId, input.value).content == Some(Trim(input.value))
      && GoalItem(freshId, input.value).color == Some("bg-pink-200")
  {
  }

  /** A cancelled or empty quote adds nothing; otherwise the quote is appended as typed, in green. */
  lemma AddQuoteEffect(p: Page, input: Option<string>, freshId: int)
    ensures input.None? || input.value == "" ==> QuoteAdded(p, input, freshId) == p
    ensures input.Some? && input.value != "" ==>
      QuoteAdded(p, input, freshId) == UpdateBoardItems(p, SelectedItems(p) + [QuoteItem(freshId, input.value)])
      && QuoteItem(freshId, input.value).content == input
      && QuoteItem(freshId, input.value).color == Some("bg-green-200")
  {
  }

  /** The two guards differ: a blank answer is refused as a goal but accepted as a quote. */
  lemma BlankGoalRefusedBlankQuoteKept(b: Board)
    ensures var p := Page([b], Some(b));
      && TextItemAdded(p, Some(" "), 7) == p
      && QuoteAdded(p, Some(" "), 7).selected == Some(b.(items := b.items + [QuoteItem(7, " ")]))
  {
    var p := Page([b], Some(b));
    assert IsSpace(' ');
    assert " "[1..] == "";
  }

  /** Deleting a board from the sidebar removes exactly the boards with that id. */
  lemma DeleteBoardEffect(p: Page, id: int, b: Board)
    ensures var q := BoardDeleted(p, id, true);
      && (b in q.boards <==> b in p.boards && b.id != id)
      && (p.selected.Some? && p.selected.value.id == id ==>
            q.selected == (if |q.boards| > 0 then Some(q.boards[0]) else None))
      && (p.selected.None? || p.selected.value.id != id ==> q.selected == p.selected)
    ensures BoardDeleted(p, id, false) == p
  {
    FilterMembership(p.boards, (c: Board) => c.id != id, b);
  }

  /** The canvas delete removes the selected board and selects the first remaining board, if any. */
  lemma DeleteSelectedBoardEffect(p: Page, b: Board)
    requires p.selected.Some?
    ensures var q := SelectedBoardDeleted(p, true);
      && (b in q.boards <==> b in p.boards && b.id != p.selected.value.id)
      && q.selected == (if |q.boards| > 0 then Some(q.boards[0]) else None)
      && (q.selected.Some? ==> q.selected.value.id != p.selected.value.id)
  {
    FilterMembership(p.boards, (c: Board) => c.id != p.selected.value.id, b);
  }

  /** Deleting an item changes only the selected board, which keeps exactly its other items. */
  lemma DeleteItemEffect(p: Page, itemId: int, item: BoardItem)
    requires p.selected.Some?
    ensures var newItems := Filter(p.selected.value.items, (i: BoardItem) => i.id != itemId);
      && ItemDeleted(p, itemId, true) == UpdateBoardItems(p, newItems)
      && (item in newItems <==> item in p.selected.value.items && item.id != itemId)
  {
    FilterMembership(p.selected.value.items, (i: BoardItem) => i.id != itemId, item);
  }

  /** The first selection is one of the user's boards when they have any, and is absent only without boards. */
  lemma InitialSelectionChoice(boards: seq<Board>, userId: string)
    ensures InitialSelection(boards, userId).None? <==> boards == []
    ensures InitialSelection(boards, userId).Some? ==> InitialSelection(boards, userId).value in boards
    ensures (exists k :: 0 <= k < |boards| && boards[k].userId == userId) ==>
      InitialSelection(boards, userId).value.userId == userId
  {
    var mine := UserBoards(boards, userId);
    if |mine| == 0 && |boards| > 0 {
      assert boards[0] in boards;
    }
  }

  // ---- The absent-id case of moveItem ----

  /** The source's own guard, which looks only at the target cell. */
  predicate SourceGuardPasses(items: seq<BoardItem>, id: int, dir: Direction) {
    var t := SwapTarget(ItemIndex(items, id), dir);
    !(t < 0 || t >= |items|)
  }

  /**
   * With at least four items, moving an absent id down passes the source's guard:
   * the index is -1, the target is 3, and the swap would write outside the list.
   */
  lemma AbsentIdPassesSourceGuard(items: seq<BoardItem>, id: int)
    requires |items| >= 4 && forall k :: 0 <= k < |items| ==> items[k].id != id
    ensures ItemIndex(items, id) == -1 && SwapTarget(-1, Down) == 3
    ensures SourceGuardPasses(items, id, Down)
  {
  }

  /** In the model an absent id never moves anything, in any direction. */
  lemma AbsentIdMoveUnchanged(items: seq<BoardItem>, id: int, dir: Direction)
    requires forall k :: 0 <= k < |items| ==> items[k].id != id
    ensures !ValidMove(items, id, dir) && MovedItems(items, id, dir) == items
  {
  }

  /** The page: both fields are replaced together, as the source's `setBoards`/`setSelectedBoard` pairs do. */
  class BoardPage {
    var boards: seq<Board>
    var selected: Option<Board>

    function State(): Page
      reads this
    {
      Page(boards, selected)
    }

    /** The page opens on the given boards (loaded or seeded) and selects one of the user's. */
    constructor (initial: seq<Board>, userId: string)
      ensures State() == Page(initial, InitialSelection(initial, userId))
    {
      boards := initial;
      selected := InitialSelection(initial, userId);
    }

    method Select(b: Board)
      modifies this
      ensures State() == Page(old(boards), Some(b))
    {
      selected := Some(b);
    }

    method SetState(q: Page)
      modifies this
      ensures State() == q
    {
      boards := q.boards;
      selected := q.selected;
    }

    /** `moveItem`. */
    method MoveItem(id: int, dir: Direction)
      modifies this
      ensures State() == Moved(old(State()), id, dir)
    {
      if selected.None? {
        return;
      }
      var moved, newItems := MoveItems(selected.value.items, id, dir);
      if !moved {
        return;
      }
      SetState(UpdateBoardItems(State(), newItems));
    }

    method AddTextItem(input: Option<string>, freshId: int)
      modifies this
      ensures State() == TextItemAdded(old(State()), input, freshId)
    {
      SetState(TextItemAdded(State(), input, freshId));
    }

    method AddQuote(input: Option<string>, freshId: int)
      modifies this
      ensures State() == QuoteAdded(old(State()), input, freshId)
    {
      SetState(QuoteAdded(State(), input, freshId));
    }

    method DeleteBoard(id: int, confirmed: bool)
      modifies this
      ensures State() == BoardDeleted(old(State()), id, confirmed)
    {
      if !confirmed {
        return;
      }
      var wasSelected := selected.Some? && selected.value.id == id;
      boards := Filter(boards, (b: Board) => b.id != id);
      if wasSelected {
        selected := if |boards| > 0 then Some(boards[0]) else None;
      }
    }

    method DeleteSelectedBoard(confirmed: bool)
      modifies this
      ensures State() == SelectedBoardDeleted(old(State()), confirmed)
    {
      SetState(SelectedBoardDeleted(State(), confirmed));
    }

    method DeleteItem(itemId: int, confirmed: bool)
      modifies this
      ensures State() == ItemDeleted(old(State()), itemId, confirmed)
    {
      SetState(ItemDeleted(State(), itemId, confirmed));
    }
  }
}
