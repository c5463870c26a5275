/** The dots-and-boxes sample bot (samples/pencilbot.py): a board kept from turn to turn is
    the board rebuilt from the histories. */
module Pencil {

  const SIZE: int := 11

  /** A move as sent; anything that is not two numbers is no move. */
  datatype Move = NoMove | Move(x: int, y: int)

  const PASS: Move := Move(-1, -1)

  /** True is an edge not drawn yet. */
  type Board = seq<seq<bool>>

  predicate Shaped(board: Board) {
    |board| == SIZE && forall x :: 0 <= x < SIZE ==> |board[x]| == SIZE
  }

  predicate IsEdge(m: Move) {
    m.Move? && 0 <= m.x < SIZE && 0 <= m.y < SIZE && (m.x + m.y) % 2 == 1
  }

  /** An edge is between a row and a column line of a board of eleven each way: one coordinate is
      odd and the other even. Passing is no edge. */
  lemma EdgesOfTheBoard(m: Move)
    ensures IsEdge(m) <==> m.Move? && 0 <= m.x <= 10 && 0 <= m.y <= 10 && (m.x % 2 == 0 <==> m.y % 2 == 1)
    ensures !IsEdge(PASS) && PASS.Move? && PASS.x == -1 && PASS.y == -1
  {
  }

  function MakeBoard(): Board {
    seq(SIZE, x => seq(SIZE, y => (x + y) % 2 == 1))
  }

  function Marked(board: Board, m: Move): (r: Board)
    requires Shaped(board)
    ensures Shaped(r)
  {
    if IsEdge(m) then board[m.x := board[m.x][m.y := false]] else board
  }

  /** The board after some moves, by replay. */
  function Replayed(moves: seq<Move>): (r: Board)
    ensures Shaped(r)
  {
    if |moves| == 0 then MakeBoard() else Marked(Replayed(moves[..|moves| - 1]), moves[|moves| - 1])
  }

  /** An edge is free exactly if no move has drawn it: the order of the moves does not matter. */
  lemma {:induction false} FreeUnlessDrawn(moves: seq<Move>, x: int, y: int)
    requires 0 <= x < SIZE && 0 <= y < SIZE
    ensures Replayed(moves)[x][y] <==> IsEdge(Move(x, y)) && Move(x, y) !in moves
    decreases |moves|
  {
    if |moves| > 0 {
      var init := moves[..|moves| - 1];
      FreeUnlessDrawn(init, x, y);
      assert moves == init + [moves[|moves| - 1]];
    }
  }

  lemma SameMovesSameBoard(a: seq<Move>, b: seq<Move>)
    requires forall m :: m in a <==> m in b
    ensures Replayed(a) == Replayed(b)
  {
    forall x, y | 0 <= x < SIZE && 0 <= y < SIZE
      ensures Replayed(a)[x][y] == Replayed(b)[x][y]
    {
      FreeUnlessDrawn(a, x, y);
      FreeUnlessDrawn(b, x, y);
    }
    forall x | 0 <= x < SIZE
      ensures Replayed(a)[x] == Replayed(b)[x]
    {
    }
  }

  /** The free edges in order, from which one is picked at random. */
  function Legal(board: Board, n: nat): (moves: seq<Move>)
    requires Shaped(board) && n <= SIZE * SIZE
    ensures forall m :: m in moves ==> m.Move? && 0 <= m.x < SIZE && 0 <= m.y < SIZE && board[m.x][m.y]
    ensures forall k :: 0 <= k < n && board[k / SIZE][k % SIZE] ==> Move(k / SIZE, k % SIZE) in moves
  {
    if n == 0 then []
    else
      Legal(board, n - 1)
      + (if board[(n - 1) / SIZE][(n - 1) % SIZE] then [Move((n - 1) / SIZE, (n - 1) % SIZE)] else [])
  }

  class Bot {
    var board: Board
    /** Every move marked since the board was made. */
    ghost var drawn: seq<Move>

    ghost predicate Valid()
      reads this
    {
      board == Replayed(drawn)
    }

    constructor ()
      ensures Valid() && drawn == []
    {
      board, drawn := MakeBoard(), [];
    }

    method Mark(m: Move)
      requires Valid()
      modifies this
      ensures Valid() && drawn == old(drawn) + [m]
    {
      drawn := drawn + [m];
      assert drawn[..|drawn| - 1] == old(drawn);
      if m.Move? && 0 <= m.x < SIZE && 0 <= m.y < SIZE && (m.x + m.y) % 2 == 1 {
        board := board[m.x := board[m.x][m.y := false]];
      }
    }

    /** A turn with one request: it is marked on the board as it stands. */
    method LoadRequest(request: Move)
      requires Valid()
      modifies this
      ensures Valid() && drawn == old(drawn) + [request]
    {
      Mark(request);
    }

    /** A turn with full histories: the board is made anew from them. */
    method LoadHistory(requests: seq<Move>, responses: seq<Move>)
      requires Valid()
      modifies this
      ensures Valid() && drawn == requests + responses
    {
      board, drawn := MakeBoard(), [];
      for i := 0 to |requests|
        invariant Valid() && drawn == requests[..i]
      {
        Mark(requests[i]);
      }
      for i := 0 to |responses|
        invariant Valid() && drawn == requests + responses[..i]
      {
        Mark(responses[i]);
      }
    }

    /** A free edge, drawn now, or a pass if it is asked for or no edge is free. */
    method ChooseMove(mustPass: bool, pick: nat) returns (m: Move)
      requires Valid()
      modifies this
      ensures Valid() && drawn == old(drawn) + [m]
      ensures m != PASS ==> IsEdge(m) && m !in old(drawn)
      ensures m != PASS ==>
                var legal := Legal(old(board), SIZE * SIZE);
                |legal| > 0 && m == legal[pick % |legal|]
      ensures m == PASS <==> mustPass || forall e :: IsEdge(e) ==> e in old(drawn)
    {
      var legal := Legal(board, SIZE * SIZE);
      assert forall e :: e in legal <==> IsEdge(e) && e !in drawn by {
        LegalIsFree(drawn);
      }
      if mustPass || |legal| == 0 {
        drawn := drawn + [PASS];
        assert drawn[..|drawn| - 1] == old(drawn);
        return PASS;
      }
      m := legal[pick % |legal|];
      drawn := drawn + [m];
      assert drawn[..|drawn| - 1] == old(drawn);
      board := board[m.x := board[m.x][m.y := false]];
    }
  }

  lemma LegalIsFree(moves: seq<Move>)
    ensures forall e :: e in Legal(Replayed(moves), SIZE * SIZE) <==> IsEdge(e) && e !in moves
  {
    forall e
      ensures e in Legal(Replayed(moves), SIZE * SIZE) <==> IsEdge(e) && e !in moves
    {
      if e.Move? && 0 <= e.x < SIZE && 0 <= e.y < SIZE {
        FreeUnlessDrawn(moves, e.x, e.y);
        var k := e.x * SIZE + e.y;
        assert k / SIZE == e.x && k % SIZE == e.y;
      }
    }
  }

  /** The edge chosen at a turn was free: not drawn by the opponent so far, nor chosen before. */
  ghost predicate Novel(requests: seq<Move>, responses: seq<Move>, i: nat)
    requires i < |responses| <= |requests|
  {
    responses[i] != PASS ==>
      IsEdge(responses[i]) && responses[i] !in requests[..i + 1] && responses[i] !in responses[..i]
  }

  /** The board that the full histories of turn i rebuild. */
  ghost function Rebuilt(requests: seq<Move>, responses: seq<Move>, i: nat): Board
    requires i < |requests| && i <= |responses|
  {
    Replayed(requests[..i + 1] + responses[..i])
  }

  lemma OneMoreResponse(requests: seq<Move>, responses: seq<Move>, m: Move, i: nat)
    requires i <= |responses| < |requests|
    ensures Rebuilt(requests, responses + [m], i) == Rebuilt(requests, responses, i)
    ensures i < |responses| ==> (Novel(requests, responses, i) <==> Novel(requests, responses + [m], i))
  {
    assert (responses + [m])[..i] == responses[..i];
  }

  /** A whole game with one request a turn: at every turn the bot chooses on the board that the
      full histories would rebuild, and no edge is chosen twice or after the opponent drew it. */
  method PlayGame(requests: seq<Move>, passes: seq<bool>, picks: seq<nat>)
    returns (responses: seq<Move>, ghost boards: seq<Board>)
    requires |passes| == |requests| && |picks| == |requests|
    ensures |responses| == |boards| == |requests|
    ensures forall i :: 0 <= i < |requests| ==> boards[i] == Rebuilt(requests, responses, i)
    ensures forall i :: 0 <= i < |requests| ==> Novel(requests, responses, i)
  {
    var bot := new Bot();
    responses, boards := [], [];
    for i := 0 to |requests|
      invariant bot.Valid() && fresh(bot) && |responses| == |boards| == i
      invariant forall m :: m in bot.drawn <==> m in requests[..i] || m in responses
      invariant forall k :: 0 <= k < i ==> boards[k] == Rebuilt(requests, responses, k)
      invariant forall k :: 0 <= k < i ==> Novel(requests, responses, k)
    {
      bot.LoadRequest(requests[i]);
      SameMovesSameBoard(bot.drawn, requests[..i + 1] + responses);
      assert responses[..i] == responses;
      boards := boards + [bot.board];
      var m := bot.ChooseMove(passes[i], picks[i]);
      forall k | 0 <= k <= i
        ensures boards[k] == Rebuilt(requests, responses + [m], k) && Novel(requests, responses + [m], k)
      {
        OneMoreResponse(requests, responses, m, k);
      }
      responses := responses + [m];
    }
  }
}
