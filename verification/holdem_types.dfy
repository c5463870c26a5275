/** Heads-up Texas Hold'em vocabulary shared by the referee and by the sample bots. */
module HoldemTypes {

  const STARTING_STACK: int := 20000
  const SMALL_BLIND: int := 50
  const BIG_BLIND: int := 100

  type Seat = i: int | 0 <= i < 2

  function Other(i: Seat): Seat {
    1 - i
  }

  /** One value per seat: the two-element lists of the source. */
  datatype Both<T> = Both(first: T, second: T) {
    function Of(i: Seat): T {
      if i == 0 then first else second
    }

    function With(i: Seat, v: T): Both<T> {
      if i == 0 then Both(v, second) else Both(first, v)
    }
  }

  datatype Kind = Fold | Check | Call | Raise | AllIn

  /** One entry of the published betting history. */
  datatype Record = Record(round: int, player: Seat, action: int, kind: Kind)

  function Max(a: int, b: int): int {
    if a < b then b else a
  }

  function Min(a: int, b: int): int {
    if a < b then a else b
  }
}
