/** Access classes, the payload variant of each, and one counter per class. */
module Classes {

  datatype Option<+T> = None | Some(value: T)

  datatype AccessClass = HIGH | MEDIUM | LOW {
    function Rank(): (r: nat)
      ensures r <= 2
    {
      match this case HIGH => 0 case MEDIUM => 1 case LOW => 2
    }
  }

  function Downgrade(c: AccessClass): AccessClass {
    if c == HIGH then MEDIUM else LOW
  }

  datatype Variant = Full | Reduced | Essential {
    /** The order of the payload sizes that the delivery budgets give the three variants. */
    function Weight(): nat {
      match this case Full => 2 case Reduced => 1 case Essential => 0
    }
  }

  function VariantFor(c: AccessClass): Variant {
    if c == HIGH then Full else if c == MEDIUM then Reduced else Essential
  }

  /** A dictionary with one integer per class. */
  datatype Tally = Tally(high: int, medium: int, low: int) {
    function Get(c: AccessClass): int {
      match c case HIGH => high case MEDIUM => medium case LOW => low
    }

    function Add(c: AccessClass, d: int): Tally {
      match c
      case HIGH => this.(high := high + d)
      case MEDIUM => this.(medium := medium + d)
      case LOW => this.(low := low + d)
    }
  }

  const ZERO_TALLY := Tally(0, 0, 0)
}
