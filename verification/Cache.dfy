/** The best-price cache: one slot per side, each with its own validity flag. */
module Cache {
  import opened Types

  class PriceLevelCache {
    var bestBidPrice: Price
    var bestAskPrice: Price
    var bidValid: bool
    var askValid: bool

    /** A valid slot holds the true best price of its side; an invalid one says nothing. */
    ghost predicate Coherent(bestBid: Option<Price>, bestAsk: Option<Price>)
      reads this
    {
      && (bidValid ==> bestBid == Some(bestBidPrice))
      && (askValid ==> bestAsk == Some(bestAskPrice))
    }

    ghost predicate Void()
      reads this
    {
      !bidValid && !askValid
    }

    constructor ()
      ensures Void()
    {
      bestBidPrice, bestAskPrice, bidValid, askValid := 0, 0, false, false;
    }

    method Invalidate()
      modifies this
      ensures Void()
    {
      bidValid := false;
      askValid := false;
    }

    method GetCachedBestBid() returns (price: Option<Price>)
      ensures price == if bidValid then Some(bestBidPrice) else None
    {
      if bidValid {
        price := Some(bestBidPrice);
      } else {
        price := None;
      }
    }

    method GetCachedBestAsk() returns (price: Option<Price>)
      ensures price == if askValid then Some(bestAskPrice) else None
    {
      if askValid {
        price := Some(bestAskPrice);
      } else {
        price := None;
      }
    }

    /** Refill the bid slot with the true best bid; the ask slot is never touched. */
    method UpdateBestBid(best: Option<Price>)
      modifies this`bestBidPrice, this`bidValid
      ensures best == if bidValid then Some(bestBidPrice) else None
    {
      match best {
        case Some(price) =>
          bestBidPrice := price;
          bidValid := true;
        case None =>
          bidValid := false;
      }
    }

    method UpdateBestAsk(best: Option<Price>)
      modifies this`bestAskPrice, this`askValid
      ensures best == if askValid then Some(bestAskPrice) else None
    {
      match best {
        case Some(price) =>
          bestAskPrice := price;
          askValid := true;
        case None =>
          askValid := false;
      }
    }
  }
}
