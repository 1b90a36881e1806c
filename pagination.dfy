/**
 * Pages of query results (pagination.go): a page records its position, its size,
 * how many elements there are in all and how many pages that makes.
 */
module Pagination {
  import opened Wrappers
  import opened Frames

  /**
   * `int(math.Ceil(float64(a) / float64(b)))`. The source divides in float64, which gives
   * the exact ceiling on integers below 2^53 in magnitude; here it is exact for all integers.
   */
  function CeilDiv(a: int, b: int): int
    requires b != 0
  {
    if b > 0 then -((-a) / b) else -(a / (-b))
  }

  /** For a positive size the page count is the least count whose pages hold every element. */
  lemma CeilDivCovers(totalElements: int, size: int)
    requires size > 0
    ensures CeilDiv(totalElements, size) * size >= totalElements
    ensures (CeilDiv(totalElements, size) - 1) * size < totalElements
  {
    var q := (-totalElements) / size;
    var r := (-totalElements) % size;
    assert -totalElements == q * size + r && 0 <= r < size;
    assert CeilDiv(totalElements, size) == -q;
    assert -q * size == totalElements + r;
    assert (-q - 1) * size == totalElements + r - size;
  }

  /** For a negative size the count is the ceiling of the quotient likewise. */
  lemma CeilDivNegative(totalElements: int, size: int)
    requires size < 0
    ensures CeilDiv(totalElements, size) * size <= totalElements
    ensures (CeilDiv(totalElements, size) - 1) * size > totalElements
  {
    var q := totalElements / (-size);
    var r := totalElements % (-size);
    assert totalElements == q * (-size) + r && 0 <= r < -size;
    assert CeilDiv(totalElements, size) == -q;
    assert -q * size == totalElements - r;
    assert (-q - 1) * size == totalElements - r - size;
  }

  /** No elements make no pages, whatever the size. */
  lemma CeilDivZero(size: int)
    requires size != 0
    ensures CeilDiv(0, size) == 0
  {
  }

  /** When the size divides the element count the page count is the exact quotient. */
  lemma CeilDivExact(pages: int, size: int)
    requires size > 0
    ensures CeilDiv(pages * size, size) == pages
  {
    CeilDivCovers(pages * size, size);
    var c := CeilDiv(pages * size, size);
    assert (c - pages) * size >= 0;
    PositiveFactor(c - pages, size);
    assert (pages + 1 - c) * size > 0;
    PositiveFactor(pages + 1 - c, size);
  }

  /** A product with a positive factor has the sign of the other factor. */
  lemma PositiveFactor(x: int, y: int)
    requires y > 0
    ensures x * y >= 0 ==> x >= 0
    ensures x * y > 0 ==> x > 0
  {
    if x < 0 {
      assert x * y <= -y by {
        assert (-x - 1) * y >= 0;
      }
    }
  }

  /** A page of data (`Page`, with the embedded `Pageable`). A nil content slice is `None`. */
  class Page {
    var index: int
    var size: int
    var totalElements: int
    var totalPages: int
    var content: Option<seq<Value>>

    /** `NewPage()`: every number 0 and an empty, non-nil content. */
    constructor ()
      ensures index == 0 && size == 0 && totalElements == 0 && totalPages == 0
      ensures content == Some([])
    {
      index := 0;
      size := 0;
      totalElements := 0;
      totalPages := 0;
      content := Some([]);
    }

    /** `Compute()`: sets the page count from the size and the element count, and nothing else. */
    method Compute()
      modifies this
      ensures size == 0 ==> totalPages == 0
      ensures size != 0 ==> totalPages == CeilDiv(totalElements, size)
      ensures index == old(index) && size == old(size) && totalElements == old(totalElements)
      ensures content == old(content)
    {
      if size == 0 {
        totalPages := 0;
      } else {
        totalPages := CeilDiv(totalElements, size);
      }
    }
  }
}
