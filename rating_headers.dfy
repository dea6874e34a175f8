/**
  * The layout of an ampacity table's header: two columns per insulation
  * temperature rating, in the order of the ratings, the engine-room column
  * second. Names are kept abstract here; the wire module supplies them.
  */
module RatingHeaders {
  import opened Wrappers
  import opened Frames

  /** The position of a known rating in the list of known ratings. */
  function RatingRank(known: seq<int>, tempC: int): (k: nat)
    requires tempC in known
    ensures k < |known| && known[k] == tempC
    ensures forall a :: 0 <= a < k ==> known[a] != tempC
  {
    if known[0] == tempC then 0 else 1 + RatingRank(known[1..], tempC)
  }

  /** Where a rating's column sits: two columns per rating, the engine-room one second. */
  function ColumnPosition(known: seq<int>, tempC: int, engineRoom: bool): nat
    requires tempC in known
  {
    2 * RatingRank(known, tempC) + if engineRoom then 1 else 0
  }

  /**
    * The header of an ampacity table over the given ratings: for each
    * rating in order, its column and then its engine-room column.
    */
  function RatingHeader<L>(known: seq<int>, name: (int, bool) -> L): (h: seq<L>)
    ensures |h| == 2 * |known|
  {
    if known == [] then []
    else [name(known[0], false), name(known[0], true)] + RatingHeader(known[1..], name)
  }

  /** The k-th rating's two columns sit at positions 2k and 2k + 1 of the header. */
  lemma {:induction false} RatingHeaderAt<L>(known: seq<int>, name: (int, bool) -> L, k: nat)
    requires k < |known|
    ensures RatingHeader(known, name)[2 * k] == name(known[k], false)
    ensures RatingHeader(known, name)[2 * k + 1] == name(known[k], true)
  {
    if k > 0 {
      RatingHeaderAt(known[1..], name, k - 1);
    }
  }

  /** The name of a rating's column differs from its other column's name and from every other rating's names. */
  predicate NamesSeparate<L(==)>(known: seq<int>, name: (int, bool) -> L, tempC: int, engineRoom: bool) {
    name(tempC, !engineRoom) != name(tempC, engineRoom)
    && forall a :: 0 <= a < |known| && known[a] != tempC ==>
         name(known[a], false) != name(tempC, engineRoom) && name(known[a], true) != name(tempC, engineRoom)
  }

  /** Before a rating's own column, no column of the header carries its name. */
  lemma RatingHeaderNoEarlierMatch<L>(known: seq<int>, name: (int, bool) -> L, tempC: int, engineRoom: bool, i: nat)
    requires NamesSeparate(known, name, tempC, engineRoom)
    requires tempC in known
    requires i < ColumnPosition(known, tempC, engineRoom)
    ensures RatingHeader(known, name)[i] != name(tempC, engineRoom)
  {
    var a := i / 2;
    RatingHeaderAt(known, name, a);
    assert i == 2 * a || i == 2 * a + 1;
    if a < RatingRank(known, tempC) {
      assert known[a] != tempC;
    }
  }

  /** In a header whose names tell the ratings apart, a known rating's name is found at its position. */
  lemma RatingHeaderLocatesRating<L>(known: seq<int>, name: (int, bool) -> L, tempC: int, engineRoom: bool)
    requires NamesSeparate(known, name, tempC, engineRoom)
    requires tempC in known
    ensures ColumnIndex(RatingHeader(known, name), name(tempC, engineRoom))
         == Some(ColumnPosition(known, tempC, engineRoom))
  {
    var h, n, k := RatingHeader(known, name), name(tempC, engineRoom), RatingRank(known, tempC);
    var j := ColumnPosition(known, tempC, engineRoom);
    RatingHeaderAt(known, name, k);
    forall i | 0 <= i < j
      ensures h[i] != n
    {
      RatingHeaderNoEarlierMatch(known, name, tempC, engineRoom, i);
    }
    ColumnIndexAt(h, n, j);
  }
}
