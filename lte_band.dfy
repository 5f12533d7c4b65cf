/**
 * A model of the LTE band classifier: one record per LTE band, the two
 * open-interval containment tests, the fixed band table and the lookup that
 * maps an EARFCN (E-UTRA Absolute Radio Frequency Channel Number, section
 * 5.7.3 of 3GPP TS 36.101) to the band that contains it.
 *
 * The source works on IEEE-754 doubles; this model uses exact reals.
 */
module LteBand {

  datatype Option<+T> = None | Some(value: T)

  /** The two directions of a band: network to device and device to network. */
  datatype Direction = Downlink | Uplink

  /**
   * One band record. The four bounds are carrier frequencies in MHz; the two
   * offsets are the EARFCNs of the lower bounds. The source never changes a
   * record after construction, so it is a value here.
   */
  datatype Band = Band(
    number: int,
    ulLower: real, ulUpper: real,
    dlLower: real, dlUpper: real,
    ulOffset: real, dlOffset: real)
  {
    /** Uplink carrier frequency of EARFCN e (3GPP TS 36.101, section 5.7.3). */
    function UlFrequency(e: real): real { ulLower + (e - ulOffset) / 10.0 }

    /** Downlink carrier frequency of EARFCN e (3GPP TS 36.101, section 5.7.3). */
    function DlFrequency(e: real): real { dlLower + (e - dlOffset) / 10.0 }

    /** End of the uplink EARFCN interval: ten channels per MHz of width. */
    function UlEnd(): real { ulOffset + (ulUpper - ulLower) * 10.0 }

    /** End of the downlink EARFCN interval. */
    function DlEnd(): real { dlOffset + (dlUpper - dlLower) * 10.0 }

    /**
     * containsULEarfcn: e lies strictly inside the uplink interval, that is,
     * its uplink carrier frequency lies strictly between the two bounds.
     */
    predicate ContainsUL(e: real)
      ensures ContainsUL(e) <==> ulLower < UlFrequency(e) < ulUpper
      ensures ContainsUL(e) ==> e != ulOffset && e != UlEnd()
      ensures ulUpper <= ulLower ==> !ContainsUL(e)
    {
      e > ulOffset && e < UlEnd()
    }

    /** containsDLEarfcn: the same open interval, built from the downlink fields. */
    predicate ContainsDL(e: real)
      ensures ContainsDL(e) <==> dlLower < DlFrequency(e) < dlUpper
      ensures ContainsDL(e) ==> e != dlOffset && e != DlEnd()
      ensures dlUpper <= dlLower ==> !ContainsDL(e)
    {
      e > dlOffset && e < DlEnd()
    }

    function Start(d: Direction): real {
      if d == Downlink then dlOffset else ulOffset
    }

    function End(d: Direction): real {
      if d == Downlink then DlEnd() else UlEnd()
    }

    /** The containment test of direction d. */
    predicate Contains(d: Direction, e: real) {
      if d == Downlink then ContainsDL(e) else ContainsUL(e)
    }
  }

  /** The all-zero band 0: the table's sentinel and the lookup's fallback. */
  const Unknown := Band(0, 0.0, 0.0, 0.0, 0.0, 0.0, 0.0)

  /** The band table, entries in the order they are put into the map. */
  const Bands: seq<Band> := seq(42, k => Entry(k))

  /**
   * Entry k of the band table: the k-th put in source order. Entries 0 to 40
   * are the real bands; entry 41, like every index outside, is the all-zero
   * band 0. The TDD bands (33 and above) share one offset for both directions.
   */
  function Entry(k: int): (r: Band)
    ensures (r == Unknown) <==> !(0 <= k < 41)
    ensures 0 <= k < 41 ==> r.number > 0
    ensures r.number >= 33 ==> r.ulOffset == r.dlOffset
  {
    match k
    case 0 => Band(1, 1920.0, 1980.0, 2110.0, 2170.0, 18000.0, 0.0)
    case 1 => Band(2, 1850.0, 1910.0, 1930.0, 1990.0, 18600.0, 600.0)
    case 2 => Band(3, 1710.0, 1785.0, 1805.0, 1880.0, 19200.0, 1200.0)
    case 3 => Band(4, 1710.0, 1755.0, 2110.0, 2155.0, 19950.0, 1950.0)
    case 4 => Band(5, 824.0, 849.0, 869.0, 894.0, 20400.0, 2400.0)
    case 5 => Band(6, 830.0, 840.0, 875.0, 885.0, 20650.0, 2650.0)
    case 6 => Band(7, 2500.0, 2570.0, 2620.0, 2690.0, 20750.0, 2750.0)
    case 7 => Band(8, 880.0, 915.0, 925.0, 960.0, 21450.0, 3450.0)
    case 8 => Band(9, 1749.9, 1784.9, 1844.9, 1879.9, 21800.0, 3800.0)
    case 9 => Band(10, 1710.0, 1770.0, 2110.0, 2170.0, 22150.0, 4150.0)
    case 10 => Band(11, 1427.0, 1447.9, 1475.9, 1495.9, 22750.0, 4750.0)
    case 11 => Band(12, 699.0, 716.0, 729.0, 746.0, 23010.0, 5010.0)
    case 12 => Band(13, 777.0, 787.0, 746.0, 756.0, 23180.0, 5180.0)
    case 13 => Band(14, 788.0, 798.0, 758.0, 768.0, 23280.0, 5280.0)
    case 14 => Band(17, 704.0, 716.0, 734.0, 746.0, 23730.0, 5730.0)
    case 15 => Band(18, 815.0, 830.0, 860.0, 875.0, 23850.0, 5850.0)
    case 16 => Band(19, 830.0, 845.0, 875.0, 890.0, 24000.0, 6000.0)
    case 17 => Band(20, 832.0, 862.0, 791.0, 821.0, 24150.0, 6150.0)
    case 18 => Band(21, 1447.9, 1462.9, 1495.9, 1510.9, 24450.0, 6450.0)
    case 19 => Band(22, 3410.0, 3490.0, 3510.0, 3590.0, 24600.0, 6600.0)
    case 20 => Band(23, 2000.0, 2020.0, 2180.0, 2200.0, 25500.0, 7500.0)
    case 21 => Band(24, 1626.5, 1660.5, 1525.0, 1559.0, 25700.0, 7700.0)
    case 22 => Band(25, 1850.0, 1915.0, 1930.0, 1995.0, 26040.0, 8040.0)
    case 23 => Band(26, 814.0, 849.0, 859.0, 894.0, 26690.0, 8690.0)
    case 24 => Band(27, 807.0, 824.0, 852.0, 869.0, 27040.0, 9040.0)
    case 25 => Band(28, 703.0, 748.0, 758.0, 803.0, 27210.0, 9210.0)
    case 26 => Band(29, 0.0, 0.0, 717.0, 728.0, 0.0, 9660.0)
    case 27 => Band(30, 2305.0, 2315.0, 2350.0, 2360.0, 27660.0, 9770.0)
    case 28 => Band(31, 452.5, 457.5, 462.5, 467.5, 27760.0, 9870.0)
    case 29 => Band(33, 1900.0, 1920.0, 1900.0, 1920.0, 36000.0, 36000.0)
    case 30 => Band(34, 2010.0, 2025.0, 2010.0, 2025.0, 36200.0, 36200.0)
    case 31 => Band(35, 1850.0, 1910.0, 1850.0, 1910.0, 36350.0, 36350.0)
    case 32 => Band(36, 1930.0, 1990.0, 1930.0, 1990.0, 36950.0, 36950.0)
    case 33 => Band(37, 1910.0, 1930.0, 1910.0, 1930.0, 37550.0, 37550.0)
    case 34 => Band(38, 2570.0, 2620.0, 2570.0, 2620.0, 37750.0, 37750.0)
    case 35 => Band(39, 1880.0, 1920.0, 1880.0, 1920.0, 38250.0, 38250.0)
    case 36 => Band(40, 2300.0, 2400.0, 2300.0, 2400.0, 38650.0, 38650.0)
    case 37 => Band(41, 2496.0, 2690.0, 2496.0, 2690.0, 39650.0, 39650.0)
    case 38 => Band(42, 3400.0, 2600.0, 2400.0, 3600.0, 41590.0, 41590.0)
    case 39 => Band(43, 3600.0, 3800.0, 3600.0, 3800.0, 43590.0, 43590.0)
    case 40 => Band(44, 703.0, 803.0, 703.0, 803.0, 45590.0, 45590.0)
    case _ => Band(0, 0.0, 0.0, 0.0, 0.0, 0.0, 0.0)
  }

  /**
   * The direction the lookup searches for e: downlink for 0 < e < 18000,
   * uplink for 18000 <= e <= 65535, none outside both ranges.
   */
  function DirectionOf(e: real): (r: Option<Direction>)
    ensures r == None <==> e <= 0.0 || e > 65535.0
    ensures r.Some? ==> (r.value == Downlink <==> e < 18000.0)
  {
    if 0.0 < e < 18000.0 then Some(Downlink)
    else if 18000.0 <= e <= 65535.0 then Some(Uplink)
    else None
  }

  /**
   * The loop of the lookup with its early return: the index of the first band
   * of `order` whose interval in direction d contains e, or |order| if none.
   */
  function FirstMatch(order: seq<Band>, d: Direction, e: real): (i: nat)
    ensures i <= |order|
    ensures i < |order| ==> order[i].Contains(d, e)
    ensures forall k | 0 <= k < i :: !order[k].Contains(d, e)
    decreases |order|
  {
    if order == [] || order[0].Contains(d, e) then 0
    else 1 + FirstMatch(order[1..], d, e)
  }

  /**
   * What the lookup may answer for e when the table's values are `order`:
   * band 0 outside both ranges; otherwise a band of `order` containing e in
   * the selected direction, or band 0 when no band of `order` contains it.
   */
  ghost predicate Answers(order: seq<Band>, e: real, r: Band) {
    match DirectionOf(e)
    case None => r == Unknown
    case Some(d) =>
      || (r in order && r.Contains(d, e))
      || (r == Unknown && forall b | b in order :: !b.Contains(d, e))
  }

  /** GetBandFromEarfcn when the map's values are visited in the order `order`. */
  function Lookup(order: seq<Band>, e: real): (r: Band)
    ensures Answers(order, e, r)
    ensures e <= 0.0 || e > 65535.0 ==> r == Unknown
  {
    match DirectionOf(e)
    case None => Unknown
    case Some(d) =>
      var i := FirstMatch(order, d, e);
      if i < |order| then order[i] else Unknown
  }

  /** GetBandFromEarfcn, visiting the table in the order of its entries. */
  method GetBandFromEarfcn(e: real) returns (r: Band)
    ensures Answers(Bands, e, r)
    ensures r == Lookup(Bands, e)
  {
    r := Unknown;
    if 0.0 < e < 18000.0 {
      for i := 0 to |Bands|
        invariant forall k | 0 <= k < i :: !Bands[k].ContainsDL(e)
      {
        if Bands[i].ContainsDL(e) {
          r := Bands[i];
          AnswerUnique(e, r, Lookup(Bands, e));
          return;
        }
      }
    } else if 18000.0 <= e <= 65535.0 {
      for i := 0 to |Bands|
        invariant forall k | 0 <= k < i :: !Bands[k].ContainsUL(e)
      {
        if Bands[i].ContainsUL(e) {
          r := Bands[i];
          AnswerUnique(e, r, Lookup(Bands, e));
          return;
        }
      }
    }
    AnswerUnique(e, r, Lookup(Bands, e));
  }

  // ---------------------------------------------------------------------
  // Disjointness of the table's intervals inside the searched ranges
  // ---------------------------------------------------------------------

  /** b's interval in direction d is non-empty and starts below `ceiling`. */
  predicate Relevant(b: Band, d: Direction, ceiling: real) {
    b.Start(d) < b.End(d) && b.Start(d) < ceiling
  }

  /**
   * One entry of a chain: a relevant interval starts at or above the running
   * bound lo and raises it to its own end hi; any other entry keeps it.
   */
  predicate ChainStep(b: Band, d: Direction, ceiling: real, lo: real, hi: real) {
    if Relevant(b, d, ceiling) then lo <= b.Start(d) && hi == b.End(d) else hi == lo
  }

  /**
   * The relevant intervals of s, taken in order, lie one after the other;
   * `floors` holds the running bound before and after each entry.
   */
  ghost predicate ChainedBy(s: seq<Band>, d: Direction, ceiling: real, floors: seq<real>) {
    && |floors| == |s| + 1
    && forall k | 0 <= k < |s| :: ChainStep(s[k], d, ceiling, floors[k], floors[k + 1])
  }

  /** The running bound of a chain never decreases. */
  lemma {:induction false} FloorsRise(s: seq<Band>, d: Direction, ceiling: real, floors: seq<real>, i: nat, j: nat)
    requires ChainedBy(s, d, ceiling, floors)
    requires i <= j <= |s|
    ensures floors[i] <= floors[j]
    decreases j - i
  {
    if i < j {
      assert ChainStep(s[i], d, ceiling, floors[i], floors[i + 1]);
      FloorsRise(s, d, ceiling, floors, i + 1, j);
    }
  }

  /** In a chain no value up to the ceiling lies in two intervals. */
  lemma ChainedDisjoint(s: seq<Band>, d: Direction, ceiling: real, floors: seq<real>, i: nat, j: nat, e: real)
    requires ChainedBy(s, d, ceiling, floors)
    requires i < j < |s| && e <= ceiling
    ensures !(s[i].Contains(d, e) && s[j].Contains(d, e))
  {
    if s[i].Contains(d, e) && s[j].Contains(d, e) {
      assert ChainStep(s[i], d, ceiling, floors[i], floors[i + 1]);
      assert ChainStep(s[j], d, ceiling, floors[j], floors[j + 1]);
      FloorsRise(s, d, ceiling, floors, i + 1, j);
      assert false;
    }
  }

  /** A value up to the ceiling inside entry k lies between the bounds around k. */
  lemma ChainedBetween(s: seq<Band>, d: Direction, ceiling: real, floors: seq<real>, k: nat, e: real)
    requires ChainedBy(s, d, ceiling, floors)
    requires k < |s| && s[k].Contains(d, e) && e <= ceiling
    ensures floors[k] < e < floors[k + 1]
  {
    assert ChainStep(s[k], d, ceiling, floors[k], floors[k + 1]);
  }

  /**
   * A running bound of a chain (the end of one interval, where the next may
   * start) lies in no interval of the chain.
   */
  lemma FloorNeverContained(s: seq<Band>, d: Direction, ceiling: real, floors: seq<real>, m: nat, e: real)
    requires ChainedBy(s, d, ceiling, floors)
    requires m <= |s| && e == floors[m] && e <= ceiling
    ensures forall k | 0 <= k < |s| :: !s[k].Contains(d, e)
  {
    forall k | 0 <= k < |s|
      ensures !s[k].Contains(d, e)
    {
      if s[k].Contains(d, e) {
        ChainedBetween(s, d, ceiling, floors, k, e);
        if k < m {
          FloorsRise(s, d, ceiling, floors, k + 1, m);
        } else {
          FloorsRise(s, d, ceiling, floors, m, k);
        }
        assert false;
      }
    }
  }

  /** The end of the last downlink interval starting below 18000, entry by entry. */
  const DownlinkFloors: seq<real> := [
    0.0, 600.0, 1200.0, 1950.0, 2400.0, 2650.0, 2750.0, 3450.0,
    3800.0, 4150.0, 4750.0, 4950.0, 5180.0, 5280.0, 5380.0, 5850.0,
    6000.0, 6150.0, 6450.0, 6600.0, 7400.0, 7700.0, 8040.0, 8690.0,
    9040.0, 9210.0, 9660.0, 9770.0, 9870.0, 9920.0, 9920.0, 9920.0,
    9920.0, 9920.0, 9920.0, 9920.0, 9920.0, 9920.0, 9920.0, 9920.0,
    9920.0, 9920.0, 9920.0
  ]

  /** The end of the last uplink interval, entry by entry. */
  const UplinkFloors: seq<real> := [
    0.0, 18600.0, 19200.0, 19950.0, 20400.0, 20650.0, 20750.0, 21450.0,
    21800.0, 22150.0, 22750.0, 22959.0, 23180.0, 23280.0, 23380.0, 23850.0,
    24000.0, 24150.0, 24450.0, 24600.0, 25400.0, 25700.0, 26040.0, 26690.0,
    27040.0, 27210.0, 27660.0, 27660.0, 27760.0, 27810.0, 36200.0, 36350.0,
    36950.0, 37550.0, 37750.0, 38250.0, 38650.0, 39650.0, 41590.0, 41590.0,
    45590.0, 46590.0, 46590.0
  ]

  /** Entry k keeps the downlink chain below 18000. */
  lemma DownlinkStep(k: nat)
    requires k < 42
    ensures ChainStep(Bands[k], Downlink, 18000.0, DownlinkFloors[k], DownlinkFloors[k + 1])
  {
    assert Bands[k] == Entry(k);
    assert k == 0 || k == 1 || k == 2 || k == 3 || k == 4 || k == 5 || k == 6 || k == 7 || k == 8 || k == 9 || k == 10 || k == 11 || k == 12 || k == 13 || k == 14 || k == 15 || k == 16 || k == 17 || k == 18 || k == 19 || k == 20 || k == 21 || k == 22 || k == 23 || k == 24 || k == 25 || k == 26 || k == 27 || k == 28 || k == 29 || k == 30 || k == 31 || k == 32 || k == 33 || k == 34 || k == 35 || k == 36 || k == 37 || k == 38 || k == 39 || k == 40 || k == 41;
  }

  /** Entry k keeps the uplink chain up to 65535. */
  lemma UplinkStep(k: nat)
    requires k < 42
    ensures ChainStep(Bands[k], Uplink, 65535.0, UplinkFloors[k], UplinkFloors[k + 1])
  {
    assert Bands[k] == Entry(k);
    assert k == 0 || k == 1 || k == 2 || k == 3 || k == 4 || k == 5 || k == 6 || k == 7 || k == 8 || k == 9 || k == 10 || k == 11 || k == 12 || k == 13 || k == 14 || k == 15 || k == 16 || k == 17 || k == 18 || k == 19 || k == 20 || k == 21 || k == 22 || k == 23 || k == 24 || k == 25 || k == 26 || k == 27 || k == 28 || k == 29 || k == 30 || k == 31 || k == 32 || k == 33 || k == 34 || k == 35 || k == 36 || k == 37 || k == 38 || k == 39 || k == 40 || k == 41;
  }

  /** Below 18000 the table's downlink intervals follow one another. */
  lemma TableChainedDownlink()
    ensures ChainedBy(Bands, Downlink, 18000.0, DownlinkFloors)
  {
    forall k | 0 <= k < 42 { DownlinkStep(k); }
  }

  /** Up to 65535 the table's uplink intervals follow one another. */
  lemma TableChainedUplink()
    ensures ChainedBy(Bands, Uplink, 65535.0, UplinkFloors)
  {
    forall k | 0 <= k < 42 { UplinkStep(k); }
  }

  /**
   * In the selected direction no EARFCN lies in the intervals of two
   * different table entries.
   */
  lemma TableDisjoint(e: real, d: Direction, i: nat, j: nat)
    requires DirectionOf(e) == Some(d)
    requires i < j < |Bands|
    ensures !(Bands[i].Contains(d, e) && Bands[j].Contains(d, e))
  {
    if d == Downlink {
      TableChainedDownlink();
      ChainedDisjoint(Bands, d, 18000.0, DownlinkFloors, i, j, e);
    } else {
      TableChainedUplink();
      ChainedDisjoint(Bands, d, 65535.0, UplinkFloors, i, j, e);
    }
  }

  /** At most one table entry contains e in the selected direction. */
  lemma MatchUnique(e: real, d: Direction, b1: Band, b2: Band)
    requires DirectionOf(e) == Some(d)
    requires b1 in Bands && b1.Contains(d, e)
    requires b2 in Bands && b2.Contains(d, e)
    ensures b1 == b2
  {
    var i :| 0 <= i < |Bands| && Bands[i] == b1;
    var j :| 0 <= j < |Bands| && Bands[j] == b2;
    if i < j {
      TableDisjoint(e, d, i, j);
    } else if j < i {
      TableDisjoint(e, d, j, i);
    }
  }

  /** The lookup's relational specification admits exactly one answer. */
  lemma AnswerUnique(e: real, r1: Band, r2: Band)
    requires Answers(Bands, e, r1) && Answers(Bands, e, r2)
    ensures r1 == r2
  {
    match DirectionOf(e)
    case None =>
    case Some(d) =>
      if r1 in Bands && r1.Contains(d, e) && r2 in Bands && r2.Contains(d, e) {
        MatchUnique(e, d, r1, r2);
      }
  }

  /**
   * The answer does not depend on the order in which the map's values are
   * visited: any permutation of the table gives the same band.
   */
  lemma LookupOrderIndependent(order: seq<Band>, e: real)
    requires multiset(order) == multiset(Bands)
    ensures Lookup(order, e) == Lookup(Bands, e)
  {
    var r := Lookup(order, e);
    assert forall b :: b in order <==> b in Bands by {
      forall b ensures b in order <==> b in Bands {
        assert b in order <==> b in multiset(order);
        assert b in Bands <==> b in multiset(Bands);
      }
    }
    assert Answers(Bands, e, r);
    AnswerUnique(e, r, Lookup(Bands, e));
  }

  /** A table entry that contains e in the selected direction is the answer. */
  lemma LookupFindsContainingBand(e: real, d: Direction, b: Band)
    requires DirectionOf(e) == Some(d)
    requires b in Bands && b.Contains(d, e)
    ensures Lookup(Bands, e) == b
  {
    var r := Lookup(Bands, e);
    if r != b {
      MatchUnique(e, d, r, b);
    }
  }

  // ---------------------------------------------------------------------
  // Facts about particular entries and inputs
  // ---------------------------------------------------------------------

  /** Facts about entry k's band number, read off the table. */
  lemma EntryFacts(k: nat)
    requires k < |Bands|
    ensures (Bands[k].number == 0) == (k == 41)
    ensures Bands[k].number == 42 ==> k == 38
    ensures Bands[k].number >= 33 ==> Bands[k].dlOffset >= 36000.0
  {
    assert Bands[k] == Entry(k);
    assert k == 0 || k == 1 || k == 2 || k == 3 || k == 4 || k == 5 || k == 6 || k == 7 || k == 8 || k == 9 || k == 10 || k == 11 || k == 12 || k == 13 || k == 14 || k == 15 || k == 16 || k == 17 || k == 18 || k == 19 || k == 20 || k == 21 || k == 22 || k == 23 || k == 24 || k == 25 || k == 26 || k == 27 || k == 28 || k == 29 || k == 30 || k == 31 || k == 32 || k == 33 || k == 34 || k == 35 || k == 36 || k == 37 || k == 38 || k == 39 || k == 40 || k == 41;
  }

  /** Each real band's number is below the next entry's. */
  lemma NumberStep(k: nat)
    requires k < 40
    ensures Bands[k].number < Bands[k + 1].number
  {
    assert Bands[k] == Entry(k);
    assert Bands[k + 1] == Entry(k + 1);
    assert k == 0 || k == 1 || k == 2 || k == 3 || k == 4 || k == 5 || k == 6 || k == 7 || k == 8 || k == 9 || k == 10 || k == 11 || k == 12 || k == 13 || k == 14 || k == 15 || k == 16 || k == 17 || k == 18 || k == 19 || k == 20 || k == 21 || k == 22 || k == 23 || k == 24 || k == 25 || k == 26 || k == 27 || k == 28 || k == 29 || k == 30 || k == 31 || k == 32 || k == 33 || k == 34 || k == 35 || k == 36 || k == 37 || k == 38 || k == 39;
  }

  /** Band numbers rise along the 41 real bands. */
  lemma {:induction false} NumbersRise(i: nat, j: nat)
    requires i < j < 41
    ensures Bands[i].number < Bands[j].number
    decreases j - i
  {
    NumberStep(i);
    if i + 1 < j {
      NumbersRise(i + 1, j);
    }
  }

  /**
   * No two entries share a band number, so no put into the map replaces an
   * earlier one and the map holds all 42 entries of the table.
   */
  lemma TableNumbersDistinct(i: nat, j: nat)
    requires i < j < |Bands|
    ensures Bands[i].number != Bands[j].number
  {
    if j == 41 {
      EntryFacts(i);
      EntryFacts(j);
    } else {
      NumbersRise(i, j);
    }
  }

  /** The band-0 entry put last is the all-zero band and matches nothing. */
  lemma SentinelNeverMatches(d: Direction, e: real)
    ensures Bands[41] == Unknown && !Bands[41].Contains(d, e)
  {
    assert Bands[41] == Entry(41);
  }

  /** Band 29 has an uplink of width 0, so its uplink matches nothing. */
  lemma Band29UplinkEmpty(e: real)
    ensures Bands[26].number == 29 && !Bands[26].ContainsUL(e)
  {
    assert Bands[26] == Entry(26);
  }

  /** Band 42's uplink upper bound is below its lower bound, so it matches nothing. */
  lemma Band42UplinkEmpty(e: real)
    ensures Bands[38].number == 42 && !Bands[38].ContainsUL(e)
  {
    assert Bands[38] == Entry(38);
  }

  /** Band 42 is never the answer: its uplink is empty, its downlink above 18000. */
  lemma Band42NeverReturned(e: real)
    ensures Lookup(Bands, e).number != 42
  {
    var r := Lookup(Bands, e);
    if r.number == 42 {
      var k :| 0 <= k < |Bands| && Bands[k] == r;
      EntryFacts(k);
    }
  }

  /** The TDD bands 33 to 44 are only ever found through the uplink branch. */
  lemma TddBandsOnlyUplink(e: real)
    requires Lookup(Bands, e).number >= 33
    ensures 18000.0 <= e <= 65535.0 && Lookup(Bands, e).ContainsUL(e)
  {
    var r := Lookup(Bands, e);
    var k :| 0 <= k < |Bands| && Bands[k] == r;
    EntryFacts(k);
  }

  /**
   * A real band's own offset or interval end, in either direction, is never
   * inside that band's interval of the direction the lookup searches it in.
   */
  lemma OwnBoundaryNotContained(k: nat, d: Direction, x: real)
    requires k < 41 && (x == Bands[k].Start(d) || x == Bands[k].End(d))
    ensures DirectionOf(x).Some? ==> !Bands[k].Contains(DirectionOf(x).value, x)
  {
    assert Bands[k] == Entry(k);
    assert k == 0 || k == 1 || k == 2 || k == 3 || k == 4 || k == 5 || k == 6 || k == 7 || k == 8 || k == 9 || k == 10 || k == 11 || k == 12 || k == 13 || k == 14 || k == 15 || k == 16 || k == 17 || k == 18 || k == 19 || k == 20 || k == 21 || k == 22 || k == 23 || k == 24 || k == 25 || k == 26 || k == 27 || k == 28 || k == 29 || k == 30 || k == 31 || k == 32 || k == 33 || k == 34 || k == 35 || k == 36 || k == 37 || k == 38 || k == 39 || k == 40;
  }

  /**
   * Both ends of an entry's intervals are excluded: looking up a real band's
   * offset or interval end, in either direction, never yields that band.
   */
  lemma BoundariesExcluded(b: Band, d: Direction)
    requires b in Bands && b != Unknown
    ensures Lookup(Bands, b.Start(d)) != b
    ensures Lookup(Bands, b.End(d)) != b
  {
    var k :| 0 <= k < |Bands| && Bands[k] == b;
    SentinelNeverMatches(d, 0.0);
    OwnBoundaryNotContained(k, d, b.Start(d));
    OwnBoundaryNotContained(k, d, b.End(d));
  }

  /** Values inside band 1's downlink and uplink intervals find band 1. */
  lemma LookupInsideBand1()
    ensures Lookup(Bands, 300.0).number == 1
    ensures Lookup(Bands, 18100.0).number == 1
  {
    assert Bands[0] == Entry(0);
    LookupFindsContainingBand(300.0, Downlink, Bands[0]);
    LookupFindsContainingBand(18100.0, Uplink, Bands[0]);
  }

  /** 600, where band 1's downlink interval ends and band 2's starts, finds nothing. */
  lemma LookupSharedBoundary()
    ensures Lookup(Bands, 600.0) == Unknown
  {
    TableChainedDownlink();
    FloorNeverContained(Bands, Downlink, 18000.0, DownlinkFloors, 1, 600.0);
  }

  /** 18000, band 1's uplink offset and the first uplink value, finds nothing. */
  lemma LookupFirstUplinkValue()
    ensures Lookup(Bands, 18000.0) == Unknown
  {
    TableChainedUplink();
    forall k | 0 <= k < |Bands|
      ensures !Bands[k].ContainsUL(18000.0)
    {
      if k == 0 {
        assert Bands[0] == Entry(0);
      } else if Bands[k].ContainsUL(18000.0) {
        ChainedBetween(Bands, Uplink, 65535.0, UplinkFloors, k, 18000.0);
        assert false;
      }
    }
  }

  /** Values outside both searched ranges find band 0. */
  lemma LookupOutOfRange()
    ensures Lookup(Bands, 0.0) == Unknown
    ensures Lookup(Bands, -5.0) == Unknown
    ensures Lookup(Bands, 65536.0) == Unknown
  {
  }

  /**
   * Over the whole table the downlink intervals are not disjoint: band 42's
   * (41590, 53590) overlaps band 43's (43590, 45590). The lookup searches the
   * downlink only below 18000, where TableDisjoint holds.
   */
  lemma DownlinkOverlapAbove18000()
    ensures Bands[38].number == 42 && Bands[39].number == 43
    ensures Bands[38].ContainsDL(44000.0) && Bands[39].ContainsDL(44000.0)
  {
    assert Bands[38] == Entry(38);
    assert Bands[39] == Entry(39);
  }
}
