# LTE band classifier, modelled in Dafny

This is a model of the BandDetection app's `LTEBand` class. The class maps an LTE channel number to the LTE band that contains it. The channel number is the EARFCN, the E-UTRA Absolute Radio Frequency Channel Number of section 5.7.3 of 3GPP TS 36.101. The model is the single module `LteBand` in `lte_band.dfy`.

- **Band record.** Each record has a band number, four frequency bounds in MHz (uplink lower and upper, downlink lower and upper) and two EARFCN offsets. The source never changes a record after construction, so `Band` is a datatype.
- **Containment tests.** `ContainsUL` and `ContainsDL` accept an EARFCN strictly between a band's offset and its offset plus ten times its width in MHz.
- **Band table.** `Bands` lists the 42 entries in the order the source puts them into its map: 41 real bands, then the all-zero band 0.
- **Lookup.** `Lookup(order, e)` chooses a direction from the range of `e`:
  - downlink for 0 < e < 18000;
  - uplink for 18000 <= e <= 65535.

  It returns the first band in `order` whose interval in that direction contains `e`. When there is none, it returns the all-zero band 0 (`Unknown`). The parameter `order` stands for the map's unspecified iteration order.
- **Method.** `GetBandFromEarfcn` is the source's two loops with early return, run over the table in entry order.

The proved properties:
- The lookup's answer is exactly what its relational specification `Answers` allows.
- Inside the searched ranges no EARFCN lies in two entries' intervals of the same direction. So the answer is unique, and any permutation of the table gives the same answer.
- Some entries never match. Band 42 is never returned. The TDD bands 33 to 44 come back only through the uplink branch.
- Interval ends are excluded, and particular inputs give the answers shown in the table below.

Disjointness is proved as a chain. A witness sequence of running bounds (`DownlinkFloors`, `UplinkFloors`) shows that each relevant interval starts at or above the end of the previous one.

Over the whole table the downlink intervals are not pairwise disjoint. Band 42's downlink interval (41590, 53590) overlaps band 43's (43590, 45590) and band 44's (45590, 46590). The code only searches the downlink for values below 18000, and below 18000 the intervals are disjoint. The model follows the code: disjointness is stated for the searched range only, and `DownlinkOverlapAbove18000` shows the overlap outside it. The table has 42 entries (lines 81-122 of `LTEBand.java`), and the model uses those 42.

## Model

| member | source | states |
|---|---|---|
| LteBand.Band.ContainsUL | banddetection/src/main/java/nu/shel/banddetection/LTEBand.java:43-45 | Holds exactly when the uplink carrier frequency of e lies strictly between the uplink bounds. The offset itself and the interval's end are never contained. A band whose upper bound is not above its lower bound contains nothing. |
| LteBand.Band.ContainsDL | banddetection/src/main/java/nu/shel/banddetection/LTEBand.java:52-54 | The same open interval, built from the downlink fields, with the same three consequences. |
| LteBand.DirectionOf | banddetection/src/main/java/nu/shel/banddetection/LTEBand.java:62-67 | No direction exactly when e <= 0 or e > 65535. Otherwise the direction is downlink exactly when e < 18000. |
| LteBand.Entry | banddetection/src/main/java/nu/shel/banddetection/LTEBand.java:81-122 | Entry k is the k-th put in source order: entries 0 to 40 are real bands with positive numbers, entry 41 (and any index outside) is the all-zero band 0, and the TDD bands 33 and above use one offset for both directions. |
| LteBand.FirstMatch | banddetection/src/main/java/nu/shel/banddetection/LTEBand.java:63-66 | The loop's stopping index: the band there contains e, every band before it does not, and the index equals the length when nothing matches. |
| LteBand.Lookup | banddetection/src/main/java/nu/shel/banddetection/LTEBand.java:61-75 | For any visiting order, the result is either a table entry containing e in the selected direction, or `Unknown` — band 0 with every field zero, the fallback of line 74 — when no entry contains it. Out-of-range inputs give `Unknown`. |
| LteBand.GetBandFromEarfcn | banddetection/src/main/java/nu/shel/banddetection/LTEBand.java:61-75 | The two loops with early return meet the same relational specification and return the lookup's unique answer. |
| LteBand.DownlinkStep | banddetection/src/main/java/nu/shel/banddetection/LTEBand.java:81-122 | Each entry's downlink interval that starts below 18000 begins at or after the end of every earlier one. |
| LteBand.UplinkStep | banddetection/src/main/java/nu/shel/banddetection/LTEBand.java:81-122 | Each entry's non-empty uplink interval begins at or after the end of every earlier one. |
| LteBand.TableChainedDownlink | banddetection/src/main/java/nu/shel/banddetection/LTEBand.java:81-122 | The whole table's downlink intervals below 18000 follow one another without overlap. |
| LteBand.TableChainedUplink | banddetection/src/main/java/nu/shel/banddetection/LTEBand.java:81-122 | The whole table's uplink intervals up to 65535 follow one another without overlap. |
| LteBand.TableDisjoint | banddetection/src/main/java/nu/shel/banddetection/LTEBand.java:81-121 | For any value the lookup searches, no two different entries both contain it in the selected direction. |
| LteBand.MatchUnique | banddetection/src/main/java/nu/shel/banddetection/LTEBand.java:63-71 | Any two table bands that contain e in the selected direction are the same band. |
| LteBand.AnswerUnique | banddetection/src/main/java/nu/shel/banddetection/LTEBand.java:61-75 | The relational specification of the lookup admits exactly one answer. |
| LteBand.LookupOrderIndependent | banddetection/src/main/java/nu/shel/banddetection/LTEBand.java:63-71 | Visiting the map's values in any permutation of the table gives the same band as visiting them in entry order. |
| LteBand.LookupFindsContainingBand | banddetection/src/main/java/nu/shel/banddetection/LTEBand.java:62-71 | If some table entry contains e in the selected direction, the lookup returns that entry. |
| LteBand.EntryFacts | banddetection/src/main/java/nu/shel/banddetection/LTEBand.java:81-122 | Only the last entry has band number 0. Band 42 sits only at entry 38. Bands numbered 33 and above have downlink offsets of at least 36000. |
| LteBand.NumberStep | banddetection/src/main/java/nu/shel/banddetection/LTEBand.java:81-121 | Each real band's number is below the number of the entry put after it. |
| LteBand.NumbersRise | banddetection/src/main/java/nu/shel/banddetection/LTEBand.java:81-121 | The 41 real bands are put in strictly increasing band-number order. |
| LteBand.TableNumbersDistinct | banddetection/src/main/java/nu/shel/banddetection/LTEBand.java:81-122 | No two entries share a key, so no put overwrites another and the map holds all 42 records. |
| LteBand.SentinelNeverMatches | banddetection/src/main/java/nu/shel/banddetection/LTEBand.java:122 | The last entry is band 0 with every field zero, and it contains nothing in either direction. |
| LteBand.Band29UplinkEmpty | banddetection/src/main/java/nu/shel/banddetection/LTEBand.java:107 | Band 29's uplink interval has width 0 and contains nothing. |
| LteBand.Band42UplinkEmpty | banddetection/src/main/java/nu/shel/banddetection/LTEBand.java:119 | Band 42's uplink upper bound is below its lower bound, so its uplink interval contains nothing. |
| LteBand.Band42NeverReturned | banddetection/src/main/java/nu/shel/banddetection/LTEBand.java:119 | No input makes the lookup return band 42. |
| LteBand.TddBandsOnlyUplink | banddetection/src/main/java/nu/shel/banddetection/LTEBand.java:110-121 | A returned band numbered 33 or above was found in the uplink branch: 18000 <= e <= 65535, and its uplink interval contains e. |
| LteBand.OwnBoundaryNotContained | banddetection/src/main/java/nu/shel/banddetection/LTEBand.java:43-54 | A real band's own offset or interval end, in either direction, is not inside that band's interval of the direction the lookup searches it in. |
| LteBand.BoundariesExcluded | banddetection/src/main/java/nu/shel/banddetection/LTEBand.java:43-54 | Looking up a real band's own offset or interval end, in either direction, never returns that band. |
| LteBand.LookupInsideBand1 | banddetection/src/main/java/nu/shel/banddetection/LTEBand.java:81 | 300 (downlink) and 18100 (uplink) both give band 1. |
| LteBand.LookupSharedBoundary | banddetection/src/main/java/nu/shel/banddetection/LTEBand.java:81-82 | 600 gives band 0: it is where band 1's downlink interval ends and band 2's begins, and both exclude it. |
| LteBand.LookupFirstUplinkValue | banddetection/src/main/java/nu/shel/banddetection/LTEBand.java:67-71 | 18000 gives band 0: it is band 1's uplink offset, and every other uplink interval starts higher. |
| LteBand.LookupOutOfRange | banddetection/src/main/java/nu/shel/banddetection/LTEBand.java:62-74 | 0, -5 and 65536 give band 0. |
| LteBand.DownlinkOverlapAbove18000 | banddetection/src/main/java/nu/shel/banddetection/LTEBand.java:119-120 | The downlink intervals of bands 42 and 43 both contain 44000. Downlink disjointness holds only inside the searched range. |

## Left out

- Floating point: bounds, offsets and EARFCNs are exact reals. Every offset in the table is an integer, and every interval end offset + (upper − lower)·10 of lines 81-122 comes out exact in IEEE-754 binary64 too: (1879.9 − 1844.9)·10 is exactly 350 there as well, and band 11's inexact uplink width rounds back to an end of exactly 22959. So for every finite double input the model gives the program's answer.
- NaN, +∞ and −∞ have no counterpart among the reals. The program returns band 0 for all three: NaN fails both range tests of lines 62 and 67, +∞ is above 65535 and −∞ is not above 0.
- HashMap internals: hashing, the actual iteration order, and the double-brace anonymous subclass that fills the map. `Lookup` takes the visiting order as a parameter instead, and `LookupOrderIndependent` covers every permutation of the table.
- Object identity: the fallback is a freshly allocated object, distinct from the band-0 entry stored in the map. Records are compared by value here.
- Mutability: the public `band` field and the public static map could be changed by other code. Nothing in the class changes them after initialisation, so the table is a constant.
- The constructor only copies its seven arguments into fields. It is the `Band` datatype constructor here and has no contract of its own.
- Agreement with 3GPP TS 36.101 Table 5.5-1: the model uses the values written in the table, including band 42's swapped-looking bounds.
