/**
 * The `filteredData` memo of src/app/page.tsx: a station is kept when its
 * lower-cased name contains the lower-cased query, or its station number
 * contains the query as typed. An empty query returns the list itself.
 */
module Search {
  import opened RainTypes

  /** ASCII lower-casing of one character. */
  function LowerChar(c: char): char {
    if 'A' <= c <= 'Z' then (c as int + 32) as char else c
  }

  /** `toLowerCase`, character by character. */
  function Lower(s: string): string {
    seq(|s|, i requires 0 <= i < |s| => LowerChar(s[i]))
  }

  /** `needle` occurs in `hay` starting at position `i`. */
  predicate OccursAt(hay: string, needle: string, i: int) {
    0 <= i <= |hay| - |needle| && hay[i..i + |needle|] == needle
  }

  /** `hay.includes(needle)`: some position holds an occurrence. */
  predicate Includes(hay: string, needle: string) {
    exists i :: 0 <= i <= |hay| - |needle| && OccursAt(hay, needle, i)
  }

  /** The predicate handed to `filter`. */
  predicate Matches(station: RainStation, query: string)
    ensures query == "" ==> Matches(station, query)
    ensures Matches(station, query) ==> |query| <= |station.stationName| || |query| <= |station.stationNo|
  {
    IncludesEmpty(station.stationNo);
    Includes(Lower(station.stationName), Lower(query)) || Includes(station.stationNo, query)
  }

  /** `Array.prototype.filter` with `Matches`: keeps matching stations, in order. */
  function Filter(data: seq<RainStation>, query: string): (r: seq<RainStation>)
    ensures |r| <= |data|
    ensures forall i :: 0 <= i < |r| ==> r[i] in data && Matches(r[i], query)
  {
    if data == [] then []
    else if Matches(data[0], query) then [data[0]] + Filter(data[1..], query)
    else Filter(data[1..], query)
  }

  /** `filteredData`: the list itself for an empty query, else the filtered list. */
  function FilteredData(rainData: seq<RainStation>, searchQuery: string): (r: seq<RainStation>)
    ensures searchQuery == "" ==> r == rainData
    ensures forall s :: s in r <==> s in rainData && Matches(s, searchQuery)
    ensures |r| <= |rainData|
  {
    forall s ensures s in Filter(rainData, searchQuery) <==> s in rainData && Matches(s, searchQuery) {
      FilterMembership(rainData, searchQuery, s);
    }
    if searchQuery == "" then rainData else Filter(rainData, searchQuery)
  }

  /** The empty string occurs in every string. */
  lemma IncludesEmpty(hay: string)
    ensures Includes(hay, "")
  {
    assert OccursAt(hay, "", 0);
  }

  /** An empty query keeps every station: the list comes back unchanged, and so would `filter`. */
  lemma {:induction false} EmptyQueryKeepsAll(data: seq<RainStation>)
    ensures FilteredData(data, "") == data
    ensures Filter(data, "") == data
  {
    if data != [] {
      IncludesEmpty(data[0].stationNo);
      EmptyQueryKeepsAll(data[1..]);
      assert data == [data[0]] + data[1..];
    }
  }

  /** A station is in the result exactly when it is in the list and matches. */
  lemma {:induction false} FilterMembership(data: seq<RainStation>, query: string, s: RainStation)
    ensures s in Filter(data, query) <==> s in data && Matches(s, query)
  {
    if data != [] {
      FilterMembership(data[1..], query, s);
      assert s in data <==> s == data[0] || s in data[1..];
    }
  }

  /**
   * `r` picks the elements of `data` at the strictly increasing positions
   * `idx`, in that order.
   */
  ghost predicate SelectsInOrder<T>(r: seq<T>, data: seq<T>, idx: seq<int>) {
    && |idx| == |r|
    && (forall i :: 0 <= i < |idx| ==> 0 <= idx[i] < |data| && r[i] == data[idx[i]])
    && (forall i, j :: 0 <= i < j < |idx| ==> idx[i] < idx[j])
  }

  /** Positions `idx` into `data[1..]`, renumbered as positions into `data`. */
  function Shift(idx: seq<int>): (r: seq<int>)
    ensures |r| == |idx| && forall i :: 0 <= i < |idx| ==> r[i] == idx[i] + 1
  {
    seq(|idx|, i requires 0 <= i < |idx| => idx[i] + 1)
  }

  /** A selection from the tail of `data` is a selection from `data` once renumbered. */
  lemma ShiftSelects<T>(r: seq<T>, data: seq<T>, idx: seq<int>)
    requires data != [] && SelectsInOrder(r, data[1..], idx)
    ensures SelectsInOrder(r, data, Shift(idx))
    ensures SelectsInOrder([data[0]] + r, data, [0] + Shift(idx))
    ensures 0 !in Shift(idx)
    ensures forall j :: 1 <= j < |data| ==> (j in Shift(idx) <==> j - 1 in idx)
  {
    var sh := Shift(idx);
    forall j | 1 <= j < |data|
      ensures j in sh <==> j - 1 in idx
    {
      if j - 1 in idx {
        var i :| 0 <= i < |idx| && idx[i] == j - 1;
        assert sh[i] == j;
      }
    }
  }

  /**
   * The filtered list is an order-preserving subsequence of the input, and
   * its positions are exactly those of the matching stations.
   */
  lemma {:induction false} FilterSelects(data: seq<RainStation>, query: string) returns (idx: seq<int>)
    ensures SelectsInOrder(Filter(data, query), data, idx)
    ensures forall j :: 0 <= j < |data| ==> (j in idx <==> Matches(data[j], query))
  {
    if data == [] {
      idx := [];
    } else {
      var tail := data[1..];
      var rest := FilterSelects(tail, query);
      ShiftSelects(Filter(tail, query), data, rest);
      assert forall j :: 1 <= j < |data| ==> data[j] == tail[j - 1];
      if Matches(data[0], query) {
        idx := [0] + Shift(rest);
      } else {
        idx := Shift(rest);
      }
    }
  }

  /** Filtering a filtered list again with the same query changes nothing. */
  lemma {:induction false} FilterIdempotent(data: seq<RainStation>, query: string)
    ensures Filter(Filter(data, query), query) == Filter(data, query)
  {
    if data != [] {
      FilterIdempotent(data[1..], query);
    }
  }

  /** `filteredData` is idempotent too. */
  lemma FilteredDataIdempotent(data: seq<RainStation>, query: string)
    ensures FilteredData(FilteredData(data, query), query) == FilteredData(data, query)
  {
    FilterIdempotent(data, query);
  }
}
