/** A byte-capped page of history that stays adjacent to the request's anchor. */
module HistoryPage {
  import opened Wrappers

  const MAX_PAYLOAD := 512 * 1024

  /** A fetched row: its cursor and the encoded size of its event. */
  datatype Row = Row(time: int, id: int, cost: nat)

  datatype Cursor = Cursor(time: int, id: int)

  datatype Direction = Backward | Forward | Around(anchor: Option<Cursor>)

  // ---- Sizes ------------------------------------------------------------------------------------------------------

  function Costs(rows: seq<Row>): nat {
    if rows == [] then 0 else rows[0].cost + Costs(rows[1..])
  }

  /** The encoded size of a list of events: the events and the commas between them. */
  function Encoded(rows: seq<Row>): nat {
    if rows == [] then 0 else Costs(rows) + |rows| - 1
  }

  /** What one more event adds. */
  function Extra(rows: seq<Row>, row: Row): nat {
    row.cost + if rows == [] then 0 else 1
  }

  lemma {:induction false} CostsAppend(rows: seq<Row>, row: Row)
    ensures Costs(rows + [row]) == Costs(rows) + row.cost
  {
    if rows != [] {
      assert (rows + [row])[1..] == rows[1..] + [row];
      CostsAppend(rows[1..], row);
    }
  }

  lemma EncodedAppend(rows: seq<Row>, row: Row)
    ensures Encoded(rows + [row]) == Encoded(rows) + Extra(rows, row)
  {
    CostsAppend(rows, row);
  }

  lemma EncodedPrepend(rows: seq<Row>, row: Row)
    ensures Encoded([row] + rows) == Encoded(rows) + Extra(rows, row)
  {
    assert ([row] + rows)[0] == row && ([row] + rows)[1..] == rows;
    assert Costs([row] + rows) == row.cost + Costs(rows);
  }

  function Reverse(rows: seq<Row>): seq<Row> {
    seq(|rows|, i requires 0 <= i < |rows| => rows[|rows| - 1 - i])
  }

  // ---- The page ----------------------------------------------------------------------------------------------------

  /** The rows considered: at most `limit`, those next to the anchor. */
  function Considered(fetched: seq<Row>, limit: nat, direction: Direction): seq<Row> {
    if |fetched| <= limit then fetched
    else if direction.Backward? then fetched[|fetched| - limit..]
    else fetched[..limit]
  }

  /** aroundPivot: the first row at or after the anchor, or the first row. */
  function FirstAt(rows: seq<Row>, c: Cursor): nat {
    if rows == [] then 0
    else if rows[0].time > c.time || (rows[0].time == c.time && rows[0].id >= c.id) then 0
    else 1 + FirstAt(rows[1..], c)
  }

  function Pivot(rows: seq<Row>, anchor: Option<Cursor>): nat {
    if anchor.Some? && FirstAt(rows, anchor.value) < |rows| then FirstAt(rows, anchor.value) else 0
  }

  /** The pivot is out of range exactly when there is no row at all. */
  lemma PivotIsARowIff(rows: seq<Row>, anchor: Option<Cursor>)
    ensures Pivot(rows, anchor) < |rows| <==> rows != []
  {
  }

  predicate Fits(base: int, rows: seq<Row>, row: Row) {
    base + Encoded(rows) + Extra(rows, row) <= MAX_PAYLOAD
  }

  /** rows[lo..hi] was filled greedily from the newest end, from the oldest end, or outward from the pivot: it stops only
      where the next row does not fit. */
  predicate Greedy(base: int, rows: seq<Row>, lo: nat, hi: nat, direction: Direction)
    requires lo <= hi <= |rows|
  {
    match direction
    case Backward => hi == |rows| && (lo > 0 ==> !Fits(base, rows[lo..hi], rows[lo - 1]))
    case Forward => lo == 0 && (hi < |rows| ==> !Fits(base, rows[lo..hi], rows[hi]))
    case Around(anchor) =>
      Balanced(Pivot(rows, anchor), lo, hi, |rows|) && Blocked(base, rows, lo, hi)
  }

  /** The run reaches out from the pivot on both sides, holding it unless it is empty, and while neither end of the rows
      is reached the older side is level with the newer one or one ahead. */
  predicate Balanced(pivot: nat, lo: nat, hi: nat, count: nat) {
    && lo <= pivot + 1 <= hi <= count
    && (lo < hi ==> lo <= pivot)
    && (lo > 0 && hi < count ==> hi - (pivot + 1) <= pivot + 1 - lo <= hi - pivot)
  }

  /** The row before or the row after does not fit, unless there is neither. */
  predicate Blocked(base: int, rows: seq<Row>, lo: nat, hi: nat)
    requires lo <= hi <= |rows|
  {
    || (lo == 0 && hi == |rows|)
    || (lo > 0 && !Fits(base, rows[lo..hi], rows[lo - 1]))
    || (hi < |rows| && !Fits(base, rows[lo..hi], rows[hi]))
  }

  class Builder {
    const base: int
    const rows: seq<Row>
    var messages: seq<Row>
    var used: int

    constructor (base: int, rows: seq<Row>)
      ensures this.base == base && this.rows == rows && messages == [] && used == base
    {
      this.base, this.rows, messages, used := base, rows, [], base;
    }

    /** add: the row joins the page unless that would exceed the cap. */
    method Add(i: nat, ghost page: seq<Row>) returns (ok: bool)
      requires i < |rows| && |messages| == |page| && used == base + Encoded(page)
      modifies this`messages, this`used
      ensures ok <==> Fits(base, page, rows[i])
      ensures ok ==> messages == old(messages) + [rows[i]] && used == old(used) + Extra(page, rows[i]) <= MAX_PAYLOAD
      ensures !ok ==> messages == old(messages) && used == old(used)
    {
      var extra := rows[i].cost;
      if |messages| > 0 {
        extra := extra + 1;
      }
      if used + extra > MAX_PAYLOAD {
        return false;
      }
      used := used + extra;
      messages := messages + [rows[i]];
      return true;
    }

    method ReverseMessages()
      modifies this`messages
      ensures messages == Reverse(old(messages))
    {
      var n := |messages|;
      var i, j := 0, n - 1;
      while i < j
        invariant |messages| == n && 0 <= i && j == n - 1 - i && i <= n
        invariant i <= j + 1
        invariant forall k :: 0 <= k < i ==> messages[k] == old(messages)[n - 1 - k]
        invariant forall k :: j < k < n ==> messages[k] == old(messages)[n - 1 - k]
        invariant forall k :: i <= k <= j ==> messages[k] == old(messages)[k]
        decreases j - i
      {
        messages := messages[i := messages[j]][j := messages[i]];
        i, j := i + 1, j - 1;
      }
      assert forall k :: 0 <= k < n ==> messages[k] == old(messages)[n - 1 - k];
    }

    method SelectBackward() returns (ghost lo: nat, ghost hi: nat)
      requires messages == [] && used == base
      modifies this`messages, this`used
      ensures lo <= hi <= |rows| && messages == rows[lo..hi] && used == base + Encoded(rows[lo..hi])
      ensures Greedy(base, rows, lo, hi, Backward) && (base <= MAX_PAYLOAD ==> used <= MAX_PAYLOAD)
    {
      var i := |rows|;
      var fits := true;
      while i > 0 && fits
        invariant 0 <= i <= |rows|
        invariant messages == Reverse(rows[i..]) && used == base + Encoded(rows[i..])
        invariant base <= MAX_PAYLOAD ==> used <= MAX_PAYLOAD
        invariant !fits ==> i > 0 && !Fits(base, rows[i..|rows|], rows[i - 1])
        decreases i, fits
      {
        fits := Add(i - 1, rows[i..]);
        assert rows[i..|rows|] == rows[i..];
        if fits {
          EncodedPrepend(rows[i..], rows[i - 1]);
          assert rows[i - 1..] == [rows[i - 1]] + rows[i..];
          i := i - 1;
        }
      }
      ReverseMessages();
      lo, hi := i, |rows|;
      assert rows[lo..hi] == rows[i..];
    }

    method SelectForward() returns (ghost lo: nat, ghost hi: nat)
      requires messages == [] && used == base
      modifies this`messages, this`used
      ensures lo <= hi <= |rows| && messages == rows[lo..hi] && used == base + Encoded(rows[lo..hi])
      ensures Greedy(base, rows, lo, hi, Forward) && (base <= MAX_PAYLOAD ==> used <= MAX_PAYLOAD)
    {
      var i := 0;
      var fits := true;
      while i < |rows| && fits
        invariant 0 <= i <= |rows| && messages == rows[0..i] && used == base + Encoded(rows[0..i])
        invariant base <= MAX_PAYLOAD ==> used <= MAX_PAYLOAD
        invariant !fits ==> i < |rows| && !Fits(base, rows[0..i], rows[i])
        decreases |rows| - i, fits
      {
        fits := Add(i, rows[0..i]);
        if fits {
          EncodedAppend(rows[0..i], rows[i]);
          assert rows[0..i + 1] == rows[0..i] + [rows[i]];
          i := i + 1;
        }
      }
      lo, hi := 0, i;
    }

    method AroundPivot(anchor: Option<Cursor>) returns (pivot: nat)
      ensures pivot == Pivot(rows, anchor)
    {
      if anchor.None? {
        return 0;
      }
      for i := 0 to |rows|
        invariant FirstAt(rows, anchor.value) == i + FirstAt(rows[i..], anchor.value)
      {
        assert rows[i..][1..] == rows[i + 1..];
        var row := rows[i];
        if row.time > anchor.value.time || (row.time == anchor.value.time && row.id >= anchor.value.id) {
          return i;
        }
      }
      return 0;
    }

    /** The row before rows[i + 1..hi]. */
    method AddOlder(i: nat, ghost hi: nat) returns (ok: bool)
      requires i < hi <= |rows| && |messages| == hi - (i + 1) && used == base + Encoded(rows[i + 1..hi])
      modifies this`messages, this`used
      ensures ok <==> Fits(base, rows[i + 1..hi], rows[i])
      ensures ok ==> |messages| == hi - i && used == base + Encoded(rows[i..hi]) <= MAX_PAYLOAD
      ensures !ok ==> messages == old(messages) && used == old(used)
    {
      ok := Add(i, rows[i + 1..hi]);
      EncodedPrepend(rows[i + 1..hi], rows[i]);
      assert rows[i..hi] == [rows[i]] + rows[i + 1..hi];
    }

    /** The row after rows[lo..i]. */
    method AddNewer(ghost lo: nat, i: nat) returns (ok: bool)
      requires lo <= i < |rows| && |messages| == i - lo && used == base + Encoded(rows[lo..i])
      modifies this`messages, this`used
      ensures ok <==> Fits(base, rows[lo..i], rows[i])
      ensures ok ==> |messages| == i + 1 - lo && used == base + Encoded(rows[lo..i + 1]) <= MAX_PAYLOAD
      ensures !ok ==> messages == old(messages) && used == old(used)
    {
      ok := Add(i, rows[lo..i]);
      EncodedAppend(rows[lo..i], rows[i]);
      assert rows[lo..i + 1] == rows[lo..i] + [rows[i]];
    }

    /** expandAround: which rows were admitted, alternating outward from the pivot.  The row at the pivot is read first
        and unconditionally; `ok` is false when there is none and the index is out of range. */
    method ExpandAround(pivot: nat) returns (ok: bool, selected: seq<bool>, ghost lo: nat, ghost hi: nat)
      requires messages == [] && used == base
      modifies this`messages, this`used
      ensures ok <==> pivot < |rows|
      ensures !ok ==> messages == [] && used == base
      ensures ok ==> Balanced(pivot, lo, hi, |rows|) && Blocked(base, rows, lo, hi)
      ensures ok ==> used == base + Encoded(rows[lo..hi]) && (base <= MAX_PAYLOAD ==> used <= MAX_PAYLOAD)
      ensures ok ==> |selected| == |rows| && forall i :: 0 <= i < |rows| ==> (selected[i] <==> lo <= i < hi)
    {
      ok, selected := pivot < |rows|, seq(|rows|, i => false);
      if !ok {
        lo, hi := 0, 0;
        return;
      }
      var left: int, right := pivot, pivot + 1;
      var fits := true;
      while fits && (left >= 0 || right < |rows|)
        invariant -1 <= left <= pivot < right <= |rows| && |messages| == right - left - 1
        invariant used == base + Encoded(rows[left + 1..right]) && (base <= MAX_PAYLOAD ==> used <= MAX_PAYLOAD)
        invariant |selected| == |rows| && forall i :: 0 <= i < |rows| ==> (selected[i] <==> left < i < right)
        invariant left + 1 < right ==> left < pivot
        invariant fits && left >= 0 && right < |rows| ==> right - (pivot + 1) == pivot - left
        invariant Balanced(pivot, left + 1, right, |rows|)
        invariant !fits ==> Blocked(base, rows, left + 1, right)
        decreases left + |rows| - right, fits
      {
        if left >= 0 {
          fits := AddOlder(left, right);
          if fits {
            selected := selected[left := true];
            left := left - 1;
          }
        }
        if fits && right < |rows| {
          fits := AddNewer(left + 1, right);
          if fits {
            selected := selected[right := true];
            right := right + 1;
          }
        }
      }
      lo, hi := left + 1, right;
    }

    method SelectAround(anchor: Option<Cursor>) returns (ok: bool, ghost lo: nat, ghost hi: nat)
      requires messages == [] && used == base
      modifies this`messages, this`used
      ensures ok <==> rows != []
      ensures lo <= hi <= |rows| && messages == rows[lo..hi] && used == base + Encoded(rows[lo..hi])
      ensures ok ==> Greedy(base, rows, lo, hi, Around(anchor)) && (base <= MAX_PAYLOAD ==> used <= MAX_PAYLOAD)
    {
      var pivot := AroundPivot(anchor);
      PivotIsARowIff(rows, anchor);
      var selected;
      ok, selected, lo, hi := ExpandAround(pivot);
      if !ok {
        lo, hi := 0, 0;
        assert rows[lo..hi] == [] && Encoded([]) == 0;
        return;
      }
      messages := [];
      for i := 0 to |rows|
        invariant used == base + Encoded(rows[lo..hi]) && (base <= MAX_PAYLOAD ==> used <= MAX_PAYLOAD)
        invariant messages == if i <= lo then [] else if i <= hi then rows[lo..i] else rows[lo..hi]
      {
        if selected[i] {
          assert rows[lo..i + 1] == rows[lo..i] + [rows[i]] && rows[lo..lo] == [];
          messages := messages + [rows[i]];
        }
      }
    }
  }

  /** boundedHistoryPage: the page is a contiguous run of the fetched rows next to the anchor, its size is accounted
      exactly and stays within the cap, it stops only where a row does not fit, and `hasMore` says exactly whether a
      fetched row was left out.  An around request over no rows reads past the end: that is `!ok`, and nothing else is. */
  method BoundedHistoryPage(base: int, fetched: seq<Row>, limit: nat, direction: Direction)
    returns (ok: bool, page: seq<Row>, hasMore: bool, used: int, ghost lo: nat, ghost hi: nat)
    ensures ok <==> (direction.Around? ==> fetched != [] && limit > 0)
    ensures ok ==>
            var rows := Considered(fetched, limit, direction);
            lo <= hi <= |rows| && page == rows[lo..hi] && Greedy(base, rows, lo, hi, direction)
    ensures ok ==> used == base + Encoded(page) && (base <= MAX_PAYLOAD ==> used <= MAX_PAYLOAD)
    ensures ok ==> (hasMore <==> |page| < |fetched|)
  {
    ok := true;
    var rows := fetched;
    var countMore := |fetched| > limit;
    if countMore {
      if direction.Backward? {
        rows := rows[|rows| - limit..];
      } else {
        rows := rows[..limit];
      }
    }
    var b := new Builder(base, rows);
    match direction {
      case Backward => lo, hi := b.SelectBackward();
      case Around(anchor) => ok, lo, hi := b.SelectAround(anchor);
      case Forward => lo, hi := b.SelectForward();
    }
    page, used := b.messages, b.used;
    hasMore := countMore || |page| < |rows|;
  }
}
