/** The table of heartbeat-loss holds, whose unique index admits one open row at a time. */
module HoldTable {
  import opened Basics

  datatype HoldRow = HoldRow(startedAt: Time, endedAt: Option<Time>, deviceCount: nat)

  predicate IsOpen(row: HoldRow) {
    row.endedAt == None
  }

  /** When the open hold started. */
  function OpenSince(rows: seq<HoldRow>): Option<Time> {
    if |rows| == 0 then None
    else if IsOpen(rows[|rows| - 1]) then Some(rows[|rows| - 1].startedAt)
    else OpenSince(rows[..|rows| - 1])
  }

  /** INSERT ... ON CONFLICT DO NOTHING under the unique index over open rows. */
  function AfterStart(rows: seq<HoldRow>, startedAt: Time, deviceCount: nat): seq<HoldRow> {
    if OpenSince(rows).Some? then rows else rows + [HoldRow(startedAt, None, deviceCount)]
  }

  function Ended(row: HoldRow, startedAt: Time, endedAt: Time): HoldRow {
    if IsOpen(row) && row.startedAt == startedAt
    then row.(endedAt := Some(if endedAt > startedAt then endedAt else startedAt)) else row
  }

  /** UPDATE of the open row that started at `startedAt`. */
  function AfterEnd(rows: seq<HoldRow>, startedAt: Time, endedAt: Time): (r: seq<HoldRow>)
    ensures |r| == |rows|
    ensures forall i :: 0 <= i < |rows| ==> r[i] == Ended(rows[i], startedAt, endedAt)
  {
    seq(|rows|, i requires 0 <= i < |rows| => Ended(rows[i], startedAt, endedAt))
  }

  /** What the index and the check of the table demand. */
  ghost predicate Consistent(rows: seq<HoldRow>) {
    && (forall i, j :: 0 <= i < j < |rows| ==> !(IsOpen(rows[i]) && IsOpen(rows[j])))
    && (forall i :: 0 <= i < |rows| && rows[i].endedAt.Some? ==> rows[i].startedAt <= rows[i].endedAt.value)
  }

  lemma {:induction false} OpenSinceMeans(rows: seq<HoldRow>)
    ensures OpenSince(rows).Some? <==> exists i :: 0 <= i < |rows| && IsOpen(rows[i])
    ensures OpenSince(rows).Some?
        ==> exists i :: 0 <= i < |rows| && IsOpen(rows[i]) && OpenSince(rows) == Some(rows[i].startedAt)
  {
    if |rows| > 0 {
      var rest := rows[..|rows| - 1];
      OpenSinceMeans(rest);
      if i :| 0 <= i < |rest| && IsOpen(rest[i]) {
        assert IsOpen(rows[i]);
      }
      if !IsOpen(rows[|rows| - 1]) && OpenSince(rest).Some? {
        var i :| 0 <= i < |rest| && IsOpen(rest[i]) && OpenSince(rest) == Some(rest[i].startedAt);
        assert IsOpen(rows[i]) && rows[i] == rest[i];
      }
    }
  }

  /** Starting opens a hold unless one is open. */
  lemma {:induction false} StartOpens(rows: seq<HoldRow>, startedAt: Time, deviceCount: nat)
    requires Consistent(rows)
    ensures Consistent(AfterStart(rows, startedAt, deviceCount))
    ensures OpenSince(AfterStart(rows, startedAt, deviceCount))
         == if OpenSince(rows).Some? then OpenSince(rows) else Some(startedAt)
  {
    OpenSinceMeans(rows);
  }

  /** Ending closes the open hold when it is the one meant, and nothing otherwise. */
  lemma {:induction false} EndCloses(rows: seq<HoldRow>, startedAt: Time, endedAt: Time)
    requires Consistent(rows)
    ensures Consistent(AfterEnd(rows, startedAt, endedAt))
    ensures OpenSince(AfterEnd(rows, startedAt, endedAt))
         == if OpenSince(rows) == Some(startedAt) then None else OpenSince(rows)
    ensures OpenSince(rows) != Some(startedAt) ==> AfterEnd(rows, startedAt, endedAt) == rows
  {
    var r := AfterEnd(rows, startedAt, endedAt);
    OpenSinceMeans(rows);
    OpenSinceMeans(r);
    if OpenSince(rows).Some? {
      var i :| 0 <= i < |rows| && IsOpen(rows[i]) && OpenSince(rows) == Some(rows[i].startedAt);
      OnlyOpen(rows, i);
      if rows[i].startedAt != startedAt {
        assert r == rows;
      }
    } else {
      assert r == rows;
    }
  }

  lemma {:induction false} OnlyOpen(rows: seq<HoldRow>, i: int)
    requires Consistent(rows) && 0 <= i < |rows| && IsOpen(rows[i])
    ensures forall j :: 0 <= j < |rows| && IsOpen(rows[j]) ==> j == i
  {
  }

  lemma {:induction false} OpenAt(rows: seq<HoldRow>, startedAt: Time)
    requires Consistent(rows)
    ensures OpenSince(rows) == Some(startedAt)
       <==> exists j :: 0 <= j < |rows| && IsOpen(rows[j]) && rows[j].startedAt == startedAt
  {
    OpenSinceMeans(rows);
  }

  lemma {:induction false} OpenRows(rows: seq<HoldRow>)
    ensures OpenSince(rows) == None ==> forall row :: row in rows ==> row.endedAt.Some?
    ensures OpenSince(rows).Some? ==>
              exists row :: row in rows && row.endedAt == None && row.startedAt == OpenSince(rows).value
  {
    OpenSinceMeans(rows);
    if OpenSince(rows).Some? {
      var i :| 0 <= i < |rows| && IsOpen(rows[i]) && OpenSince(rows) == Some(rows[i].startedAt);
      assert rows[i] in rows;
    }
  }

  predicate IsOpenAt(row: HoldRow, startedAt: Time) {
    IsOpen(row) && row.startedAt == startedAt
  }

  lemma {:induction false} OpenRowAt(rows: seq<HoldRow>, startedAt: Time)
    ensures (exists j :: 0 <= j < |rows| && IsOpenAt(rows[j], startedAt))
       <==> exists row :: row in rows && row.endedAt == None && row.startedAt == startedAt
  {
    if j :| 0 <= j < |rows| && IsOpenAt(rows[j], startedAt) {
      assert rows[j] in rows;
    }
    if row :| row in rows && row.endedAt == None && row.startedAt == startedAt {
      var j :| 0 <= j < |rows| && rows[j] == row;
      assert IsOpenAt(rows[j], startedAt);
    }
  }

  class HoldRepository {
    var rows: seq<HoldRow>

    ghost predicate Valid()
      reads this
    {
      Consistent(rows)
    }

    constructor ()
      ensures Valid() && rows == []
    {
      rows := [];
    }

    method FindOpen() returns (open: Option<Time>)
      ensures open == OpenSince(rows)
      ensures open == None ==> forall row :: row in rows ==> row.endedAt.Some?
      ensures open.Some? ==> exists row :: row in rows && row.endedAt == None && row.startedAt == open.value
    {
      OpenRows(rows);
      var i := |rows|;
      assert rows[..i] == rows;
      while i > 0
        invariant 0 <= i <= |rows| && OpenSince(rows) == OpenSince(rows[..i])
      {
        i := i - 1;
        assert rows[..i + 1][..i] == rows[..i];
        if IsOpen(rows[i]) {
          return Some(rows[i].startedAt);
        }
      }
      open := None;
    }

    method Start(startedAt: Time, deviceCount: nat) returns (started: bool)
      requires Valid()
      modifies this
      ensures Valid() && rows == AfterStart(old(rows), startedAt, deviceCount)
      ensures started <==> forall row :: row in old(rows) ==> row.endedAt.Some?
      ensures rows == old(rows) + (if started then [HoldRow(startedAt, None, deviceCount)] else [])
    {
      StartOpens(rows, startedAt, deviceCount);
      var open := FindOpen();
      started := open == None;
      if started {
        rows := rows + [HoldRow(startedAt, None, deviceCount)];
      }
    }

    method End(startedAt: Time, endedAt: Time) returns (ended: bool)
      requires Valid()
      modifies this
      ensures Valid() && rows == AfterEnd(old(rows), startedAt, endedAt)
      ensures ended <==> exists row :: row in old(rows) && row.endedAt == None && row.startedAt == startedAt
      ensures |rows| == |old(rows)|
      ensures forall i :: 0 <= i < |rows| ==>
                rows[i] == if old(rows)[i].endedAt == None && old(rows)[i].startedAt == startedAt
                           then HoldRow(startedAt, Some(if endedAt > startedAt then endedAt else startedAt),
                                        old(rows)[i].deviceCount)
                           else old(rows)[i]
    {
      EndCloses(rows, startedAt, endedAt);
      OpenRowAt(rows, startedAt);
      hide Consistent, OpenSince;
      ended := false;
      for i := 0 to |rows|
        invariant |rows| == |old(rows)|
        invariant forall j :: 0 <= j < i ==> rows[j] == Ended(old(rows)[j], startedAt, endedAt)
        invariant forall j :: i <= j < |rows| ==> rows[j] == old(rows)[j]
        invariant ended <==> exists j :: 0 <= j < i && IsOpenAt(old(rows)[j], startedAt)
      {
        if IsOpen(rows[i]) && rows[i].startedAt == startedAt {
          rows := rows[i := rows[i].(endedAt := Some(if endedAt > startedAt then endedAt else startedAt))];
          ended := true;
        }
      }
    }
  }
}
