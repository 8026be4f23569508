/** The log of a remote room: frames are stamped and stored under ordered keys, a snapshot drops everything before it, and
    viewers resume from where they were. Each run of a storage sequence is one step. */
module Room {
  import opened Options
  import opened DecimalKeys

  const MAX_ROOM_BYTES := 8_388_608

  /** What a host sends; `bytes` is the length of the stamped encoding. Stream frames are not logged. */
  datatype Frame =
    | Snapshot(body: string, bytes: nat)
    | Status(streaming: bool, bytes: nat)
    | Other(body: string, bytes: nat)
    | Stream(body: string)

  type LogFrame = f: Frame | !f.Stream? witness Other("", 0)

  datatype Stamped = Stamped(frame: LogFrame, seq_: nat)
  datatype Row = Row(key: string, value: Stamped)

  /** What a viewer is sent: a frame of the log, a stream frame as the host sent it, or whether a host is there. */
  datatype ToViewer = Entry(stamped: Stamped) | Draft(frame: Frame) | Host(online: bool)

  // ---- Ordered storage ----

  /** Rows are kept in the order of their keys. */
  function PutRow(rows: seq<Row>, row: Row): seq<Row> {
    if rows == [] then [row]
    else if rows[0].key == row.key then [row] + rows[1..]
    else if Less(row.key, rows[0].key) then [row] + rows
    else [rows[0]] + PutRow(rows[1..], row)
  }

  lemma {:induction false} PutLargest(rows: seq<Row>, row: Row)
    requires forall i :: 0 <= i < |rows| ==> Less(rows[i].key, row.key)
    ensures PutRow(rows, row) == rows + [row]
  {
    if rows != [] {
      LessIsStrict(rows[0].key, row.key);
      PutLargest(rows[1..], row);
    }
  }

  // ---- The log ----

  /** Everything ever logged, stamped. */
  function Stamps(history: seq<LogFrame>): (r: seq<Stamped>)
    ensures |r| == |history|
  {
    seq(|history|, i requires 0 <= i < |history| => Stamped(history[i], i + 1))
  }

  /** The row of the `n`-th frame ever logged. */
  predicate IsRow(row: Row, history: seq<LogFrame>, n: nat) {
    0 < n <= |history| && row == Row(FrameKey(n), Stamped(history[n - 1], n))
  }

  /** Rows are those of the frames after the first `dropped`, under contiguous keys. */
  predicate Laid(rows: seq<Row>, history: seq<LogFrame>, dropped: nat) {
    && |history| == dropped + |rows|
    && forall i {:trigger IsRow(rows[i], history, dropped + i + 1)} :: 0 <= i < |rows| ==> IsRow(rows[i], history, dropped + i + 1)
  }

  predicate Keyed(rows: seq<Row>) {
    forall i {:trigger IsKey(rows[i].key)} :: 0 <= i < |rows| ==> IsKey(rows[i].key)
  }

  /** The number in a stored key. */
  function SeqAt(rows: seq<Row>, i: nat): nat
    requires Keyed(rows) && i < |rows|
  {
    assert IsKey(rows[i].key);
    SeqOf(rows[i].key)
  }

  lemma {:induction false} PutKeyed(rows: seq<Row>, row: Row)
    requires Keyed(rows) && IsKey(row.key)
    ensures Keyed(PutRow(rows, row))
  {
    if rows != [] {
      assert Keyed(rows[1..]) by {
        forall i | 0 <= i < |rows[1..]| ensures IsKey(rows[1..][i].key) {
          assert IsKey(rows[i + 1].key);
        }
      }
      PutKeyed(rows[1..], row);
      assert IsKey(rows[0].key);
      var put := PutRow(rows, row);
      forall i | 0 <= i < |put| ensures IsKey(put[i].key) {
        if rows[0].key == row.key {
          assert i > 0 ==> put[i] == rows[1..][i - 1];
        } else if Less(row.key, rows[0].key) {
          assert i > 0 ==> put[i] == rows[i - 1];
        } else {
          assert i > 0 ==> put[i] == PutRow(rows[1..], row)[i - 1];
        }
      }
    }
  }

  function Total(rows: seq<Row>): nat {
    if rows == [] then 0 else Total(rows[..|rows| - 1]) + rows[|rows| - 1].value.frame.bytes
  }

  lemma LaidMore(rows: seq<Row>, row: Row, history: seq<LogFrame>, frame: LogFrame, dropped: nat)
    requires Laid(rows, history, dropped) && IsRow(row, history + [frame], |history| + 1)
    ensures Laid(rows + [row], history + [frame], dropped)
  {
    var more := rows + [row];
    forall i | 0 <= i < |more| ensures IsRow(more[i], history + [frame], dropped + i + 1) {
      if i < |rows| {
        assert more[i] == rows[i];
        LaidAt(rows, history, dropped, i);
        assert (history + [frame])[dropped + i] == history[dropped + i];
      }
    }
  }

  lemma LaidAt(rows: seq<Row>, history: seq<LogFrame>, dropped: nat, i: nat)
    requires Laid(rows, history, dropped) && i < |rows|
    ensures IsRow(rows[i], history, dropped + i + 1)
  {}

  lemma LastOf(rows: seq<Row>, history: seq<LogFrame>, dropped: nat, key: string)
    requires Laid(rows, history, dropped) && |history| + 1 < LIMIT && key == FrameKey(|history| + 1)
    ensures forall i :: 0 <= i < |rows| ==> Less(rows[i].key, key)
  {
    forall i | 0 <= i < |rows| ensures Less(rows[i].key, key) {
      KeyBelow(rows, history, dropped, i);
    }
  }

  lemma KeyBelow(rows: seq<Row>, history: seq<LogFrame>, dropped: nat, i: nat)
    requires Laid(rows, history, dropped) && |history| + 1 < LIMIT && i < |rows|
    ensures Less(rows[i].key, FrameKey(|history| + 1))
  {
    LaidAt(rows, history, dropped, i);
    KeysOrdered(dropped + i + 1, |history| + 1);
  }

  lemma LogsNext(rows: seq<Row>, history: seq<LogFrame>, dropped: nat, frame: LogFrame, row: Row)
    requires Laid(rows, history, dropped) && |history| + 1 < LIMIT && IsRow(row, history + [frame], |history| + 1)
    ensures PutRow(rows, row) == rows + [row] && Laid(rows + [row], history + [frame], dropped)
    ensures Total(rows + [row]) == Total(rows) + frame.bytes
  {
    LastOf(rows, history, dropped, row.key);
    PutLargest(rows, row);
    assert (rows + [row])[..|rows|] == rows;
    LaidMore(rows, row, history, frame, dropped);
  }

  /** What [RemoteRoom.Stored] says of the stored rows. */
  ghost predicate Holds(rows: seq<Row>, bytes: nat, history: seq<LogFrame>, dropped: nat) {
    Keyed(rows) && (|history| < LIMIT ==> Laid(rows, history, dropped) && bytes == Total(rows))
  }

  lemma RowIsKeyed(row: Row, history: seq<LogFrame>, n: nat)
    requires IsRow(row, history, n)
    ensures IsKey(row.key)
  {
    FrameKeyRoundTrip(n);
  }

  lemma AppendHolds(rows: seq<Row>, bytes: nat, history: seq<LogFrame>, dropped: nat, frame: LogFrame, row: Row)
    requires Holds(rows, bytes, history, dropped) && IsRow(row, history + [frame], |history| + 1)
    ensures Holds(PutRow(rows, row), bytes + frame.bytes, history + [frame], dropped)
    ensures |history| + 1 < LIMIT ==> PutRow(rows, row) == rows + [row]
  {
    RowIsKeyed(row, history + [frame], |history| + 1);
    PutKeyed(rows, row);
    if |history| + 1 < LIMIT {
      LogsNext(rows, history, dropped, frame, row);
    }
  }

  /** The frames a resuming viewer is sent. */
  function Replayed(history: seq<LogFrame>, dropped: nat, since: Option<nat>): seq<Stamped>
    requires dropped <= |history|
  {
    if since.Some? && since.value >= dropped then
      if since.value <= |history| then Stamps(history)[since.value..] else []
    else Stamps(history)[dropped..]
  }

  class RemoteRoom {
    var storedSeq: nat
    var bytes: nat
    var stream: Option<Frame>
    var busy: bool
    var frames: seq<Row>
    ghost var history: seq<LogFrame>
    ghost var dropped: nat

    /** Below the limit of its keys: the stored keys are contiguous up to `seq`, `bytes` is what they take, and the oldest
        stored frame is a snapshot unless it is the first of all. */
    ghost predicate Valid()
      reads this
    {
      Stored() && (storedSeq < LIMIT && dropped > 0 ==> frames != [] && frames[0].value.frame.Snapshot?)
    }

    constructor ()
      ensures Valid() && history == [] && frames == [] && stream == None && !busy
    {
      storedSeq, bytes, stream, busy, frames, history, dropped := 0, 0, None, false, [], [], 0;
    }

    /** Everything [Valid] says but for the oldest frame. */
    ghost predicate Stored()
      reads this
    {
      storedSeq == |history| && Holds(frames, bytes, history, dropped)
    }

    /** Stamp and store a frame. */
    method Append(frame: LogFrame) returns (stamped: Stamped)
      requires Stored()
      modifies this`storedSeq, this`bytes, this`frames, this`history
      ensures Stored() && history == old(history) + [frame] && stamped == Stamped(frame, |history|)
      ensures |history| < LIMIT ==> frames == old(frames) + [Row(FrameKey(|history|), stamped)]
    {
      var next := storedSeq + 1;
      stamped := Stamped(frame, next);
      var row := Row(FrameKey(next), stamped);
      AppendHolds(frames, bytes, history, dropped, frame, row);
      bytes := bytes + frame.bytes;
      frames := PutRow(frames, row);
      storedSeq := next;
      history := history + [frame];
    }

    /** Log a frame; a snapshot takes the place of everything before it. */
    method Log(frame: LogFrame) returns (stamped: Stamped)
      requires Valid()
      modifies this`storedSeq, this`bytes, this`frames, this`history, this`dropped
      ensures Valid() && history == old(history) + [frame] && stamped == Stamped(frame, |history|)
      ensures |history| < LIMIT ==>
                frames == (if frame.Snapshot? then [] else old(frames)) + [Row(FrameKey(|history|), stamped)]
    {
      if frame.Snapshot? {
        frames := [];
        bytes := 0;
        dropped := |history|;
      }
      stamped := Append(frame);
    }

    /** Log a frame, or keep the latest stream frame in its slot; viewers get it either way, and `resnapshot` asks the host
        for a snapshot. */
    method OnHostFrame(frame: Frame) returns (toViewers: ToViewer, resnapshot: bool)
      requires Valid()
      modifies this
      ensures Valid() && history == old(history) + LoggedOf(Sends(frame)) && stream == SlotOf(Sends(frame))
      ensures busy == if frame.Status? then frame.streaming else old(busy)
      ensures if frame.Stream? then frames == old(frames) && toViewers == Draft(frame) && !resnapshot
              else toViewers == Entry(Stamped(frame, |history|)) && (resnapshot <==> bytes > MAX_ROOM_BYTES)
      ensures |history| < LIMIT && !frame.Stream? ==>
                var row := Row(FrameKey(|history|), Stamped(frame, |history|));
                frames == if frame.Snapshot? then [row] else old(frames) + [row]
    {
      if frame.Status? {
        busy := frame.streaming;
      }
      if frame.Stream? {
        stream := Some(frame);
        assert history + [] == history;
        return Draft(frame), false;
      }
      stream := None;
      var stamped := Log(frame);
      return Entry(stamped), bytes > MAX_ROOM_BYTES;
    }

    /** The last host has gone: its turn and its draft end with it. */
    method OnHostGone() returns (toViewers: ToViewer)
      requires Valid()
      modifies this`busy, this`stream
      ensures Valid() && stream == None && !busy && toViewers == Host(false)
    {
      busy := false;
      stream := None;
      return Host(false);
    }

    /** A host does something. */
    method OnHost(e: HostEvent)
      requires Valid()
      modifies this
      ensures Valid() && history == old(history) + LoggedOf(e) && stream == SlotOf(e)
    {
      match e
      case Sends(frame) =>
        var _, _ := OnHostFrame(frame);
      case Leaves =>
        var _ := OnHostGone();
    }

    lemma OldestIsSnapshot()
      requires Valid() && storedSeq < LIMIT && dropped > 0
      ensures dropped < |history| && history[dropped].Snapshot?
    {
      LaidAt(frames, history, dropped, 0);
    }

    lemma Reaches<V(!new)>(apply: (V, Stamped) -> V, start: V, since: Option<nat>)
      requires Valid() && storedSeq < LIMIT && SnapshotsReplace(apply) && since.Or(0) <= |history|
      ensures var viewer := Applied(apply, start, Stamps(history)[..since.Or(0)]);
              dropped <= |history|
              && Applied(apply, viewer, Replayed(history, dropped, since)) == Applied(apply, start, Stamps(history))
    {
      if dropped > 0 {
        OldestIsSnapshot();
      }
      ReplayReaches(apply, start, history, dropped, since);
    }

    /** Send the stored frames from a number on, in the order of their keys. */
    method SendLog(from: nat) returns (sent: seq<ToViewer>)
      requires Keyed(frames)
      ensures sent == Entries(Sent(frames, |frames|, from))
    {
      sent := [];
      for i := 0 to |frames|
        invariant sent == Entries(Sent(frames, i, from))
      {
        var n := SeqAt(frames, i);
        if n >= from {
          EntriesMore(Sent(frames, i, from), frames[i].value);
          sent := sent + [Entry(frames[i].value)];
        }
      }
    }

    /** Send a viewer what it missed: from its resume point, or everything held when that lies before the last snapshot; then
        the stream frame in the slot, and last whether a host is there. */
    method Replay(since: Option<nat>, online: bool) returns (sent: seq<ToViewer>)
      requires Valid()
      ensures storedSeq < LIMIT ==>
                dropped <= |history| && sent == Entries(Replayed(history, dropped, since)) + Slot(stream) + [Host(online)]
    {
      var oldest := if |frames| > 0 then SeqAt(frames, 0) else 0;
      var from := if since.Some? && since.value + 1 >= oldest then since.value + 1 else 0;
      sent := SendLog(from);
      if storedSeq < LIMIT {
        SentIsReplayed(frames, history, dropped, since);
      }
      if stream.Some? {
        sent := sent + [Draft(stream.value)];
      }
      sent := sent + [Host(online)];
    }
  }

  function Entries(frames: seq<Stamped>): (r: seq<ToViewer>)
    ensures |r| == |frames|
  {
    seq(|frames|, i requires 0 <= i < |frames| => Entry(frames[i]))
  }

  lemma EntriesMore(frames: seq<Stamped>, frame: Stamped)
    ensures Entries(frames + [frame]) == Entries(frames) + [Entry(frame)]
  {}

  function Slot(stream: Option<Frame>): seq<ToViewer> {
    if stream.Some? then [Draft(stream.value)] else []
  }

  function Sent(rows: seq<Row>, n: nat, from: nat): seq<Stamped>
    requires n <= |rows| && Keyed(rows)
  {
    if n == 0 then []
    else Sent(rows, n - 1, from) + if SeqAt(rows, n - 1) >= from then [rows[n - 1].value] else []
  }

  /** Where a viewer's frames start. */
  function StartAt(dropped: nat, n: nat, from: nat): nat {
    if from <= dropped + 1 then dropped else if from - 1 <= dropped + n then from - 1 else dropped + n
  }

  lemma RowSeq(rows: seq<Row>, history: seq<LogFrame>, dropped: nat, i: nat)
    requires Laid(rows, history, dropped) && i < |rows|
    ensures IsKey(rows[i].key) && SeqOf(rows[i].key) == dropped + i + 1 && rows[i].value == Stamps(history)[dropped + i]
  {
    assert IsRow(rows[i], history, dropped + i + 1);
    FrameKeyRoundTrip(dropped + i + 1);
  }

  lemma OneMore<T>(s: seq<T>, a: nat, b: nat)
    requires a <= b < |s|
    ensures s[a..b + 1] == s[a..b] + [s[b]]
  {}

  lemma {:induction false} SentMeans(rows: seq<Row>, history: seq<LogFrame>, dropped: nat, n: nat, from: nat)
    requires Laid(rows, history, dropped) && n <= |rows| && Keyed(rows)
    ensures Sent(rows, n, from) == Stamps(history)[StartAt(dropped, n, from)..dropped + n]
  {
    if n > 0 {
      SentMeans(rows, history, dropped, n - 1, from);
      RowSeq(rows, history, dropped, n - 1);
      OneMore(Stamps(history), StartAt(dropped, n - 1, from), dropped + n - 1);
    }
  }

  /** Where a viewer that comes back is sent from. */
  function FromAt(rows: seq<Row>, since: Option<nat>): nat
    requires Keyed(rows)
  {
    var oldest := if |rows| > 0 then SeqAt(rows, 0) else 0;
    if since.Some? && since.value + 1 >= oldest then since.value + 1 else 0
  }

  lemma FromAtMeans(rows: seq<Row>, history: seq<LogFrame>, dropped: nat, since: Option<nat>)
    requires Laid(rows, history, dropped) && Keyed(rows)
    ensures FromAt(rows, since) ==
            if since.Some? && (|rows| == 0 || since.value >= dropped) then since.value + 1 else 0
  {
    if |rows| > 0 {
      RowSeq(rows, history, dropped, 0);
    }
  }

  /** What is sent from a resume point is what a viewer missed. */
  lemma SentIsReplayed(rows: seq<Row>, history: seq<LogFrame>, dropped: nat, since: Option<nat>)
    requires Laid(rows, history, dropped) && Keyed(rows)
    ensures Sent(rows, |rows|, FromAt(rows, since)) == Replayed(history, dropped, since)
  {
    FromAtMeans(rows, history, dropped, since);
    SentMeans(rows, history, dropped, |rows|, FromAt(rows, since));
  }

  // ---- What replaying means ----

  /** A viewer applies frames in order; a snapshot replaces whatever it had. */
  function Applied<V>(apply: (V, Stamped) -> V, v: V, frames: seq<Stamped>): V {
    if frames == [] then v else apply(Applied(apply, v, frames[..|frames| - 1]), frames[|frames| - 1])
  }

  ghost predicate SnapshotsReplace<V(!new)>(apply: (V, Stamped) -> V) {
    forall v, w, s: Stamped :: s.frame.Snapshot? ==> apply(v, s) == apply(w, s)
  }

  lemma {:induction false} AppliedConcat<V>(apply: (V, Stamped) -> V, v: V, a: seq<Stamped>, b: seq<Stamped>)
    ensures Applied(apply, v, a + b) == Applied(apply, Applied(apply, v, a), b)
  {
    if b == [] {
      assert a + b == a;
    } else {
      AppliedConcat(apply, v, a, b[..|b| - 1]);
      assert (a + b)[..|a + b| - 1] == a + b[..|b| - 1];
    }
  }

  lemma {:induction false} SnapshotForgets<V(!new)>(apply: (V, Stamped) -> V, v: V, w: V, frames: seq<Stamped>)
    requires SnapshotsReplace(apply) && frames != [] && frames[0].frame.Snapshot?
    ensures Applied(apply, v, frames) == Applied(apply, w, frames)
  {
    if |frames| > 1 {
      SnapshotForgets(apply, v, w, frames[..|frames| - 1]);
    } else {
      assert frames[..0] == [];
    }
  }

  /** Compaction is invisible: a viewer that applied everything through `since`, or nothing yet, reaches the state of the
      full history by what it is sent. */
  lemma ReplayReaches<V(!new)>(apply: (V, Stamped) -> V, start: V, history: seq<LogFrame>, dropped: nat, since: Option<nat>)
    requires SnapshotsReplace(apply) && dropped <= |history| && since.Or(0) <= |history|
    requires dropped > 0 ==> dropped < |history| && history[dropped].Snapshot?
    ensures var viewer := Applied(apply, start, Stamps(history)[..since.Or(0)]);
            Applied(apply, viewer, Replayed(history, dropped, since)) == Applied(apply, start, Stamps(history))
  {
    var all, from := Stamps(history), since.Or(0);
    if since.Some? && since.value >= dropped {
      assert all == all[..from] + all[from..];
      AppliedConcat(apply, start, all[..from], all[from..]);
    } else {
      assert all == all[..dropped] + all[dropped..];
      AppliedConcat(apply, start, all[..dropped], all[dropped..]);
      if dropped > 0 {
        SnapshotForgets(apply, Applied(apply, start, all[..from]), Applied(apply, start, all[..dropped]), all[dropped..]);
      } else {
        assert all[..from] == [];
      }
    }
  }

  /** Any series of frames of hosts that come and go, and a viewer that saw the first `since` logged ones and comes back: what
      it is sent of the log brings it to the state of the full history, whatever it does with frames, and after that come the
      draft of the moment and whether a host is there. */
  method Resume<V(!new)>(ghost apply: (V, Stamped) -> V, ghost start: V, events: seq<HostEvent>, since: Option<nat>, online: bool)
    returns (sent: seq<ToViewer>, ghost missed: seq<Stamped>)
    requires SnapshotsReplace(apply) && |events| < LIMIT && since.Or(0) <= |Logged(events, |events|)|
    ensures sent == Entries(missed) + (if events == [] then [] else Slot(SlotOf(events[|events| - 1]))) + [Host(online)]
    ensures var all := Stamps(Logged(events, |events|));
            Applied(apply, Applied(apply, start, all[..since.Or(0)]), missed) == Applied(apply, start, all)
  {
    var room := new RemoteRoom();
    for i := 0 to |events|
      invariant room.Valid() && room.history == Logged(events, i) && |room.history| <= i
      invariant room.stream == if i == 0 then None else SlotOf(events[i - 1])
    {
      room.OnHost(events[i]);
    }
    sent := room.Replay(since, online);
    missed := Replayed(room.history, room.dropped, since);
    room.Reaches(apply, start, since);
  }

  /** What hosts do: send a frame, or leave, the last of them. */
  datatype HostEvent = Sends(frame: Frame) | Leaves

  function LoggedOf(e: HostEvent): seq<LogFrame> {
    if e.Sends? && !e.frame.Stream? then [e.frame] else []
  }

  /** The stream frame kept after an event: only one that has just come. */
  function SlotOf(e: HostEvent): Option<Frame> {
    if e.Sends? && e.frame.Stream? then Some(e.frame) else None
  }

  /** The frames that are logged. */
  function Logged(events: seq<HostEvent>, n: nat): seq<LogFrame>
    requires n <= |events|
  {
    if n == 0 then [] else Logged(events, n - 1) + LoggedOf(events[n - 1])
  }
}
