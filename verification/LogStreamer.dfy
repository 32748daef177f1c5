/**
 Log streaming: two channels of lines are merged into records, one per line, through either
 the JSON path or the raw path. Closing a channel and receiving a line are what `select` may
 observe; which ready channel it takes is left open.
 */
module LogStreamer {

  const WORKER_ID_LABEL := "worker_id"

  /**
   What the JSON library makes of a line: no JSON at all, JSON that does not decode into an
   object, the literal `null` (section 3 of RFC 8259), or an object.
   */
  datatype Shape = NotJson | Undecodable | Null | Object(fields: map<string, string>)

  datatype Text = Text(line: string, shape: Shape)

  datatype Channel = Stdout | Stderr

  /** What is written for a line: the object with the worker's id added, or the raw text. */
  datatype Record =
    | Json(channel: Channel, fields: map<string, string>)
    | Raw(channel: Channel, workerId: string, line: string)

  /** Whether a line is flattened, logged as raw text, or stored into a nil map. */
  datatype Outcome = Written | Declined | Crashed

  function RecordOf(workerId: string, channel: Channel, t: Text): Record {
    if t.shape.Object? && WORKER_ID_LABEL !in t.shape.fields
    then Json(channel, t.shape.fields[WORKER_ID_LABEL := workerId])
    else Raw(channel, workerId, t.line)
  }

  /** The record has exactly the fields of the object and the worker's id. */
  predicate Flattened(workerId: string, channel: Channel, fields: map<string, string>, r: Record) {
    && r.Json? && r.channel == channel
    && WORKER_ID_LABEL in r.fields && r.fields[WORKER_ID_LABEL] == workerId
    && r.fields - {WORKER_ID_LABEL} == fields
  }

  /** Whether the line counts as valid JSON that could not be flattened. */
  predicate Unflattened(t: Text) {
    t.shape.Undecodable? || (t.shape.Object? && WORKER_ID_LABEL in t.shape.fields)
  }

  class LogSink {
    var records: seq<Record>
    var failedToParse: nat

    constructor ()
      ensures records == [] && failedToParse == 0
    {
      records, failedToParse := [], 0;
    }

    /**
     `logJson`: on either channel an object without a worker id is written with its fields and
     the id, and nothing else is. The map decoded from `null` is nil, and adding the id crashes.
     */
    method LogJson(workerId: string, channel: Channel, t: Text) returns (r: Outcome)
      modifies this
      ensures r.Crashed? <==> t.shape.Null?
      ensures r.Written? <==> t.shape.Object? && WORKER_ID_LABEL !in t.shape.fields
      ensures |records| == |old(records)| + (if r.Written? then 1 else 0) && old(records) <= records
      ensures r.Written? ==> Flattened(workerId, channel, t.shape.fields, records[|records| - 1])
      ensures failedToParse == old(failedToParse) +
                (if t.shape.Undecodable? || (t.shape.Object? && WORKER_ID_LABEL in t.shape.fields) then 1 else 0)
      ensures r.Written? ==> records[|records| - 1] == RecordOf(workerId, channel, t)
      ensures failedToParse == old(failedToParse) + (if Unflattened(t) then 1 else 0)
    {
      if t.shape.NotJson? {
        return Declined;
      }
      if t.shape.Undecodable? {
        failedToParse := failedToParse + 1;
        return Declined;
      }
      if t.shape.Object? && WORKER_ID_LABEL in t.shape.fields {
        failedToParse := failedToParse + 1;
        return Declined;
      }
      if t.shape.Null? {
        return Crashed;
      }
      var objmap := t.shape.fields;
      objmap := objmap[WORKER_ID_LABEL := workerId];
      assert objmap - {WORKER_ID_LABEL} == t.shape.fields;
      records := records + [Json(channel, objmap)];
      return Written;
    }

    /**
     `LogStdOut` and `LogStdErr`: exactly one record, unless the line is `null`. It is the
     flattened object where there is one without a worker id, and the raw line otherwise.
     */
    method LogLine(workerId: string, channel: Channel, t: Text) returns (crashed: bool)
      modifies this
      ensures crashed <==> t.shape.Null?
      ensures |records| == |old(records)| + (if crashed then 0 else 1) && old(records) <= records
      ensures !crashed ==>
                if t.shape.Object? && WORKER_ID_LABEL !in t.shape.fields
                then Flattened(workerId, channel, t.shape.fields, records[|records| - 1])
                else records[|records| - 1] == Raw(channel, workerId, t.line)
      ensures !crashed ==> records == old(records) + [RecordOf(workerId, channel, t)]
      ensures failedToParse == old(failedToParse) + (if Unflattened(t) then 1 else 0)
    {
      var r := LogJson(workerId, channel, t);
      if r.Declined? {
        records := records + [Raw(channel, workerId, t.line)];
      }
      crashed := r.Crashed?;
    }

    /** What has been logged, from the state with `start` and `failed`, for the lines received so far. */
    ghost predicate Logged(workerId: string, out: seq<Text>, err: seq<Text>, logged: seq<Record>, start: seq<Record>, failed: nat)
      reads this
    {
      && records == start + logged && Merged(workerId, out, err, logged)
      && failedToParse == failed + Failures(out) + Failures(err)
    }

    /** One received line. */
    method LogNext(workerId: string, c: Channel, t: Text, ghost out: seq<Text>, ghost err: seq<Text>,
                   ghost logged: seq<Record>, ghost start: seq<Record>, ghost failed: nat)
      returns (crashed: bool, ghost more: seq<Record>)
      requires Logged(workerId, out, err, logged, start, failed)
      modifies this
      ensures crashed <==> t.shape.Null?
      ensures crashed ==> Logged(workerId, out, err, more, start, failed)
      ensures !crashed && c.Stdout? ==> Logged(workerId, out + [t], err, more, start, failed)
      ensures !crashed && c.Stderr? ==> Logged(workerId, out, err + [t], more, start, failed)
    {
      hide Merged;
      hide Failures;
      hide Flattened;
      hide RecordOf;
      crashed := LogLine(workerId, c, t);
      more := logged;
      if !crashed {
        more := logged + [RecordOf(workerId, c, t)];
        assert records == start + more;
        if c.Stdout? {
          MergedOut(workerId, out, err, logged, t);
        } else {
          MergedErr(workerId, out, err, logged, t);
        }
      }
    }

    /**
     `StreamLogs`. `taken` says how many lines were received from each channel, `closed` that
     stdStreamChan has been closed, the event `StreamsClose` of `Worker`. For every interleaving:
     without a `null` line all lines of both channels are logged, one record each and in the order
     of their channel; with one, the process crashes at a `null` line, the lines received before
     it having been logged.
     */
    method StreamLogs(workerId: string, streaming: bool, out: seq<Text>, err: seq<Text>)
      returns (crashed: bool, closed: bool, taken: (nat, nat), ghost logged: seq<Record>)
      modifies this
      ensures closed && records == old(records) + logged
      ensures taken.0 <= |out| && taken.1 <= |err|
      ensures Merged(workerId, out[..taken.0], err[..taken.1], logged)
      ensures failedToParse == old(failedToParse) + Failures(out[..taken.0]) + Failures(err[..taken.1])
      ensures !streaming ==> !crashed && logged == []
      ensures streaming && !crashed ==> taken == (|out|, |err|)
      ensures streaming ==> (crashed <==> !NoNull(out) || !NoNull(err))
    {
      logged, closed, crashed := [], false, false;
      var i, j := 0, 0;
      ghost var start, failed := records, failedToParse;
      if streaming {
        var outOpen, errOpen := true, true;
        while outOpen || errOpen
          invariant 0 <= i <= |out| && 0 <= j <= |err|
          invariant !outOpen ==> i == |out|
          invariant !errOpen ==> j == |err|
          invariant Logged(workerId, out[..i], err[..j], logged, start, failed)
          invariant !crashed
          decreases |out| - i + |err| - j, outOpen, errOpen
        {
          hide Logged;
          hide NoNull;
          if
          case outOpen =>
            if i == |out| {
              outOpen := false;
            } else {
              crashed, logged := LogNext(workerId, Stdout, out[i], out[..i], err[..j], logged, start, failed);
              if crashed {
                HasNull(out, i);
                break;
              }
              assert out[..i + 1] == out[..i] + [out[i]];
              i := i + 1;
            }
          case errOpen =>
            if j == |err| {
              errOpen := false;
            } else {
              crashed, logged := LogNext(workerId, Stderr, err[j], out[..i], err[..j], logged, start, failed);
              if crashed {
                HasNull(err, j);
                break;
              }
              assert err[..j + 1] == err[..j] + [err[j]];
              j := j + 1;
            }
        }
        assert !crashed ==> out[..i] == out && err[..j] == err;
      }
      closed := true;
      taken := (i, j);
    }
  }

  /**
   `logged` merges the records of the lines `out` and `err`: each channel's own records, in
   its order, one for each line, and nothing else.
   */
  ghost predicate Merged(workerId: string, out: seq<Text>, err: seq<Text>, logged: seq<Record>) {
    && On(Stdout, logged) == RecordsOf(workerId, Stdout, out)
    && On(Stderr, logged) == RecordsOf(workerId, Stderr, err)
    && NoNull(out) && NoNull(err)
    && |logged| == |out| + |err|
  }

  lemma HasNull(lines: seq<Text>, i: nat)
    requires i < |lines| && lines[i].shape.Null?
    ensures !NoNull(lines)
  {
  }

  lemma OnAppend(c: Channel, records: seq<Record>, r: Record)
    ensures On(c, records + [r]) == On(c, records) + (if r.channel == c then [r] else [])
  {
    assert (records + [r])[..|records|] == records;
  }

  lemma MergedOut(workerId: string, out: seq<Text>, err: seq<Text>, logged: seq<Record>, t: Text)
    requires Merged(workerId, out, err, logged) && !t.shape.Null?
    ensures Merged(workerId, out + [t], err, logged + [RecordOf(workerId, Stdout, t)])
    ensures Failures(out + [t]) == Failures(out) + (if Unflattened(t) then 1 else 0)
  {
    OnAppend(Stdout, logged, RecordOf(workerId, Stdout, t));
    OnAppend(Stderr, logged, RecordOf(workerId, Stdout, t));
    assert (out + [t])[..|out|] == out;
  }

  lemma MergedErr(workerId: string, out: seq<Text>, err: seq<Text>, logged: seq<Record>, t: Text)
    requires Merged(workerId, out, err, logged) && !t.shape.Null?
    ensures Merged(workerId, out, err + [t], logged + [RecordOf(workerId, Stderr, t)])
    ensures Failures(err + [t]) == Failures(err) + (if Unflattened(t) then 1 else 0)
  {
    OnAppend(Stdout, logged, RecordOf(workerId, Stderr, t));
    OnAppend(Stderr, logged, RecordOf(workerId, Stderr, t));
    assert (err + [t])[..|err|] == err;
  }

  ghost predicate NoNull(lines: seq<Text>) {
    forall i | 0 <= i < |lines| :: !lines[i].shape.Null?
  }

  /** The records of one channel, in the order in which they were written. */
  ghost function On(c: Channel, records: seq<Record>): seq<Record> {
    if records == [] then []
    else On(c, records[..|records| - 1]) + (if records[|records| - 1].channel == c then [records[|records| - 1]] else [])
  }

  ghost function RecordsOf(workerId: string, c: Channel, lines: seq<Text>): seq<Record> {
    seq(|lines|, i requires 0 <= i < |lines| => RecordOf(workerId, c, lines[i]))
  }

  ghost function Failures(lines: seq<Text>): nat {
    if lines == [] then 0
    else Failures(lines[..|lines| - 1]) + (if Unflattened(lines[|lines| - 1]) then 1 else 0)
  }

  /** Nothing is lost or duplicated: the two projections make up the whole log. */
  lemma {:induction false} OnCount(records: seq<Record>)
    ensures |On(Stdout, records)| + |On(Stderr, records)| == |records|
  {
    if records != [] {
      OnCount(records[..|records| - 1]);
    }
  }

  /** On either channel, an object without a worker id is flattened, and any other line is kept as it is. */
  lemma RecordIdentifies(workerId: string, c: Channel, t: Text)
    ensures var r := RecordOf(workerId, c, t);
            if t.shape.Object? && WORKER_ID_LABEL !in t.shape.fields
            then Flattened(workerId, c, t.shape.fields, r)
            else r == Raw(c, workerId, t.line)
  {
    var r := RecordOf(workerId, c, t);
    if r.Json? {
      assert r.fields - {WORKER_ID_LABEL} == t.shape.fields;
    }
  }
}
