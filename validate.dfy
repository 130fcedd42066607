/**
 * tests/validate.py: every `<P>_START` marker needs its `<P>_END` partner
 * and the other way round, and `tokens_generated` must not be negative;
 * the paths of the logs that fail a check are collected in `bad_logs`.
 */
module Validate {
  import opened Wrappers
  import opened Text
  import Statlog

  /** What `json.load` gives for one path. */
  datatype LogFile =
    | Unparsable                                    // json.load raises
    | NullDocument                                  // the file holds `null`
    | Document(labels: seq<string>, tokens: int)    // marker labels and `int(tokens_generated)`

  /** The exceptions that stop the script. */
  datatype ValidateError =
    | JsonDecodeError(path: string)   // from json.load
    | NullData(path: string)          // `data['timestamps']` on None

  /** `stamp.rsplit('_', 1)[0] + suffix` */
  function Partner(stamp: string, suffix: string): string {
    RSplitHead(stamp, '_') + suffix
  }

  /** The two checks of the marker loop for one stamp. */
  predicate StampFails(stamp: string, stamps: seq<string>) {
    || (EndsWith(stamp, "_START") && Partner(stamp, "_END") !in stamps)
    || (EndsWith(stamp, "_END") && Partner(stamp, "_START") !in stamps)
  }

  predicate MarkersFail(stamps: seq<string>) {
    exists i | 0 <= i < |stamps| :: StampFails(stamps[i], stamps)
  }

  /** The marker loop; `failed` is only ever set. */
  method CheckMarkers(stamps: seq<string>) returns (failed: bool)
    ensures failed <==> MarkersFail(stamps)
  {
    failed := false;
    var k := 0;
    while k < |stamps|
      invariant 0 <= k <= |stamps|
      invariant failed <==> exists i :: 0 <= i < k && StampFails(stamps[i], stamps)
    {
      var stamp := stamps[k];
      ghost var before := failed;
      if EndsWith(stamp, "_START") {
        var endStamp := RSplitHead(stamp, '_') + "_END";
        if endStamp !in stamps {
          failed := true;
        }
      }
      if EndsWith(stamp, "_END") {
        var startStamp := RSplitHead(stamp, '_') + "_START";
        if startStamp !in stamps {
          failed := true;
        }
      }
      assert failed <==> before || StampFails(stamp, stamps);
      k := k + 1;
    }
  }

  /** A `<P>_START` label's partner is `<P>_END`, and the other way round. */
  lemma PartnerOfSuffix(p: string)
    ensures Partner(p + "_START", "_END") == p + "_END"
    ensures Partner(p + "_END", "_START") == p + "_START"
  {
    assert p + "_START" == p + ['_'] + "START";
    assert p + "_END" == p + ['_'] + "END";
    RSplitHeadOfSuffix(p, '_', "START");
    RSplitHeadOfSuffix(p, '_', "END");
  }

  /** A `<P>_START` label fails exactly when `<P>_END` is missing, and a `<P>_END`
      label exactly when `<P>_START` is missing. */
  lemma StampFailsIff(p: string, stamps: seq<string>)
    ensures StampFails(p + "_START", stamps) <==> p + "_END" !in stamps
    ensures StampFails(p + "_END", stamps) <==> p + "_START" !in stamps
  {
    PartnerOfSuffix(p);
    var s := p + "_START";
    var e := p + "_END";
    assert EndsWith(s, "_START");
    assert !EndsWith(s, "_END") by { assert s[|s| - 4..][0] == 'T'; }
    assert EndsWith(e, "_END");
    assert !EndsWith(e, "_START") by {
      if |e| >= 6 { assert e[|e| - 1] == 'D'; assert "_START"[5] == 'T'; }
    }
  }

  /** Labels with neither suffix, such as the recorder's own "Log started" and
      "Log finished", never fail the check. */
  lemma OtherLabelsPass(stamp: string, stamps: seq<string>)
    requires !EndsWith(stamp, "_START") && !EndsWith(stamp, "_END")
    ensures !StampFails(stamp, stamps)
  {
  }

  lemma RecorderLabelsPass(stamps: seq<string>)
    ensures !StampFails(Statlog.LogStarted, stamps)
    ensures !StampFails(Statlog.LogFinished, stamps)
  {
    var a := Statlog.LogStarted;
    var b := Statlog.LogFinished;
    assert !EndsWith(a, "_START") by { assert a[|a| - 1] == 'd'; }
    assert !EndsWith(a, "_END") by { assert a[|a| - 1] == 'd'; }
    assert !EndsWith(b, "_START") by { assert b[|b| - 1] == 'd'; }
    assert !EndsWith(b, "_END") by { assert b[|b| - 1] == 'd'; }
  }

  /** The check only depends on which labels occur, not on their order, repetitions or times. */
  lemma MarkersFailSetOnly(a: seq<string>, b: seq<string>)
    requires forall x :: x in a <==> x in b
    ensures MarkersFail(a) <==> MarkersFail(b)
  {
    forall stamps: seq<string>, other: seq<string>, i | (forall x :: x in stamps <==> x in other) && 0 <= i < |stamps| && StampFails(stamps[i], stamps)
      ensures MarkersFail(other)
    {
      assert stamps[i] in stamps;
      var j :| 0 <= j < |other| && other[j] == stamps[i];
      assert StampFails(other[j], other);
    }
  }

  /** A log in which every `_START` label has its `_END` and every `_END` label its
      `_START` passes the marker check. */
  lemma PairedPasses(stamps: seq<string>)
    requires forall p :: p + "_START" in stamps <==> p + "_END" in stamps
    ensures !MarkersFail(stamps)
  {
    forall i | 0 <= i < |stamps| ensures !StampFails(stamps[i], stamps) {
      var s := stamps[i];
      if EndsWith(s, "_START") {
        var p := s[..|s| - 6];
        assert s == p + "_START";
        StampFailsIff(p, stamps);
      } else if EndsWith(s, "_END") {
        var p := s[..|s| - 4];
        assert s == p + "_END";
        StampFailsIff(p, stamps);
      }
    }
  }

  /** `failed` for one loaded document. */
  function Fails(labels: seq<string>, tokens: int): bool {
    MarkersFail(labels) || tokens < 0
  }

  /** The body of the path loop for one document. */
  method CheckLog(labels: seq<string>, tokens: int) returns (failed: bool)
    ensures failed <==> MarkersFail(labels) || tokens < 0
  {
    failed := CheckMarkers(labels);
    if tokens < 0 {
      failed := true;
    }
  }

  /** A negative token count fails a log however its markers look. */
  lemma NegativeTokensFail(labels: seq<string>, tokens: int)
    requires tokens < 0
    ensures Fails(labels, tokens)
  {
  }

  /** `bad_logs`, or the exception that stopped the script. */
  function BadLogs(logs: seq<(string, LogFile)>): Result<seq<string>, ValidateError>
    decreases |logs|
  {
    if logs == [] then Ok([])
    else match BadLogs(logs[..|logs| - 1])
      case Err(e) => Err(e)
      case Ok(bad) =>
        var (path, file) := logs[|logs| - 1];
        match file
        case Unparsable => Err(JsonDecodeError(path))
        case NullDocument => Err(NullData(path))
        case Document(labels, tokens) => Ok(bad + (if Fails(labels, tokens) then [path] else []))
  }

  predicate Loadable(f: LogFile) {
    f.Document?
  }

  /** The script stops exactly when some file is not a JSON document; otherwise a path
      is in `bad_logs` exactly when its log fails a check, and the list is no longer than
      the walk (`BadLogsDocument` gives the one-path-per-failing-document step). */
  lemma {:induction false} BadLogsSpec(logs: seq<(string, LogFile)>)
    ensures BadLogs(logs).Err? <==> exists k :: 0 <= k < |logs| && !Loadable(logs[k].1)
    ensures BadLogs(logs).Ok? ==> forall path :: path in BadLogs(logs).value <==>
      exists k :: 0 <= k < |logs| && logs[k].0 == path && Fails(logs[k].1.labels, logs[k].1.tokens)
    ensures BadLogs(logs).Ok? ==> |BadLogs(logs).value| <= |logs|
    decreases |logs|
  {
    if logs != [] {
      var init := logs[..|logs| - 1];
      BadLogsSpec(init);
      var last := logs[|logs| - 1];
      forall k | 0 <= k < |init| ensures init[k] == logs[k] { }
      if BadLogs(logs).Ok? {
        forall path ensures path in BadLogs(logs).value <==>
          exists k :: 0 <= k < |logs| && logs[k].0 == path && Fails(logs[k].1.labels, logs[k].1.tokens)
        {
          if exists k :: 0 <= k < |logs| && logs[k].0 == path && Fails(logs[k].1.labels, logs[k].1.tokens) {
            var k :| 0 <= k < |logs| && logs[k].0 == path && Fails(logs[k].1.labels, logs[k].1.tokens);
            if k < |init| {
              assert init[k].0 == path && Fails(init[k].1.labels, init[k].1.tokens);
            }
          }
        }
      }
      if exists k :: 0 <= k < |logs| && !Loadable(logs[k].1) {
        var k :| 0 <= k < |logs| && !Loadable(logs[k].1);
        if k < |init| { assert !Loadable(init[k].1); }
      }
    }
  }

  lemma BadLogsSnoc(logs: seq<(string, LogFile)>, k: nat)
    requires k < |logs|
    ensures BadLogs(logs[..k + 1]) ==
      match BadLogs(logs[..k])
      case Err(e) => Err(e)
      case Ok(bad) =>
        (match logs[k].1
         case Unparsable => Err(JsonDecodeError(logs[k].0))
         case NullDocument => Err(NullData(logs[k].0))
         case Document(labels, tokens) => Ok(bad + (if Fails(labels, tokens) then [logs[k].0] else [])))
  {
    assert logs[..k + 1][..k] == logs[..k];
  }

  lemma BadLogsDocument(logs: seq<(string, LogFile)>, k: nat, bad: seq<string>)
    requires k < |logs| && BadLogs(logs[..k]) == Ok(bad) && logs[k].1.Document?
    ensures Fails(logs[k].1.labels, logs[k].1.tokens) ==> BadLogs(logs[..k + 1]) == Ok(bad + [logs[k].0])
    ensures !Fails(logs[k].1.labels, logs[k].1.tokens) ==> BadLogs(logs[..k + 1]) == Ok(bad)
  {
    BadLogsSnoc(logs, k);
    assert bad + [] == bad;
  }

  lemma {:induction false} BadLogsAbort(logs: seq<(string, LogFile)>, k: nat)
    requires k <= |logs| && BadLogs(logs[..k]).Err?
    ensures BadLogs(logs) == BadLogs(logs[..k])
    decreases |logs| - k
  {
    if k < |logs| {
      BadLogsSnoc(logs, k);
      BadLogsAbort(logs, k + 1);
    } else {
      assert logs[..k] == logs;
    }
  }

  /** The validation loop over the found paths (lines 14-45). */
  method ValidateLogs(logs: seq<(string, LogFile)>) returns (r: Result<seq<string>, ValidateError>)
    ensures r == BadLogs(logs)
  {
    var badLogs: seq<string> := [];
    var k := 0;
    while k < |logs|
      invariant 0 <= k <= |logs|
      invariant BadLogs(logs[..k]) == Ok(badLogs)
    {
      BadLogsSnoc(logs, k);
      var (path, file) := logs[k];
      match file {
        case Unparsable =>
          BadLogsAbort(logs, k + 1);
          return Err(JsonDecodeError(path));
        case NullDocument =>
          BadLogsAbort(logs, k + 1);
          return Err(NullData(path));
        case Document(labels, tokens) =>
          BadLogsDocument(logs, k, badLogs);
          var failed := CheckLog(labels, tokens);
          if failed {
            badLogs := badLogs + [path];
          }
      }
      k := k + 1;
    }
    assert logs[..k] == logs;
    r := Ok(badLogs);
  }
}
