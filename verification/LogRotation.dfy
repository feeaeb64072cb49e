/** The daemon log and its three rotations.  A character stands for a byte. */
module LogRotation {
  import opened StateFile

  const MAX_LOG_BYTES: nat := 5 * 1024 * 1024

  /** dockup.log and dockup.log.1 to .3; None is a missing file. */
  datatype Logs = Logs(log: Option<string>, one: Option<string>, two: Option<string>, three: Option<string>)

  const EMPTY := Logs(None, None, None, None)

  function Text(file: Option<string>): string {
    match file case Some(text) => text case None => ""
  }

  function Size(file: Option<string>): nat {
    |Text(file)|
  }

  /** Everything still on disk, oldest first. */
  function Kept(l: Logs): string {
    Text(l.three) + Text(l.two) + Text(l.one) + Text(l.log)
  }

  predicate Full(l: Logs) {
    Size(l.log) > MAX_LOG_BYTES
  }

  /** Each file takes the next name; the oldest is gone. */
  function Rotated(l: Logs): Logs {
    Logs(None, l.log, l.one, l.two)
  }

  function Appended(l: Logs, msg: string): Logs {
    var r := if Full(l) then Rotated(l) else l;
    r.(log := Some(Text(r.log) + msg + "\n"))
  }

  class LogDir {
    var log: Option<string>
    var one: Option<string>
    var two: Option<string>
    var three: Option<string>

    function State(): Logs
      reads this
    {
      Logs(log, one, two, three)
    }

    method Rotate()
      modifies this
      ensures State() == Rotated(old(State()))
    {
      three := None;
      if two.Some? {
        three, two := two, None;
      }
      if one.Some? {
        two, one := one, None;
      }
      if log.Some? {
        one, log := log, None;
      }
    }

    method Append(msg: string)
      modifies this
      ensures State() == Appended(old(State()), msg)
    {
      if log.Some? && |log.value| > MAX_LOG_BYTES {
        Rotate();
      }
      if log.None? {
        log := Some("");
      }
      log := Some(log.value + msg + "\n");
    }
  }

  // ---------- Whole runs ----------

  /** The log after any messages, from an empty directory. */
  function After(msgs: seq<string>): Logs {
    if msgs == [] then EMPTY else Appended(After(msgs[..|msgs| - 1]), msgs[|msgs| - 1])
  }

  /** Everything ever appended. */
  function Lines(msgs: seq<string>): string {
    if msgs == [] then "" else Lines(msgs[..|msgs| - 1]) + (msgs[|msgs| - 1] + "\n")
  }

  function Rotations(msgs: seq<string>): nat {
    if msgs == [] then 0
    else
      var before := msgs[..|msgs| - 1];
      Rotations(before) + if Full(After(before)) then 1 else 0
  }

  predicate IsSuffix(a: string, b: string) {
    |a| <= |b| && b[|b| - |a|..] == a
  }

  /** A rotated file is over the limit; it exists once that many rotations have happened. */
  ghost predicate Rotations3(l: Logs, n: nat) {
    && (l.one.Some? <==> n >= 1) && (l.one.Some? ==> Size(l.one) > MAX_LOG_BYTES)
    && (l.two.Some? <==> n >= 2) && (l.two.Some? ==> Size(l.two) > MAX_LOG_BYTES)
    && (l.three.Some? <==> n >= 3) && (l.three.Some? ==> Size(l.three) > MAX_LOG_BYTES)
  }

  lemma SuffixDropsAndGrows(kept: string, dropped: string, all: string, line: string)
    requires IsSuffix(dropped + kept, all)
    ensures IsSuffix(kept + line, all + line)
  {
    var n := |all| - |dropped + kept|;
    assert all == all[..n] + (dropped + kept);
    assert all + line == all[..n] + dropped + (kept + line);
  }

  lemma KeptSize(l: Logs)
    ensures |Kept(l)| == Size(l.three) + Size(l.two) + Size(l.one) + Size(l.log)
  {
  }

  lemma KeptAfterRotation(l: Logs, line: string)
    ensures Kept(Rotated(l).(log := Some("" + line))) == Text(l.two) + Text(l.one) + Text(l.log) + line
    ensures Kept(l) == Text(l.three) + (Text(l.two) + Text(l.one) + Text(l.log))
  {
  }

  lemma KeptAfterAppend(l: Logs, line: string)
    ensures Kept(l.(log := Some(Text(l.log) + line))) == Kept(l) + line
  {
  }

  lemma AppendKeepsTheEnd(l: Logs, n: nat, all: string, msg: string)
    requires IsSuffix(Kept(l), all) && Rotations3(l, n) && (n <= 3 ==> Kept(l) == all)
    ensures
      var m := n + if Full(l) then 1 else 0;
      var kept := Kept(Appended(l, msg));
      && IsSuffix(kept, all + (msg + "\n"))
      && (m <= 3 ==> kept == all + (msg + "\n"))
  {
    var line := msg + "\n";
    var tail := Text(l.two) + Text(l.one) + Text(l.log);
    if Full(l) {
      KeptAfterRotation(l, line);
      assert Appended(l, msg) == Rotated(l).(log := Some("" + line)) by {
        assert "" + msg + "\n" == "" + line;
      }
      SuffixDropsAndGrows(tail, Text(l.three), all, line);
      assert n < 3 ==> Text(l.three) + tail == tail;
    } else {
      KeptAfterAppend(l, line);
      assert Text(l.log) + msg + "\n" == Text(l.log) + line;
      assert "" + Kept(l) == Kept(l);
      SuffixDropsAndGrows(Kept(l), "", all, line);
    }
  }

  lemma {:induction false} RotationsFill(msgs: seq<string>)
    ensures Rotations3(After(msgs), Rotations(msgs))
  {
    if msgs != [] {
      RotationsFill(msgs[..|msgs| - 1]);
    }
  }

  /** What is on disk is always the end of everything appended; it is all of it until a fourth rotation, and
      after that more than three times the limit. */
  lemma {:induction false} KeptIsTheEnd(msgs: seq<string>)
    ensures IsSuffix(Kept(After(msgs)), Lines(msgs))
    ensures Rotations(msgs) <= 3 ==> Kept(After(msgs)) == Lines(msgs)
    ensures Rotations(msgs) >= 3 ==> |Kept(After(msgs))| > 3 * MAX_LOG_BYTES
  {
    RotationsFill(msgs);
    KeptSize(After(msgs));
    if msgs != [] {
      var before := msgs[..|msgs| - 1];
      KeptIsTheEnd(before);
      RotationsFill(before);
      AppendKeepsTheEnd(After(before), Rotations(before), Lines(before), msgs[|msgs| - 1]);
    }
  }

  /** No file grows past the limit by more than one message and its newline. */
  lemma {:induction false} FilesStayBounded(msgs: seq<string>, longest: nat)
    requires forall i :: 0 <= i < |msgs| ==> |msgs[i]| <= longest
    ensures
      var l := After(msgs);
      var bound := MAX_LOG_BYTES + longest + 1;
      Size(l.log) <= bound && Size(l.one) <= bound && Size(l.two) <= bound && Size(l.three) <= bound
  {
    if msgs != [] {
      FilesStayBounded(msgs[..|msgs| - 1], longest);
    }
  }

  /** A log of more than 5 MiB is put aside before the next line, and no other. */
  lemma RotatesOnlyAboveFiveMebibytes(l: Logs, msg: string)
    ensures |Text(l.log)| <= 5242880 ==> Appended(l, msg) == Logs(Some(Text(l.log) + msg + "\n"), l.one, l.two, l.three)
    ensures |Text(l.log)| > 5242880 ==> Appended(l, msg) == Logs(Some(msg + "\n"), l.log, l.one, l.two)
  {
    assert "" + msg + "\n" == msg + "\n";
  }
}
