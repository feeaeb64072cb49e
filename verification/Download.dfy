/** download.Fetch and setup's progress callback. */
module Download {

  /** One read of the response body: the bytes, whether the body ends or breaks there, whether a report is due,
      and whether the file took the bytes. */
  datatype Read = Read(data: string, end: End, due: bool, written: bool)

  datatype End = More | Eof | Fault

  function Joined(body: seq<Read>): string {
    if body == [] then "" else Joined(body[..|body| - 1]) + body[|body| - 1].data
  }

  function Last(reports: seq<nat>): nat {
    if reports == [] then 0 else reports[|reports| - 1]
  }

  predicate NonDecreasing(reports: seq<nat>) {
    forall i, j :: 0 <= i < j < |reports| ==> reports[i] <= reports[j]
  }

  /** The first n reads go on without a fault and their bytes reach the file. */
  ghost predicate Flows(body: seq<Read>, n: nat)
    requires n <= |body|
  {
    && (forall i :: 0 <= i < n - 1 ==> body[i].end == More)
    && (forall i :: 0 <= i < n ==> body[i].data == "" || body[i].written)
  }

  /** The body ends with its n-th read, every byte before written. */
  ghost predicate EndsAt(body: seq<Read>, n: nat) {
    0 < n <= |body| && Flows(body, n) && body[n - 1].end == Eof
  }

  /** The first n reads go on, and the body with them. */
  ghost predicate Ongoing(body: seq<Read>, n: nat)
    requires n <= |body|
  {
    Flows(body, n) && (n > 0 ==> body[n - 1].end == More)
  }

  predicate Stored(read: Read) {
    read.data == "" || read.written
  }

  lemma NeverEnds(body: seq<Read>, i: nat)
    requires i <= |body| && Ongoing(body, i)
    requires i < |body| ==> body[i].end == Fault || !Stored(body[i])
    ensures forall n: nat :: !EndsAt(body, n)
  {
  }

  lemma NextRead(body: seq<Read>, i: nat)
    requires i < |body| && Ongoing(body, i) && Stored(body[i])
    ensures Joined(body[..i + 1]) == Joined(body[..i]) + body[i].data
    ensures body[i].end == More ==> Ongoing(body, i + 1)
    ensures body[i].end == Eof ==> EndsAt(body, i + 1)
  {
    assert body[..i + 1][..i] == body[..i];
  }

  /** Reports that never decrease and are never ahead of the bytes. */
  ghost predicate Truthful(reports: seq<nat>, n: nat) {
    NonDecreasing(reports) && Last(reports) <= n
  }

  lemma ReportGrows(reports: seq<nat>, n: nat)
    requires Truthful(reports, n)
    ensures Truthful(reports + [n], n) && Last(reports + [n]) == n
  {
    assert forall k :: 0 <= k < |reports| ==> reports[k] <= reports[|reports| - 1];
  }

  /** The bytes there are at each of the first n reads at which a report is due. */
  function Due(body: seq<Read>, n: nat): seq<nat>
    requires n <= |body|
  {
    if n == 0 then []
    else Due(body, n - 1) + if body[n - 1].due then [|Joined(body[..n])|] else []
  }

  /** The file holds the first n reads. */
  ghost predicate Begins(body: seq<Read>, n: nat, file: string) {
    n <= |body| && file == Joined(body[..n])
  }

  /** The file is the body up to its end, and the reports are those due and a last one. */
  ghost predicate Complete(body: seq<Read>, n: nat, file: string, reports: seq<nat>) {
    EndsAt(body, n) && Begins(body, n, file) && reports == Due(body, n) + [|file|]
  }

  lemma NextDue(body: seq<Read>, i: nat)
    requires i < |body|
    ensures Due(body, i + 1) == Due(body, i) + if body[i].due then [|Joined(body[..i + 1])|] else []
  {
  }

  lemma {:induction false} DueIsTruthful(body: seq<Read>, n: nat)
    requires n <= |body|
    ensures Truthful(Due(body, n), |Joined(body[..n])|)
  {
    if n > 0 {
      DueIsTruthful(body, n - 1);
      assert body[..n][..n - 1] == body[..n - 1];
      if body[n - 1].due {
        ReportGrows(Due(body, n - 1), |Joined(body[..n])|);
      }
    }
  }

  /** File and reports after the first n reads. */
  ghost predicate Upto(body: seq<Read>, n: nat, file: string, reports: seq<nat>) {
    Begins(body, n, file) && reports == Due(body, n)
  }

  lemma UptoIsTruthful(body: seq<Read>, n: nat, file: string, reports: seq<nat>)
    requires Upto(body, n, file, reports)
    ensures Truthful(reports, |file|)
  {
    DueIsTruthful(body, n);
  }

  lemma NextUpto(body: seq<Read>, i: nat, file: string, reports: seq<nat>)
    requires i < |body| && Upto(body, i, file, reports)
    ensures
      var more := file + body[i].data;
      Upto(body, i + 1, more, reports + if body[i].due then [|more|] else [])
    ensures body[i].data == "" ==> file + body[i].data == file
    ensures !body[i].due ==> reports + [] == reports
  {
    assert body[..i + 1][..i] == body[..i];
    NextDue(body, i);
  }

  /** Streams the body into a file; a body that never says it ends is broken.  It succeeds exactly when the body
      ends without a fault, and the file is then the whole body; a failure leaves what came before it. */
  method Fetch(body: seq<Read>) returns (file: string, reports: seq<nat>, ok: bool)
    ensures ok ==> exists n: nat :: Complete(body, n, file, reports)
    ensures !ok ==> forall n: nat :: !EndsAt(body, n)
    ensures exists n: nat :: Begins(body, n, file)
    ensures ok ==> reports != [] && Last(reports) == |file|
    ensures Truthful(reports, |file|)
  {
    file, reports := "", [];
    for i := 0 to |body|
      invariant Upto(body, i, file, reports) && Ongoing(body, i)
    {
      if body[i].data != "" && !body[i].written {
        NeverEnds(body, i);
        UptoIsTruthful(body, i, file, reports);
        return file, reports, false;
      }
      NextUpto(body, i, file, reports);
      NextRead(body, i);
      if body[i].data != "" {
        file := file + body[i].data;
      }
      if body[i].due {
        reports := reports + [|file|];
      }
      UptoIsTruthful(body, i + 1, file, reports);
      if body[i].end == Eof {
        ReportGrows(reports, |file|);
        reports := reports + [|file|];
        assert Complete(body, i + 1, file, reports);
        return file, reports, true;
      }
      if body[i].end == Fault {
        NeverEnds(body, i);
        return file, reports, false;
      }
    }
    NeverEnds(body, |body|);
    UptoIsTruthful(body, |body|, file, reports);
    return file, reports, false;
  }

  function Sum(deltas: seq<int>): int {
    if deltas == [] then 0 else Sum(deltas[..|deltas| - 1]) + deltas[|deltas| - 1]
  }

  /** The callback adds to the bar what came since the last report: the bar never moves back, and ends at the last
      report. */
  method ShowProgress(reports: seq<nat>) returns (deltas: seq<int>, last: nat)
    requires NonDecreasing(reports)
    ensures Sum(deltas) == last == Last(reports)
    ensures forall i :: 0 <= i < |deltas| ==> deltas[i] >= 0
  {
    deltas, last := [], 0;
    for i := 0 to |reports|
      invariant last == Last(reports[..i]) && Sum(deltas) == last
      invariant forall k :: 0 <= k < |deltas| ==> deltas[k] >= 0
    {
      assert i > 0 ==> last == reports[i - 1];
      var delta: int := reports[i] - last;
      assert (deltas + [delta])[..|deltas|] == deltas;
      deltas := deltas + [delta];
      last := reports[i];
    }
    assert reports[..|reports|] == reports;
  }
}
