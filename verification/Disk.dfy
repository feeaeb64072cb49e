/** A file system of whole files that records every state it goes through: a crash leaves any one of them.
    Any operation may fail. */
module Disk {
  import opened StateFile

  /** A path is its segments. */
  type Path = seq<string>

  type Files = map<Path, string>

  /** The same files outside `places`. */
  ghost predicate SameBut(a: Files, b: Files, places: set<Path>) {
    forall q :: q !in places ==> (q in a <==> q in b) && (q in a ==> a[q] == b[q])
  }

  /** The history grew, and every new state differs from `files` at most in `places`. */
  ghost predicate Grew(earlier: seq<Files>, later: seq<Files>, files: Files, places: set<Path>) {
    && earlier <= later
    && forall i :: |earlier| <= i < |later| ==> SameBut(later[i], files, places)
  }

  lemma GrewTwice(h0: seq<Files>, h1: seq<Files>, h2: seq<Files>, f0: Files, f1: Files, places: set<Path>)
    requires Grew(h0, h1, f0, places) && SameBut(f1, f0, places) && Grew(h1, h2, f1, places)
    ensures Grew(h0, h2, f0, places)
  {
    forall i | |h0| <= i < |h2|
      ensures SameBut(h2[i], f0, places)
    {
      if i < |h1| {
        assert h2[i] == h1[i];
      }
    }
  }

  class Disk {
    var files: Files
    ghost var trace: seq<Files>
    ghost var faults: nat

    constructor (files: Files)
      ensures this.files == files && trace == [] && faults == 0
    {
      this.files := files;
      trace := [];
      faults := 0;
    }

    /** os.Remove; a missing file is no failure. */
    method Remove(p: Path) returns (ok: bool)
      modifies this
      ensures p !in old(files) ==> ok
      ensures files == if ok then old(files) - {p} else old(files)
      ensures trace == old(trace) + [files]
      ensures faults == old(faults) + if ok then 0 else 1
    {
      ok := *;
      if p !in files {
        ok := true;
      }
      if ok {
        files := files - {p};
      } else {
        faults := faults + 1;
      }
      trace := trace + [files];
    }

    /** os.Rename, replacing the destination. */
    method Rename(src: Path, dst: Path) returns (ok: bool)
      requires src != dst
      modifies this
      ensures ok ==> src in old(files) && files == (old(files) - {src})[dst := old(files)[src]]
      ensures !ok ==> files == old(files)
      ensures trace == old(trace) + [files]
      ensures faults == old(faults) + if ok then 0 else 1
    {
      ok := *;
      if src !in files {
        ok := false;
      }
      if ok {
        files := (files - {src})[dst := files[src]];
      } else {
        faults := faults + 1;
      }
      trace := trace + [files];
    }

    /** Writes a file from its start: it holds a part of the content before the whole, and keeps it on failure. */
    method Write(p: Path, content: string) returns (ok: bool)
      modifies this
      ensures ok ==> files == old(files)[p := content]
      ensures SameBut(files, old(files), {p})
      ensures Grew(old(trace), trace, old(files), {p})
      ensures faults == old(faults) + if ok then 0 else 1
    {
      ok := false;
      var started := *;
      if started {
        var part := *;
        files := files[p := part];
        trace := trace + [files];
        ok := *;
        if ok {
          files := files[p := content];
          trace := trace + [files];
        }
      }
      faults := faults + if ok then 0 else 1;
    }
  }

  datatype Answer = Body(content: string) | Broken

  /** The network: what it answers to each request, in order, is arbitrary.  `failures` counts the answers that
      came whole but could not be stored. */
  class Network {
    const answers: nat -> Answer
    var used: nat
    var urls: seq<string>
    ghost var failures: nat

    constructor (answers: nat -> Answer)
      ensures this.answers == answers && used == 0 && urls == [] && failures == 0
    {
      this.answers := answers;
      used := 0;
      urls := [];
      failures := 0;
    }

    /** download.Fetch: streams an answer into dest.  A broken answer may leave a part of it there. */
    method Fetch(url: string, dest: Path, disk: Disk) returns (ok: bool)
      modifies this, disk
      ensures used == old(used) + 1 && urls == old(urls) + [url]
      ensures failures == old(failures) + if ok || answers(old(used)).Broken? then 0 else 1
      ensures ok ==> answers(old(used)).Body? && disk.files == old(disk.files)[dest := answers(old(used)).content]
      ensures SameBut(disk.files, old(disk.files), {dest})
      ensures Grew(old(disk.trace), disk.trace, old(disk.files), {dest})
      ensures disk.faults == old(disk.faults)
    {
      var answer := answers(used);
      used := used + 1;
      urls := urls + [url];
      ok := false;
      var started := *;
      if started {
        var part := *;
        disk.files := disk.files[dest := part];
        disk.trace := disk.trace + [disk.files];
        ok := *;
        if answer.Broken? {
          ok := false;
        }
        if ok {
          disk.files := disk.files[dest := answer.content];
          disk.trace := disk.trace + [disk.files];
        }
      }
      failures := failures + if ok || answer.Broken? then 0 else 1;
    }
  }
}
