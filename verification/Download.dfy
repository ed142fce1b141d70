/** `download` of `tlgr/daemon/files.py`: the sequential path, whole file, resuming a part file.
    The client may hand over any number of bytes before it ends or raises. */
module Downloads {
  import opened Basics

  type Bytes = seq<int>

  /** How the client's iteration came to an end: on its own, with an expired file reference, or otherwise. */
  datatype Ending = Ended | Expired | Failed

  /** One iteration: the sizes of the chunks it hands over, and how it ends. */
  datatype Attempt = Attempt(chunks: seq<nat>, ending: Ending)

  datatype Result = Returned | Raised

  /** Resuming starts at a whole part. */
  function ResumeAt(part: Option<Bytes>, partSize: nat): (start: nat)
    requires partSize > 0
    ensures part.Some? ==> start <= |part.value|
  {
    if part.None? then 0 else |part.value| - |part.value| % partSize
  }

  /** The part file a call appends to: cut back to the resume point, if `truncate` worked. */
  function Resumed(part: Option<Bytes>, partSize: nat, truncates: bool): Bytes
    requires partSize > 0
  {
    if part.None? then [] else if truncates then part.value[..ResumeAt(part, partSize)] else part.value
  }

  /** The part file holds the beginning of the source. */
  ghost predicate IsPrefix(part: Option<Bytes>, source: Bytes) {
    part.Some? ==> part.value <= source
  }

  // ---- how far a call gets -----------------------------------------------------------------------

  /** What the client hands over between two offsets; behind the end of the source there is nothing. */
  function Fetched(source: Bytes, from: nat, to: nat): Bytes {
    if from <= to <= |source| then source[from..to] else []
  }

  function Total(chunks: seq<nat>): nat {
    if chunks == [] then 0 else Total(chunks[..|chunks| - 1]) + chunks[|chunks| - 1]
  }

  /** Where an iteration from `from` on stops. */
  function Reach(length: nat, from: nat, chunks: seq<nat>): (to: nat)
    ensures from <= to <= Max(from, length)
  {
    if from + Total(chunks) <= length then from + Total(chunks) else Max(from, length)
  }

  /** How a call came out, where it stopped, and how often it refreshed the reference. */
  datatype Report = Report(result: Result, done: nat, refreshes: nat)

  /** The iteration ended: only a file of known size can be seen to be incomplete. */
  function Concluded(size: nat, done: nat, refreshes: nat): Report {
    Report(if size > 0 && done < size then Raised else Returned, done, refreshes)
  }

  function Outcome(length: nat, start: nat, size: nat, refresh: bool, first: Attempt, second: Attempt): (r: Report)
    ensures start <= r.done <= Max(start, length) && r.refreshes <= 1
    ensures r.result.Returned? ==> size == 0 || size <= r.done
  {
    var reached := Reach(length, start, first.chunks);
    if first.ending.Ended? then Concluded(size, reached, 0)
    else if !refresh || first.ending.Failed? then Report(Raised, reached, 0)
    else
      var last := Reach(length, reached, second.chunks);
      if second.ending.Ended? then Concluded(size, last, 1) else Report(Raised, last, 1)
  }

  /** What a call leaves in the part file when it raises at `done`, and in the target when it returns. */
  function Left(part: Option<Bytes>, source: Bytes, partSize: nat, truncates: bool, done: nat): Bytes
    requires partSize > 0
  {
    Resumed(part, partSize, truncates) + Fetched(source, ResumeAt(part, partSize), done)
  }

  /** Nothing needs to be cut off, or it is. */
  predicate CutsClean(part: Option<Bytes>, partSize: nat, truncates: bool)
    requires partSize > 0
  {
    truncates || part.None? || |part.value| % partSize == 0
  }

  /** The part file is cut clean, and the size given is the source's, or more. */
  ghost predicate ReturnsWhole(part: Option<Bytes>, source: Bytes, size: nat, partSize: nat, truncates: bool)
    requires partSize > 0
  {
    IsPrefix(part, source) && CutsClean(part, partSize, truncates) && size >= |source|
  }

  lemma Abut(kept: Bytes, source: Bytes, a: nat, b: nat, c: nat)
    requires a <= b <= c <= Max(a, |source|)
    ensures kept + Fetched(source, a, b) + Fetched(source, b, c) == kept + Fetched(source, a, c)
  {
    if a <= |source| { assert source[a..b] + source[b..c] == source[a..c]; }
  }

  lemma OneChunkMore(length: nat, from: nat, chunks: seq<nat>, i: nat)
    requires i < |chunks|
    ensures Reach(length, from, chunks[..i + 1]) == Reach(length, Reach(length, from, chunks[..i]), [chunks[i]])
  {
    assert chunks[..i + 1][..i] == chunks[..i];
    assert Total([chunks[i]]) == Total([]) + chunks[i] by { assert [chunks[i]][..0] == []; }
  }

  // ---- the call ------------------------------------------------------------------------------------

  class Transfer {
    var part: Option<Bytes>
    var target: Option<Bytes>

    constructor (part: Option<Bytes>, target: Option<Bytes>)
      ensures this.part == part && this.target == target
    {
      this.part, this.target := part, target;
    }

    /** One iteration of the client from `from` on: every chunk is written behind the part file's end. */
    method Receive(source: Bytes, from: nat, chunks: seq<nat>) returns (done: nat)
      requires part.Some?
      modifies `part
      ensures done == Reach(|source|, from, chunks)
      ensures part == Some(old(part).value + Fetched(source, from, done))
    {
      done := from;
      var i := 0;
      assert chunks[..0] == [];
      while i < |chunks|
        invariant 0 <= i <= |chunks|
        invariant done == Reach(|source|, from, chunks[..i])
        invariant part.Some? && part.value == old(part).value + Fetched(source, from, done)
      {
        OneChunkMore(|source|, from, chunks, i);
        var end := Reach(|source|, done, [chunks[i]]);
        Abut(old(part).value, source, from, done, end);
        part := Some(part.value + Fetched(source, done, end));
        done := end;
        i := i + 1;
      }
      assert chunks[..|chunks|] == chunks;
    }

    /** Where to resume, and the part file as the call appends to it. */
    method Open(partSize: nat, truncates: bool) returns (start: nat)
      requires partSize > 0
      modifies `part
      ensures start == ResumeAt(old(part), partSize) && part == Some(Resumed(old(part), partSize, truncates))
    {
      start := 0;
      if part.Some? {
        var existing := |part.value|;
        start := existing - existing % partSize;
        if truncates {
          part := Some(part.value[..start]);
        }
      } else {
        part := Some([]);
      }
    }

    /** `download` with offset 0, no limit and `resume` on. `size` is what is known of the file's length, 0 for
        nothing. The reference is refreshed at most once. A call that returns leaves the whole source, if the part
        file was a prefix of it and was cut clean, and if the size was known. */
    method Download(source: Bytes, size: nat, partSize: nat, truncates: bool, refresh: bool,
                    first: Attempt, second: Attempt)
      returns (result: Result, done: nat, refreshes: nat)
      requires partSize > 0
      modifies this
      ensures Report(result, done, refreshes)
              == Outcome(|source|, ResumeAt(old(part), partSize), size, refresh, first, second)
      ensures var file := Left(old(part), source, partSize, truncates, done);
        if result.Returned? then part == None && target == Some(file) else part == Some(file) && target == old(target)
      ensures result.Returned? && ReturnsWhole(old(part), source, size, partSize, truncates) ==> target == Some(source)
    {
      var start := Open(partSize, truncates);
      ghost var kept, from := part.value, start;
      done := start;
      refreshes := 0;
      var going := true;
      while going
        invariant from <= done <= Max(from, |source|) && refreshes <= 1
        invariant going ==> start == done
        invariant going && refreshes == 0 ==> done == from
        invariant going && refreshes == 1 ==>
          first.ending.Expired? && refresh && done == Reach(|source|, from, first.chunks)
        invariant !going ==> Concluded(size, done, refreshes) == Outcome(|source|, from, size, refresh, first, second)
        invariant target == old(target) && part.Some? && part.value == kept + Fetched(source, from, done)
        decreases going, 1 - refreshes
      {
        var attempt := if refreshes == 1 then second else first;
        ghost var before := done;
        done := Receive(source, start, attempt.chunks);
        Abut(kept, source, from, before, done);
        if attempt.ending.Ended? {
          going := false;
        } else if refreshes == 1 || !refresh || attempt.ending.Failed? {
          return Raised, done, refreshes;
        } else {
          refreshes := 1;
          start := done;
        }
      }
      if size > 0 && done < size {
        return Raised, done, refreshes;
      }
      ReturnedIsWhole(old(part), source, size, partSize, truncates, done);
      target := part;
      part := None;
      result := Returned;
    }
  }

  // ---- what a call leaves behind ------------------------------------------------------------------

  /** However far the call got, the file is exactly the source up to there. */
  lemma LeavesAPrefix(part: Option<Bytes>, source: Bytes, partSize: nat, truncates: bool, done: nat)
    requires partSize > 0 && ResumeAt(part, partSize) <= done <= |source|
    requires IsPrefix(part, source) && CutsClean(part, partSize, truncates)
    ensures Left(part, source, partSize, truncates, done) == source[..done]
  {
    var start := ResumeAt(part, partSize);
    assert source[..done] == source[..start] + source[start..done];
    if part.Some? {
      assert part.value[..start] == source[..start];
      assert truncates || part.value == part.value[..start];
    } else {
      assert source[..0] == [];
    }
  }

  lemma ReturnedIsWhole(part: Option<Bytes>, source: Bytes, size: nat, partSize: nat, truncates: bool, done: nat)
    requires partSize > 0 && ResumeAt(part, partSize) <= done <= Max(ResumeAt(part, partSize), |source|)
    requires size == 0 || size <= done
    ensures ReturnsWhole(part, source, size, partSize, truncates) ==>
      Left(part, source, partSize, truncates, done) == source
  {
    if ReturnsWhole(part, source, size, partSize, truncates) {
      LeavesAPrefix(part, source, partSize, truncates, done);
      assert done == |source| && source[..done] == source;
    }
  }

  /** Bytes that stick out of the last whole part and are not cut off are written twice. */
  lemma UncutIsTooLong(part: Option<Bytes>, source: Bytes, partSize: nat, truncates: bool)
    requires partSize > 0 && IsPrefix(part, source) && !CutsClean(part, partSize, truncates)
    ensures |Left(part, source, partSize, truncates, |source|)| > |source|
  {
  }

  /** With these attempts the call does not return anything but the source. */
  ghost predicate Whole(part: Option<Bytes>, source: Bytes, size: nat, partSize: nat, truncates: bool,
                        refresh: bool, first: Attempt, second: Attempt)
    requires partSize > 0
  {
    var report := Outcome(|source|, ResumeAt(part, partSize), size, refresh, first, second);
    report.result.Returned? ==> Left(part, source, partSize, truncates, report.done) == source
  }

  ghost predicate AlwaysWhole(part: Option<Bytes>, source: Bytes, size: nat, partSize: nat, truncates: bool)
    requires partSize > 0
  {
    forall refresh, first, second :: Whole(part, source, size, partSize, truncates, refresh, first, second)
  }

  /** An iteration that ends after exactly as many bytes as it takes to get to `done`. */
  function EndsAt(start: nat, done: nat): Attempt
    requires start <= done
  {
    Attempt([done - start], Ended)
  }

  lemma EndingAt(length: nat, start: nat, size: nat, done: nat)
    requires start <= done <= length && size <= done
    ensures Outcome(length, start, size, false, EndsAt(start, done), EndsAt(start, done)) == Report(Returned, done, 0)
  {
    assert Total([done - start]) == Total([]) + (done - start) by { assert [done - start][..0] == []; }
  }

  /** Whatever the client does, a call that returns leaves the source, if and only if the size given is more than the
      source has (then no call returns), or the part file is cut clean and the size is the source's, or nothing is
      missing. When `os.truncate` fails its error is suppressed, and bytes are written twice; and when the size is
      not known (0, which is the default) or is less, an iteration that ends early is taken for a whole file. */
  lemma ReturnsTheSourceWhen(part: Option<Bytes>, source: Bytes, size: nat, partSize: nat, truncates: bool)
    requires partSize > 0 && IsPrefix(part, source)
    ensures AlwaysWhole(part, source, size, partSize, truncates) <==>
      || size > |source|
      || (CutsClean(part, partSize, truncates) && (size == |source| || ResumeAt(part, partSize) == |source|))
  {
    var start := ResumeAt(part, partSize);
    if size <= |source| && !CutsClean(part, partSize, truncates) {
      UncutReturns(part, source, size, partSize, truncates);
    } else if size < |source| && start < |source| {
      ShortReturns(part, source, size, partSize, truncates);
    } else {
      forall refresh, first, second ensures Whole(part, source, size, partSize, truncates, refresh, first, second) {
        var report := Outcome(|source|, start, size, refresh, first, second);
        if report.result.Returned? && size <= |source| {
          LeavesAPrefix(part, source, partSize, truncates, report.done);
          assert report.done == |source| && source[..|source|] == source;
        }
      }
    }
  }

  /** An iteration that hands over everything: the target is too long. */
  lemma UncutReturns(part: Option<Bytes>, source: Bytes, size: nat, partSize: nat, truncates: bool)
    requires partSize > 0 && IsPrefix(part, source) && size <= |source| && !CutsClean(part, partSize, truncates)
    ensures var all := EndsAt(ResumeAt(part, partSize), |source|);
      !Whole(part, source, size, partSize, truncates, false, all, all)
  {
    EndingAt(|source|, ResumeAt(part, partSize), size, |source|);
    UncutIsTooLong(part, source, partSize, truncates);
  }

  /** An iteration that ends at the size given, or at once: the target is too short. */
  lemma ShortReturns(part: Option<Bytes>, source: Bytes, size: nat, partSize: nat, truncates: bool)
    requires partSize > 0 && IsPrefix(part, source) && CutsClean(part, partSize, truncates)
    requires size < |source| && ResumeAt(part, partSize) < |source|
    ensures var start := ResumeAt(part, partSize);
      var short := EndsAt(start, Max(start, size));
      && Outcome(|source|, start, size, false, short, short).result.Returned?
      && Left(part, source, partSize, truncates, Max(start, size)) == source[..Max(start, size)]
      && !Whole(part, source, size, partSize, truncates, false, short, short)
  {
    var start := ResumeAt(part, partSize);
    EndingAt(|source|, start, size, Max(start, size));
    LeavesAPrefix(part, source, partSize, truncates, Max(start, size));
    assert |source[..Max(start, size)]| < |source|;
  }

  /** And whenever it was not cut off there is a source that the very next byte corrupts. */
  lemma UncutPartIsCorrupted(existing: nat, partSize: nat) returns (source: Bytes)
    requires partSize > 0 && existing % partSize != 0
    ensures |source| == existing + 1
    ensures var part := Some(source[..existing]);
      !(Left(part, source, partSize, false, ResumeAt(part, partSize) + 1) <= source)
  {
    var at := existing - existing % partSize;
    source := seq(existing + 1, i => if i == at then 1 else 0);
    var part := Some(source[..existing]);
    var left := Left(part, source, partSize, false, at + 1);
    assert left[existing] == 1 && source[existing] == 0;
  }

  // ---- any number of calls -----------------------------------------------------------------------------

  /** What a call is given: by its caller, by the file system and by the client. */
  datatype Call = Call(size: nat, truncates: bool, refresh: bool, first: Attempt, second: Attempt)

  /** The part file after a call; None when it became the target. */
  function AfterCall(part: Option<Bytes>, source: Bytes, partSize: nat, call: Call): Option<Bytes>
    requires partSize > 0
  {
    var report := Outcome(|source|, ResumeAt(part, partSize), call.size, call.refresh, call.first, call.second);
    if report.result.Returned? then None else Some(Left(part, source, partSize, call.truncates, report.done))
  }

  function AfterCalls(part: Option<Bytes>, source: Bytes, partSize: nat, calls: seq<Call>): Option<Bytes>
    requires partSize > 0
  {
    if calls == [] then part
    else AfterCall(AfterCalls(part, source, partSize, calls[..|calls| - 1]), source, partSize, calls[|calls| - 1])
  }

  /** Each call found nothing to cut off, or cut it off. */
  ghost predicate AllCutClean(part: Option<Bytes>, source: Bytes, partSize: nat, calls: seq<Call>)
    requires partSize > 0
  {
    forall i :: 0 <= i < |calls| ==>
      CutsClean(AfterCalls(part, source, partSize, calls[..i]), partSize, calls[i].truncates)
  }

  /** After any sequence of calls, however each of them failed or returned, the part file is a prefix of the source. */
  lemma {:induction false} CallsKeepThePrefix(part: Option<Bytes>, source: Bytes, partSize: nat, calls: seq<Call>)
    requires partSize > 0 && IsPrefix(part, source) && AllCutClean(part, source, partSize, calls)
    ensures IsPrefix(AfterCalls(part, source, partSize, calls), source)
  {
    if calls != [] {
      var front, call := calls[..|calls| - 1], calls[|calls| - 1];
      forall i | 0 <= i < |front|
        ensures CutsClean(AfterCalls(part, source, partSize, front[..i]), partSize, front[i].truncates)
      {
        assert front[..i] == calls[..i];
      }
      CallsKeepThePrefix(part, source, partSize, front);
      var before := AfterCalls(part, source, partSize, front);
      var done := Outcome(|source|, ResumeAt(before, partSize), call.size, call.refresh, call.first, call.second).done;
      LeavesAPrefix(before, source, partSize, call.truncates, done);
    }
  }
}
