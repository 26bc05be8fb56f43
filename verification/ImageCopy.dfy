/** internal/imagedeploy/manager.go: copying the image archive to disk with progress reports,
    and the size check that decides whether it is imported. Readers may read short, return
    data together with an error, or return nothing for a while; writers may write short. */
module ImageCopy {
  import opened Common

  const BUFFER := 1048576                // 1 << 20
  const REPORT_EVERY := 67108864         // 64 << 20
  const MAX_ARCHIVE := 53687091200       // 50 << 30

  type Byte = bv8

  datatype ReadError = NoError | EOF | ReadFailed

  /** A reader; `patience` bounds how often it returns neither data nor an error. A sound
      one never fails. */
  class Reader {
    const data: seq<Byte>
    const sound: bool
    var pos: nat
    var patience: nat

    ghost predicate Valid()
      reads this
    {
      pos <= |data|
    }

    constructor (data: seq<Byte>, sound: bool)
      ensures Valid() && this.data == data && this.sound == sound && pos == 0
    {
      this.data, this.sound, pos := data, sound, 0;
      patience := *;
    }

    method Read(max: nat) returns (chunk: seq<Byte>, e: ReadError)
      requires Valid() && max > 0
      modifies this
      ensures Valid() && old(pos) <= pos && chunk == data[old(pos)..pos] && |chunk| <= max
      ensures e.EOF? ==> pos == |data|
      ensures e.NoError? && chunk == [] ==> patience < old(patience)
      ensures sound ==> !e.ReadFailed?
    {
      var count: nat :| count <= max && count <= |data| - pos;
      if count == 0 && patience == 0 && pos < |data| { count := 1; }
      chunk := data[pos..pos + count];
      pos := pos + count;
      e := *;
      if (e.EOF? && pos < |data|) || (e.ReadFailed? && sound) { e := NoError; }
      if e.NoError? && count == 0 {
        if patience == 0 { e := EOF; } else { patience := patience - 1; }
      }
    }
  }

  class File {
    const sound: bool
    var content: seq<Byte>

    constructor (sound: bool)
      ensures content == [] && this.sound == sound
    {
      this.sound, content := sound, [];
    }

    method Write(chunk: seq<Byte>) returns (n: nat, failed: bool)
      modifies this
      ensures n <= |chunk| && content == old(content) + chunk[..n]
      ensures sound ==> n == |chunk| && !failed
    {
      n, failed := *, *;
      if n > |chunk| || sound { n := |chunk|; }
      failed := failed && !sound;
      content := content + chunk[..n];
    }
  }

  class Progress {
    const sound: bool
    var reports: seq<int>        // the DOWNLOADING reports
    var refused: nat             // how many of them failed
    var importing: seq<int>      // the IMPORTING reports

    method Report(written: int) returns (ok: bool)
      modifies this
      ensures reports == old(reports) + [written] && importing == old(importing)
      ensures refused == old(refused) + (if ok then 0 else 1)
      ensures sound ==> ok
    {
      reports := reports + [written];
      ok := *;
      ok := ok || sound;
      if !ok { refused := refused + 1; }
    }

    method ReportImport(written: int)
      modifies this
      ensures importing == old(importing) + [written] && reports == old(reports) && refused == old(refused)
    {
      importing := importing + [written];
    }
  }

  datatype CopyError = Nil | WriteError | ShortWrite | ProgressError | ReadError

  predicate Increasing(s: seq<int>) {
    forall i, j :: 0 <= i < j < |s| ==> s[i] < s[j]
  }

  /** Reports that grow strictly, end at most at `last`, and are at least 64 MiB apart except
      for one at the announced total. */
  predicate Paced(s: seq<int>, last: nat, atTotal: bool) {
    && Increasing(s)
    && (forall i :: 0 <= i < |s| ==> 0 < s[i] <= last)
    && |s| <= last / REPORT_EVERY + (if atTotal then 1 else 0)
  }

  /** Strictly increasing, and at most one for every 64 MiB, and one more. */
  predicate WellPaced(s: seq<int>, written: nat) {
    && Increasing(s) && |s| <= written / REPORT_EVERY + 1
    && (forall i :: 0 <= i < |s| ==> 0 < s[i] <= written)
  }

  lemma PacedNext(s: seq<int>, last: nat, atTotal: bool, written: nat, total: int)
    requires Paced(s, last, atTotal) && last < written
    requires written - last >= REPORT_EVERY || (written == total && !atTotal)
    ensures Paced(s + [written], written, atTotal || written - last < REPORT_EVERY)
  {
    var t := s + [written];
    assert forall i :: 0 <= i < |s| ==> t[i] == s[i];
    assert last / REPORT_EVERY <= written / REPORT_EVERY;
    if written - last >= REPORT_EVERY {
      assert written / REPORT_EVERY >= last / REPORT_EVERY + 1;
    }
  }

  function Last(s: seq<int>): int {
    if s == [] then 0 else s[|s| - 1]
  }

  /** No report is more than 64 MiB and one buffer behind the one before. */
  predicate Regular(s: seq<int>) {
    forall i :: 0 <= i < |s| ==> s[i] - Last(s[..i]) < REPORT_EVERY + BUFFER
  }

  lemma RegularNext(s: seq<int>, x: int)
    requires Regular(s) && x - Last(s) < REPORT_EVERY + BUFFER
    ensures Regular(s + [x])
  {
    var t := s + [x];
    forall i | 0 <= i < |t| ensures t[i] - Last(t[..i]) < REPORT_EVERY + BUFFER {
      if i < |s| {
        assert t[..i] == s[..i];
      } else {
        assert t[..i] == s;
      }
    }
  }

  /** All reported that is due. */
  predicate Prompt(s: seq<int>, written: nat, total: int) {
    written - Last(s) < REPORT_EVERY && (0 < written == total ==> Last(s) == written)
  }

  /** What the progress callback has been told; `atTotal` when it was told at the total. */
  datatype Told = Told(sent: seq<int>, atTotal: bool)

  /** What the callback had been told, and had answered, before this copy. */
  datatype Past = Past(reports: seq<int>, refused: nat, importing: seq<int>)

  ghost function Now(progress: Progress?): Past
    reads progress
  {
    if progress == null then Past([], 0, []) else Past(progress.reports, progress.refused, progress.importing)
  }

  /** Since then it was told this, and refused the last report or none. */
  ghost predicate Heard(progress: Progress?, past: Past, t: Told, refusal: bool)
    reads progress
  {
    if progress == null then !refusal
    else Now(progress) == Past(past.reports + t.sent, past.refused + (if refusal then 1 else 0), past.importing)
  }

  ghost predicate Fine(t: Told, written: nat, total: int) {
    && 0 <= Last(t.sent) <= written && Paced(t.sent, Last(t.sent), t.atTotal) && Regular(t.sent)
    && (t.atTotal ==> Last(t.sent) >= total)
  }

  /** The report that follows a write. */
  method Note(progress: Progress?, before: nat, written: nat, total: int, lastReported: nat,
              ghost told: Told, ghost past: Past)
    returns (ok: bool, last: nat, ghost told': Told)
    requires lastReported == Last(told.sent) && Fine(told, before, total)
    requires before < written <= before + BUFFER && (progress != null ==> Prompt(told.sent, before, total))
    requires Heard(progress, past, told, false)
    modifies progress
    ensures last == Last(told'.sent) && Fine(told', written, total)
    ensures Heard(progress, past, told', !ok)
    ensures progress != null ==> Prompt(told'.sent, written, total)
    ensures progress == null || progress.sound ==> ok
  {
    ok, last, told' := true, lastReported, told;
    if progress != null && (written - lastReported >= REPORT_EVERY || written == total) {
      PacedNext(told.sent, lastReported, told.atTotal, written, total);
      RegularNext(told.sent, written);
      told' := Told(told.sent + [written], told.atTotal || written - lastReported < REPORT_EVERY);
      ok := progress.Report(written);
      last := written;
    }
  }

  predicate Sound(dst: File, src: Reader, progress: Progress?) {
    dst.sound && src.sound && (progress == null || progress.sound)
  }

  lemma Front(data: seq<Byte>, a: nat, b: nat, n: nat)
    requires a <= b <= |data| && n <= b - a
    ensures data[a..b][..n] == data[a..a + n]
  {}

  /** One round of the loop: read, write, report. */
  method Round(dst: File, src: Reader, total: int, progress: Progress?, before: nat, lastReported: nat,
               ghost told: Told, ghost past: Past)
    returns (written: nat, last: nat, stop: bool, e: CopyError, ghost told': Told)
    requires src.Valid() && before == src.pos && lastReported == Last(told.sent) && Fine(told, before, total)
    requires progress != null ==> Prompt(told.sent, before, total)
    requires Heard(progress, past, told, false)
    modifies dst, src, progress
    ensures src.Valid() && before <= written <= src.pos && Fine(told', written, total) && last == Last(told'.sent)
    ensures dst.content == old(dst.content) + src.data[before..written]
    ensures Heard(progress, past, told', stop && e.ProgressError?)
    ensures progress != null && (!stop || e.Nil?) ==> Prompt(told'.sent, written, total)
    ensures !stop ==> written == src.pos && (written > before || src.patience < old(src.patience))
    ensures stop && e.Nil? ==> written == |src.data|
    ensures stop && Sound(dst, src, progress) ==> e.Nil?
  {
    written, last, stop, told' := before, lastReported, true, told;
    var chunk, readErr := src.Read(BUFFER);
    if |chunk| > 0 {
      var n, failed := dst.Write(chunk);
      written := written + n;
      Front(src.data, before, src.pos, n);
      if failed || n != |chunk| {
        e := if failed then WriteError else ShortWrite;
        return;
      }
      var ok;
      ok, last, told' := Note(progress, before, written, total, lastReported, told, past);
      if !ok { e := ProgressError; return; }
    }
    stop := !readErr.NoError?;
    e := if readErr.EOF? then Nil else CopyError.ReadError;
  }

  method CopyWithProgress(dst: File, src: Reader, total: int, progress: Progress?)
    returns (written: nat, e: CopyError, ghost sent: seq<int>)
    requires src.Valid() && src.pos == 0
    modifies dst, src, progress
    ensures written <= |src.data| && dst.content == old(dst.content) + src.data[..written]
    ensures e.Nil? ==> written == |src.data|
    ensures progress != null ==> progress.reports == old(progress.reports) + sent
    ensures WellPaced(sent, written) && Regular(sent)
    ensures progress != null && e.Nil? ==> Prompt(sent, written, total)
    ensures Sound(dst, src, progress) ==> e.Nil?
    ensures progress != null ==>
              progress.importing == old(progress.importing)
              && progress.refused == old(progress.refused) + (if e.ProgressError? then 1 else 0)
    ensures progress == null ==> !e.ProgressError?
  {
    written := 0;
    var lastReported: nat := 0;
    ghost var told, past := Told([], false), Now(progress);
    var stop := false;
    e := Nil;
    while !stop
      invariant src.Valid() && written <= src.pos && (!stop ==> written == src.pos)
      invariant dst.content == old(dst.content) + src.data[..written]
      invariant Fine(told, written, total) && lastReported == Last(told.sent)
      invariant Heard(progress, past, told, stop && e.ProgressError?)
      invariant progress != null && (!stop || e.Nil?) ==> Prompt(told.sent, written, total)
      invariant stop && e.Nil? ==> written == |src.data|
      invariant stop && Sound(dst, src, progress) ==> e.Nil?
      decreases !stop, |src.data| - written, src.patience
    {
      ghost var before := written;
      written, lastReported, stop, e, told := Round(dst, src, total, progress, written, lastReported, told, past);
      assert src.data[..before] + src.data[before..written] == src.data[..written];
    }
    sent := told.sent;
    PacedWithin(told, written, total);
  }

  lemma PacedWithin(t: Told, written: nat, total: int)
    requires Fine(t, written, total)
    ensures WellPaced(t.sent, written)
  {
    assert Last(t.sent) / REPORT_EVERY <= written / REPORT_EVERY;
  }

  /** io.LimitReader. */
  function Limited(data: seq<Byte>, limit: nat): seq<Byte> {
    if |data| <= limit then data else data[..limit]
  }

  /** The part of Deploy around the copy: what is handed to the import is the whole archive,
      never a truncated one. One byte more than the maximum is read to notice excess. When
      nothing fails, exactly the archives of an admissible size are imported. */
  method Download(archive: seq<Byte>, total: int, progress: Progress?, sound: bool)
    returns (imported: Option<seq<Byte>>)
    modifies progress
    ensures imported.Some? ==> imported.value == archive && 0 < |archive| <= MAX_ARCHIVE
    ensures sound && (progress == null || progress.sound) ==> (imported.Some? <==> 0 < |archive| <= MAX_ARCHIVE)
    ensures progress != null && imported.Some? ==>
              progress.refused == old(progress.refused) && progress.importing == old(progress.importing) + [|archive|]
    ensures progress != null && imported.None? ==> progress.importing == old(progress.importing)
  {
    var file := new File(sound);
    var reader := new Reader(Limited(archive, MAX_ARCHIVE + 1), sound);
    var written, e, _ := CopyWithProgress(file, reader, total, progress);
    var closed: bool := *;
    if !e.Nil? { return None; }
    if !(closed || sound) || written <= 0 || written > MAX_ARCHIVE { return None; }
    if progress != null {
      progress.ReportImport(written);
    }
    assert reader.data[..written] == reader.data;
    return Some(file.content);
  }
}
