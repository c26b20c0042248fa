/** What the video merge writes. A file holds a sequence of clips; merging
    files writes their clips one after the other. The sequential strategy
    merges the existing files batch by batch into numbered temporary files
    and then joins those; the binary strategy halves the list until a part
    is small enough to merge directly. Encoding, temporary-file clean-up and
    directories are abstracted away: what is modelled is which clips end up
    in the output, in which order, and when the merge raises. */
module MergePlan {
  import opened Wrappers
  import opened PyJson

  type Path = string

  /** The files that exist, each with the clips it holds. */
  type FileSystem = map<Path, seq<Path>>

  /** `video_file and os.path.exists(video_file)`: a non-empty path to an
      existing file. */
  predicate Loadable(v: Json, fs: FileSystem) {
    v.Str? && v.s != [] && v.s in fs
  }

  /** The files a merge loads from `files`, in order. */
  function Loaded(files: seq<Json>, fs: FileSystem): (r: seq<Path>)
    ensures |r| <= |files|
    ensures forall k :: 0 <= k < |r| ==> r[k] in fs
  {
    if files == [] then []
    else (if Loadable(files[0], fs) then [files[0].s] else []) + Loaded(files[1..], fs)
  }

  /** The clips of the given existing files, one file after the other. */
  function Contents(paths: seq<Path>, fs: FileSystem): seq<Path>
    requires forall k :: 0 <= k < |paths| ==> paths[k] in fs
  {
    if paths == [] then [] else fs[paths[0]] + Contents(paths[1..], fs)
  }

  /** The clips a merge of `files` is made of. */
  function LoadedContent(files: seq<Json>, fs: FileSystem): seq<Path> {
    Contents(Loaded(files, fs), fs)
  }

  function Flatten<T>(parts: seq<seq<T>>): seq<T> {
    if parts == [] then [] else parts[0] + Flatten(parts[1..])
  }

  lemma {:induction false} LoadedAppend(a: seq<Json>, b: seq<Json>, fs: FileSystem)
    ensures Loaded(a + b, fs) == Loaded(a, fs) + Loaded(b, fs)
  {
    if a == [] {
      assert a + b == b;
    } else {
      assert (a + b)[1..] == a[1..] + b;
      LoadedAppend(a[1..], b, fs);
    }
  }

  lemma {:induction false} ContentsAppend(p: seq<Path>, q: seq<Path>, fs: FileSystem)
    requires forall k :: 0 <= k < |p| ==> p[k] in fs
    requires forall k :: 0 <= k < |q| ==> q[k] in fs
    ensures Contents(p + q, fs) == Contents(p, fs) + Contents(q, fs)
  {
    if p == [] {
      assert p + q == q;
    } else {
      assert (p + q)[1..] == p[1..] + q;
      ContentsAppend(p[1..], q, fs);
    }
  }

  /** Merging two lists one after the other gives the clips of merging
      their concatenation. */
  lemma LoadedContentAppend(a: seq<Json>, b: seq<Json>, fs: FileSystem)
    ensures LoadedContent(a + b, fs) == LoadedContent(a, fs) + LoadedContent(b, fs)
  {
    LoadedAppend(a, b, fs);
    ContentsAppend(Loaded(a, fs), Loaded(b, fs), fs);
  }

  /** Writing a file that is none of `files` changes nothing about merging them. */
  lemma {:induction false} LoadedFrame(files: seq<Json>, fs: FileSystem, p: Path, c: seq<Path>)
    requires Str(p) !in files
    ensures p !in Loaded(files, fs)
    ensures Loaded(files, fs[p := c]) == Loaded(files, fs)
    ensures LoadedContent(files, fs[p := c]) == LoadedContent(files, fs)
  {
    if files != [] {
      assert Str(p) !in files[1..];
      LoadedFrame(files[1..], fs, p, c);
    }
    ContentsFrame(Loaded(files, fs), fs, p, c);
  }

  lemma {:induction false} ContentsFrame(paths: seq<Path>, fs: FileSystem, p: Path, c: seq<Path>)
    requires forall k :: 0 <= k < |paths| ==> paths[k] in fs
    requires p !in paths
    ensures Contents(paths, fs[p := c]) == Contents(paths, fs)
  {
    if paths != [] {
      assert p !in paths[1..];
      ContentsFrame(paths[1..], fs, p, c);
    }
  }

  /** What a merge leaves at its output path. */
  datatype Written = NothingWritten | Wrote(content: seq<Path>)

  /** How a merge raises: `range()` with step 0, opening a temporary file
      that a half of the binary split never wrote, a split that never
      reaches a part small enough (Python's recursion limit), and reading a
      merge result the document does not have yet. */
  datatype MergeError = ZeroBatchSize | MissingTemp | UnboundedSplit | UnsetAttribute(name: string)

  /** What a merge of `files` should leave: the clips of the existing
      files, or nothing when none exists. */
  function Expected(files: seq<Json>, fs: FileSystem): Written {
    if Loaded(files, fs) == [] then NothingWritten else Wrote(LoadedContent(files, fs))
  }

  /** The slices `files[i:i + b]` for `i` in `range(0, len(files), b)`. */
  function Batches<T>(s: seq<T>, b: nat): seq<seq<T>>
    requires b >= 1
    decreases |s|
  {
    if s == [] then []
    else if |s| <= b then [s]
    else [s[..b]] + Batches(s[b..], b)
  }

  /** Every batch holds between 1 and `b` files, and all but the last exactly `b`. */
  lemma {:induction false} BatchSizes<T>(s: seq<T>, b: nat)
    requires b >= 1
    ensures forall k :: 0 <= k < |Batches(s, b)| ==> 1 <= |Batches(s, b)[k]| <= b
    ensures forall k :: 0 <= k < |Batches(s, b)| - 1 ==> |Batches(s, b)[k]| == b
    decreases |s|
  {
    if |s| > b {
      BatchSizes(s[b..], b);
      assert forall k :: 1 <= k < |Batches(s, b)| ==> Batches(s, b)[k] == Batches(s[b..], b)[k - 1];
    }
  }

  /** The batches put back together are the list: nothing is lost, nothing
      repeated, the order kept. */
  lemma {:induction false} BatchesFlatten<T>(s: seq<T>, b: nat)
    requires b >= 1
    ensures Flatten(Batches(s, b)) == s
    decreases |s|
  {
    if |s| > b {
      BatchesFlatten(s[b..], b);
      assert s[..b] + s[b..] == s;
    } else if s != [] {
      assert Batches(s, b) == [s];
    }
  }

  /** Batch `k` is the slice starting at `k * b`. */
  lemma {:induction false} BatchAt<T>(s: seq<T>, b: nat, k: nat)
    requires b >= 1 && k < |Batches(s, b)|
    ensures k * b < |s|
    ensures Batches(s, b)[k] == s[k * b .. if (k + 1) * b <= |s| then (k + 1) * b else |s|]
    decreases k
  {
    if k > 0 {
      assert |s| > b;
      var rest := s[b..];
      assert Batches(s, b)[k] == Batches(rest, b)[k - 1];
      BatchAt(rest, b, k - 1);
      assert (k - 1) * b + b == k * b && k * b + b == (k + 1) * b;
      var lo := k * b;
      var hi := if (k + 1) * b <= |s| then (k + 1) * b else |s|;
      assert Batches(rest, b)[k - 1] == rest[lo - b .. hi - b];
      assert rest[lo - b .. hi - b] == s[lo .. hi];
    }
  }

  /** A temporary file of the sequential strategy: its number `i // b` and its clips. */
  datatype TempFile = TempFile(index: nat, content: seq<Path>)

  /** One temporary file per batch in which some file exists, numbered by
      the batch's position counted from `k`. */
  function TempsOf(batches: seq<seq<Json>>, fs: FileSystem, k: nat): (temps: seq<TempFile>)
    ensures |temps| <= |batches|
  {
    if batches == [] then []
    else
      var loaded := Loaded(batches[0], fs);
      var rest := TempsOf(batches[1..], fs, k + 1);
      (if loaded == [] then [] else [TempFile(k, Contents(loaded, fs))]) + rest
  }

  lemma TempsCons(batches: seq<seq<Json>>, fs: FileSystem, k: nat)
    requires batches != []
    ensures TempsOf(batches, fs, k) ==
      (if Loaded(batches[0], fs) == [] then [] else [TempFile(k, LoadedContent(batches[0], fs))]) +
      TempsOf(batches[1..], fs, k + 1)
  {
  }

  /** Temporary file number `i` holds the clips of batch `i`, counted from
      `k`, and only batches in which some file exists have one. */
  predicate HoldsBatches(temps: seq<TempFile>, batches: seq<seq<Json>>, fs: FileSystem, k: nat) {
    forall t :: 0 <= t < |temps| ==>
      k <= temps[t].index < k + |batches| &&
      Loaded(batches[temps[t].index - k], fs) != [] &&
      temps[t].content == LoadedContent(batches[temps[t].index - k], fs)
  }

  /** The file numbers increase. */
  predicate Increasing(temps: seq<TempFile>) {
    forall t, u :: 0 <= t < u < |temps| ==> temps[t].index < temps[u].index
  }

  lemma HoldsBatchesCons(head: seq<TempFile>, rest: seq<TempFile>, batches: seq<seq<Json>>, fs: FileSystem, k: nat)
    requires batches != [] && |head| <= 1
    requires head != [] ==>
      (head[0].index == k && Loaded(batches[0], fs) != [] && head[0].content == LoadedContent(batches[0], fs))
    requires HoldsBatches(rest, batches[1..], fs, k + 1)
    ensures HoldsBatches(head + rest, batches, fs, k)
  {
    var temps := head + rest;
    forall t | 0 <= t < |temps|
      ensures k <= temps[t].index < k + |batches|
      ensures Loaded(batches[temps[t].index - k], fs) != []
      ensures temps[t].content == LoadedContent(batches[temps[t].index - k], fs)
    {
      if t >= |head| {
        var u := t - |head|;
        assert temps[t] == rest[u];
        assert batches[1..][rest[u].index - (k + 1)] == batches[rest[u].index - k];
      }
    }
  }

  lemma IncreasingCons(head: seq<TempFile>, rest: seq<TempFile>, k: nat)
    requires |head| <= 1 && (head != [] ==> head[0].index == k)
    requires forall t :: 0 <= t < |rest| ==> k < rest[t].index
    requires Increasing(rest)
    ensures Increasing(head + rest)
  {
    var temps := head + rest;
    forall t, u | 0 <= t < u < |temps|
      ensures temps[t].index < temps[u].index
    {
      assert temps[u] == rest[u - |head|];
      if t >= |head| {
        assert temps[t] == rest[t - |head|];
      }
    }
  }

  /** The temporary files are numbered by batch, in increasing order. */
  lemma {:induction false} TempsNumbered(batches: seq<seq<Json>>, fs: FileSystem, k: nat)
    ensures HoldsBatches(TempsOf(batches, fs, k), batches, fs, k)
    ensures Increasing(TempsOf(batches, fs, k))
  {
    if batches != [] {
      TempsNumbered(batches[1..], fs, k + 1);
      TempsCons(batches, fs, k);
      var head := if Loaded(batches[0], fs) == [] then [] else [TempFile(k, LoadedContent(batches[0], fs))];
      HoldsBatchesCons(head, TempsOf(batches[1..], fs, k + 1), batches, fs, k);
      IncreasingCons(head, TempsOf(batches[1..], fs, k + 1), k);
    }
  }

  /** The clips of the temporary files, one after the other. */
  function TempContents(temps: seq<TempFile>): seq<Path> {
    if temps == [] then [] else temps[0].content + TempContents(temps[1..])
  }

  /** The temporary files hold, between them, the clips of every existing
      file, in order; there are none exactly when no file exists. */
  lemma {:induction false} TempsCover(batches: seq<seq<Json>>, fs: FileSystem, k: nat)
    ensures TempContents(TempsOf(batches, fs, k)) == LoadedContent(Flatten(batches), fs)
    ensures TempsOf(batches, fs, k) == [] <==> Loaded(Flatten(batches), fs) == []
  {
    if batches != [] {
      TempsCover(batches[1..], fs, k + 1);
      LoadedAppend(batches[0], Flatten(batches[1..]), fs);
      LoadedContentAppend(batches[0], Flatten(batches[1..]), fs);
      var loaded := Loaded(batches[0], fs);
      var rest := TempsOf(batches[1..], fs, k + 1);
      if loaded != [] {
        var temps := [TempFile(k, Contents(loaded, fs))] + rest;
        assert temps[1..] == rest;
      } else {
        assert [] + rest == rest;
      }
    }
  }

  /** How the sequential strategy ends: joining several temporary files,
      renaming the only one, or writing nothing. */
  datatype Finish = ConcatTemps | RenameSingleTemp | NoOutput

  datatype SequentialPlan = SequentialPlan(temps: seq<TempFile>, finish: Finish)

  function FinishFor(count: nat): Finish {
    if count > 1 then ConcatTemps else if count == 1 then RenameSingleTemp else NoOutput
  }

  /** The sequential strategy on `files`. An empty list returns at once;
      `range()` raises for a zero step and is empty for a negative one. */
  function SequentialSpec(files: seq<Json>, fs: FileSystem, b: int): Result<SequentialPlan, MergeError> {
    if files == [] then Ok(SequentialPlan([], NoOutput))
    else if b == 0 then Err(ZeroBatchSize)
    else if b < 0 then Ok(SequentialPlan([], NoOutput))
    else
      var temps := TempsOf(Batches(files, b), fs, 0);
      Ok(SequentialPlan(temps, FinishFor(|temps|)))
  }

  /** What a plan leaves at the output path. */
  function PlanOutput(plan: SequentialPlan): Written {
    match plan.finish
    case ConcatTemps => Wrote(TempContents(plan.temps))
    case RenameSingleTemp => if |plan.temps| > 0 then Wrote(plan.temps[0].content) else NothingWritten
    case NoOutput => NothingWritten
  }

  /** The sequential strategy with a positive batch size writes exactly the
      clips of the existing files, in order, and nothing when none exists. */
  lemma SequentialOutcome(files: seq<Json>, fs: FileSystem, b: int)
    requires b >= 1
    ensures SequentialSpec(files, fs, b).Ok?
    ensures PlanOutput(SequentialSpec(files, fs, b).value) == Expected(files, fs)
  {
    if files != [] {
      BatchesFlatten(files, b);
      TempsCover(Batches(files, b), fs, 0);
      var temps := TempsOf(Batches(files, b), fs, 0);
      if |temps| == 1 {
        assert TempContents(temps) == temps[0].content + TempContents([]) by {
          assert temps[1..] == [];
        }
      }
    }
  }

  /** The first batch and the batches of the rest. */
  lemma BatchesCons<T>(s: seq<T>, b: nat)
    requires b >= 1 && s != []
    ensures var end := if b <= |s| then b else |s|;
      Batches(s, b) == [s[..end]] + Batches(s[end..], b)
  {
    if |s| <= b {
      assert s[..|s|] == s;
      assert s[|s|..] == [];
    }
  }

  lemma MulAtLeast(b: int, d: int)
    requires b >= 1 && d >= 1
    ensures b * d >= b
  {
  }

  /** Batch `k` starts at `k * b`, and `(k * b) // b` is `k` again. */
  lemma DivExact(k: nat, b: nat)
    requires b >= 1
    ensures (k * b) / b == k
  {
    var q := (k * b) / b;
    var r := (k * b) % b;
    assert k * b == b * q + r;
    var d := k - q;
    assert b * d == b * k - b * q;
    if d >= 1 {
      MulAtLeast(b, d);
    } else if d <= -1 {
      MulAtLeast(b, -d);
    }
  }

  lemma MulSucc(k: nat, b: nat)
    ensures k * b + b == (k + 1) * b
  {
  }

  /** The batches from position `i` on: the slice `files[i:i + b]`, then
      the batches after it. */
  lemma BatchesFrom(files: seq<Json>, b: nat, i: nat, end: nat)
    requires b >= 1 && i < |files| && end == (if i + b <= |files| then i + b else |files|)
    ensures Batches(files[i..], b) == [files[i..end]] + Batches(files[end..], b)
  {
    var rest := files[i..];
    BatchesCons(rest, b);
    assert rest[..end - i] == files[i..end] && rest[end - i..] == files[end..];
  }

  /** One round of the sequential loop: the batch at position `i`, the
      `k`-th, and the batches after it. */
  lemma TempsStep(files: seq<Json>, fs: FileSystem, b: nat, i: nat, k: nat, end: nat)
    requires b >= 1 && i < |files| && end == (if i + b <= |files| then i + b else |files|)
    ensures TempsOf(Batches(files[i..], b), fs, k) ==
      (if Loaded(files[i..end], fs) == [] then [] else [TempFile(k, LoadedContent(files[i..end], fs))]) +
      TempsOf(Batches(files[end..], b), fs, k + 1)
  {
    BatchesFrom(files, b, i, end);
    var bs := [files[i..end]] + Batches(files[end..], b);
    assert bs[0] == files[i..end] && bs[1..] == Batches(files[end..], b);
    TempsCons(bs, fs, k);
  }

  lemma AppendAssoc<T>(a: seq<T>, b: seq<T>, c: seq<T>)
    ensures a + (b + c) == (a + b) + c
  {
  }

  /** The batch starting at `i = k * b` is number `i // b = k`. */
  lemma IndexOfBatch(i: nat, k: nat, b: nat)
    requires b >= 1 && i == k * b
    ensures i / b == k && i + b == (k + 1) * b
  {
    DivExact(k, b);
    MulSucc(k, b);
  }

  /** The clips loaded for one batch: its files that exist, in order. */
  method LoadClips(batch: seq<Json>, fs: FileSystem) returns (clips: seq<Path>)
    ensures clips == Loaded(batch, fs)
  {
    clips := [];
    var j := 0;
    while j < |batch|
      invariant 0 <= j <= |batch|
      invariant clips == Loaded(batch[..j], fs)
    {
      if batch[j].Str? && batch[j].s != [] && batch[j].s in fs {
        clips := clips + [batch[j].s];
      }
      LoadedAppend(batch[..j], [batch[j]], fs);
      assert batch[..j + 1] == batch[..j] + [batch[j]];
      j := j + 1;
    }
    assert batch[..j] == batch;
  }

  /** The loop `for i in range(0, len(files), b)` of `_merge_video_clips`:
      one temporary file `i // b` per batch in which some file exists. */
  method SequentialTemps(files: seq<Json>, fs: FileSystem, b: nat) returns (temps: seq<TempFile>)
    requires b >= 1
    ensures temps == TempsOf(Batches(files, b), fs, 0)
  {
    temps := [];
    var i := 0;
    ghost var k: nat := 0;
    ghost var rest := files;
    while i < |files|
      invariant 0 <= i && i == k * b
      invariant rest == if i <= |files| then files[i..] else []
      invariant TempsOf(Batches(files, b), fs, 0) == temps + TempsOf(Batches(rest, b), fs, k)
      decreases |files| - i
    {
      var end := if i + b <= |files| then i + b else |files|;
      var clips := LoadClips(files[i..end], fs);
      TempsStep(files, fs, b, i, k, end);
      IndexOfBatch(i, k, b);
      var index := i / b;
      ghost var head := if clips == [] then [] else [TempFile(k, Contents(clips, fs))];
      ghost var after := TempsOf(Batches(files[end..], b), fs, k + 1);
      ghost var done := temps;
      if clips != [] {
        temps := temps + [TempFile(index, Contents(clips, fs))];
      }
      assert temps == done + head;
      AppendAssoc(done, head, after);
      i := i + b;
      k := k + 1;
      rest := if i <= |files| then files[i..] else [];
      assert files[end..] == rest;
    }
    assert temps + [] == temps;
  }

  /** `_merge_video_clips`' sequential strategy as the plan it carries out:
      nothing for no files, `range()` raising for a zero step and empty for
      a negative one, else the temporary files and how they are finished. */
  method MergeSequential(files: seq<Json>, fs: FileSystem, b: int) returns (r: Result<SequentialPlan, MergeError>)
    ensures r == SequentialSpec(files, fs, b)
  {
    if files == [] {
      return Ok(SequentialPlan([], NoOutput));
    }
    if b == 0 {
      return Err(ZeroBatchSize);
    }
    var temps: seq<TempFile> := [];
    if b > 0 {
      temps := SequentialTemps(files, fs, b);
    }
    var finish := if |temps| > 1 then ConcatTemps else if |temps| == 1 then RenameSingleTemp else NoOutput;
    return Ok(SequentialPlan(temps, finish));
  }

  /** `_merge_video_clips_v2` for a positive batch size: a list longer than
      the batch size is halved at `len // 2`, each half merged into a
      temporary file, and the two joined; the parent opens both temporary
      files, so a half that wrote nothing makes it raise. */
  function BinaryAt(files: seq<Json>, fs: FileSystem, b: nat): Result<Written, MergeError>
    requires b >= 1
    decreases |files|
  {
    if files == [] then Ok(NothingWritten)
    else if |files| <= b then Ok(Expected(files, fs))
    else
      var mid := |files| / 2;
      var left :- BinaryAt(files[..mid], fs, b);
      var right :- BinaryAt(files[mid..], fs, b);
      if left.NothingWritten? || right.NothingWritten? then Err(MissingTemp)
      else Ok(Wrote(left.content + right.content))
  }

  /** The binary strategy: with a batch size below 1 a non-empty list is
      halved forever. */
  function Binary(files: seq<Json>, fs: FileSystem, b: int): Result<Written, MergeError> {
    if files == [] then Ok(NothingWritten)
    else if b < 1 then Err(UnboundedSplit)
    else BinaryAt(files, fs, b)
  }

  /** The parts the binary strategy merges directly. */
  function Leaves(files: seq<Json>, b: nat): (r: seq<seq<Json>>)
    requires b >= 1
    ensures forall k :: 0 <= k < |r| ==> 1 <= |r[k]| <= b
    decreases |files|
  {
    if files == [] then []
    else if |files| <= b then [files]
    else Leaves(files[..|files| / 2], b) + Leaves(files[|files| / 2..], b)
  }

  lemma {:induction false} FlattenAppend<T>(p: seq<seq<T>>, q: seq<seq<T>>)
    ensures Flatten(p + q) == Flatten(p) + Flatten(q)
  {
    if p == [] {
      assert p + q == q;
    } else {
      assert (p + q)[1..] == p[1..] + q;
      FlattenAppend(p[1..], q);
    }
  }

  /** The leaves put back together are the list, in order. */
  lemma {:induction false} LeavesFlatten(files: seq<Json>, b: nat)
    requires b >= 1
    ensures Flatten(Leaves(files, b)) == files
    decreases |files|
  {
    if |files| > b {
      var mid := |files| / 2;
      LeavesFlatten(files[..mid], b);
      LeavesFlatten(files[mid..], b);
      FlattenAppend(Leaves(files[..mid], b), Leaves(files[mid..], b));
      assert files[..mid] + files[mid..] == files;
    } else if files != [] {
      assert Leaves(files, b) == [files];
    }
  }

  /** Every part the binary strategy merges directly has a file that exists. */
  predicate AllLeavesLoad(files: seq<Json>, fs: FileSystem, b: nat)
    requires b >= 1
  {
    forall k :: 0 <= k < |Leaves(files, b)| ==> Loaded(Leaves(files, b)[k], fs) != []
  }

  lemma AllLeavesLoadSplit(files: seq<Json>, fs: FileSystem, b: nat)
    requires b >= 1 && |files| > b
    ensures AllLeavesLoad(files, fs, b) <==>
      AllLeavesLoad(files[..|files| / 2], fs, b) && AllLeavesLoad(files[|files| / 2..], fs, b)
  {
    var l := Leaves(files[..|files| / 2], b);
    var r := Leaves(files[|files| / 2..], b);
    assert Leaves(files, b) == l + r;
    if AllLeavesLoad(files, fs, b) {
      forall k | 0 <= k < |l| ensures Loaded(l[k], fs) != [] {
        assert (l + r)[k] == l[k];
      }
      forall k | 0 <= k < |r| ensures Loaded(r[k], fs) != [] {
        assert (l + r)[|l| + k] == r[k];
      }
    }
  }

  /** The binary strategy writes the clips of every existing file, in
      order, exactly when every part it merges directly has a file that
      exists; otherwise a list longer than the batch size raises and a
      shorter one writes nothing. */
  lemma {:induction false} BinaryOutcome(files: seq<Json>, fs: FileSystem, b: nat)
    requires b >= 1 && files != []
    ensures AllLeavesLoad(files, fs, b) ==> Loaded(files, fs) != []
    ensures BinaryAt(files, fs, b) == BinaryExpected(files, fs, b)
    decreases |files|
  {
    if |files| <= b {
      assert Leaves(files, b) == [files];
      assert Leaves(files, b)[0] == files;
    } else {
      var mid := |files| / 2;
      BinaryOutcome(files[..mid], fs, b);
      BinaryOutcome(files[mid..], fs, b);
      BinarySplit(files, fs, b);
    }
  }

  /** What `BinaryOutcome` states the binary strategy does. */
  function BinaryExpected(files: seq<Json>, fs: FileSystem, b: nat): Result<Written, MergeError>
    requires b >= 1
  {
    if AllLeavesLoad(files, fs, b) then Ok(Wrote(LoadedContent(files, fs)))
    else if |files| <= b then Ok(NothingWritten)
    else Err(MissingTemp)
  }

  /** The step of `BinaryOutcome` for a list that is halved. */
  lemma BinarySplit(files: seq<Json>, fs: FileSystem, b: nat)
    requires b >= 1 && |files| > b
    requires var left := files[..|files| / 2];
      && (AllLeavesLoad(left, fs, b) ==> Loaded(left, fs) != [])
      && BinaryAt(left, fs, b) == BinaryExpected(left, fs, b)
    requires var right := files[|files| / 2..];
      && (AllLeavesLoad(right, fs, b) ==> Loaded(right, fs) != [])
      && BinaryAt(right, fs, b) == BinaryExpected(right, fs, b)
    ensures AllLeavesLoad(files, fs, b) ==> Loaded(files, fs) != []
    ensures BinaryAt(files, fs, b) == BinaryExpected(files, fs, b)
  {
    var mid := |files| / 2;
    var left, right := files[..mid], files[mid..];
    AllLeavesLoadSplit(files, fs, b);
    assert left + right == files;
    if AllLeavesLoad(left, fs, b) && AllLeavesLoad(right, fs, b) {
      LoadedAppend(left, right, fs);
      LoadedContentAppend(left, right, fs);
      assert BinaryAt(files, fs, b) == Ok(Wrote(LoadedContent(left, fs) + LoadedContent(right, fs)));
    } else {
      assert BinaryAt(left, fs, b).Err? || BinaryAt(right, fs, b).Err? ||
        BinaryAt(left, fs, b).value.NothingWritten? || BinaryAt(right, fs, b).value.NothingWritten?;
      assert BinaryAt(files, fs, b) == Err(MissingTemp);
    }
  }

  /** Where the binary strategy succeeds it writes what the sequential one
      writes. */
  lemma BinaryAgreesWithSequential(files: seq<Json>, fs: FileSystem, b: int)
    requires b >= 1 && Binary(files, fs, b).Ok?
    ensures Binary(files, fs, b).value == PlanOutput(SequentialSpec(files, fs, b).value)
  {
    SequentialOutcome(files, fs, b);
    if files != [] {
      BinaryOutcome(files, fs, b);
    }
  }

  /** The two strategies are not interchangeable: with batch size 1, a
      missing second file makes the binary strategy raise while the
      sequential one writes the first file's clips. */
  lemma BinaryRaisesWhereSequentialWrites()
    ensures Binary([Str("a"), Null], map["a" := ["b"]], 1) == Err(MissingTemp)
    ensures PlanOutput(SequentialSpec([Str("a"), Null], map["a" := ["b"]], 1).value) == Wrote(["b"])
  {
    var files := [Str("a"), Null];
    var fs: FileSystem := map["a" := ["b"]];
    assert files[..1] == [Str("a")] && files[1..] == [Null];
    assert Loaded([Null], fs) == [];
    assert Loaded([Str("a")], fs) == ["a"];
    assert Loaded(files, fs) == ["a"];
    assert Contents(["a"], fs) == ["b"];
    SequentialOutcome(files, fs, 1);
  }

  /** The merge settings: `USE_V2_MERGE`, `USE_V2_MERGE_ALL`, `VIDEO_BATCH_SIZE`. */
  datatype MergeConfig = MergeConfig(useV2Merge: bool, useV2MergeAll: bool, batchSize: int)

  /** `_merge_video_clips`: what the chosen strategy leaves at the output path. */
  function MergeSpec(files: seq<Json>, fs: FileSystem, cfg: MergeConfig): Result<Written, MergeError> {
    if cfg.useV2Merge then Binary(files, fs, cfg.batchSize)
    else
      var plan :- SequentialSpec(files, fs, cfg.batchSize);
      Ok(PlanOutput(plan))
  }

  /** With a positive batch size a merge that succeeds writes the clips of
      the existing files; the sequential strategy always succeeds, and the
      binary one raises only on a list longer than the batch size with a
      part in which no file exists. */
  lemma MergeWritesLoaded(files: seq<Json>, fs: FileSystem, cfg: MergeConfig)
    requires cfg.batchSize >= 1
    ensures MergeSpec(files, fs, cfg).Ok? ==> MergeSpec(files, fs, cfg).value == Expected(files, fs)
    ensures MergeSpec(files, fs, cfg).Ok? <==>
      !cfg.useV2Merge || files == [] || |files| <= cfg.batchSize || AllLeavesLoad(files, fs, cfg.batchSize)
    ensures MergeSpec(files, fs, cfg).Err? ==> MergeSpec(files, fs, cfg).error == MissingTemp
  {
    SequentialOutcome(files, fs, cfg.batchSize);
    if files != [] {
      BinaryOutcome(files, fs, cfg.batchSize);
    }
  }

  /** The file system after the output path received what a merge wrote. */
  function Apply(fs: FileSystem, out: Path, w: Written): FileSystem {
    match w
    case Wrote(c) => fs[out := c]
    case NothingWritten => fs
  }

  /** The marker a document records when there was nothing to merge. */
  const EMPTY: Path := "EMPTY"

  /** `_merge_conversation_videos` and `_merge_new_word_videos`: no items
      give "EMPTY"; otherwise the output path is recorded whether or not a
      file was written there, and a raising merge records nothing. */
  function ItemsPass(videos: seq<Json>, out: Path, fs: FileSystem, cfg: MergeConfig): (r: Result<(Path, FileSystem), MergeError>)
    ensures videos == [] ==> r == Ok((EMPTY, fs))
    ensures videos != [] && r.Ok? ==>
      (r.value.0 == out && MergeSpec(videos, fs, cfg).Ok? &&
       r.value.1 == Apply(fs, out, MergeSpec(videos, fs, cfg).value))
    ensures videos != [] ==> (r.Ok? <==> MergeSpec(videos, fs, cfg).Ok?)
  {
    if videos == [] then Ok((EMPTY, fs))
    else
      var w :- MergeSpec(videos, fs, cfg);
      Ok((out, Apply(fs, out, w)))
  }

  /** A recorded merge result worth merging again: set, not "EMPTY", and existing. */
  predicate Usable(p: Path, fs: FileSystem) {
    p != [] && p != EMPTY && p in fs
  }

  /** The inputs of `_merge_all_videos_v2`: the two recorded merge results
      that are usable, conversations first. Reading a result the document
      was never given raises AttributeError. */
  function CombinedInputs(conversations: Option<Path>, newWords: Option<Path>, fs: FileSystem): (r: Result<seq<Json>, MergeError>)
    ensures r.Ok? <==> conversations.Some? && newWords.Some?
    ensures r.Ok? ==>
      (r.value == (if Usable(conversations.value, fs) then [Str(conversations.value)] else []) +
                  (if Usable(newWords.value, fs) then [Str(newWords.value)] else []))
  {
    if conversations.None? then Err(UnsetAttribute("merged_video_conversations"))
    else if newWords.None? then Err(UnsetAttribute("merged_video_new_words"))
    else
      Ok((if Usable(conversations.value, fs) then [Str(conversations.value)] else []) +
         (if Usable(newWords.value, fs) then [Str(newWords.value)] else []))
  }

  /** `_merge_all_videos`: either the two recorded merge results (V2) or
      every conversation video followed by every new-word video (V1). */
  function AllPass(conversationVideos: seq<Json>, newWordVideos: seq<Json>,
                   conversations: Option<Path>, newWords: Option<Path>,
                   out: Path, fs: FileSystem, cfg: MergeConfig): Result<(Path, FileSystem), MergeError>
  {
    if cfg.useV2MergeAll then
      var inputs :- CombinedInputs(conversations, newWords, fs);
      ItemsPass(inputs, out, fs, cfg)
    else ItemsPass(conversationVideos + newWordVideos, out, fs, cfg)
  }

  /** `merge_videos`: conversations, then new words, then everything; the
      recorded paths and the files afterwards. */
  function MergeVideos(conversationVideos: seq<Json>, newWordVideos: seq<Json>,
                       conversationsOut: Path, newWordsOut: Path, allOut: Path,
                       fs: FileSystem, cfg: MergeConfig): Result<(Path, Path, Path, FileSystem), MergeError>
  {
    var c :- ItemsPass(conversationVideos, conversationsOut, fs, cfg);
    var n :- ItemsPass(newWordVideos, newWordsOut, c.1, cfg);
    var a :- AllPass(conversationVideos, newWordVideos, Some(c.0), Some(n.0), allOut, n.1, cfg);
    Ok((c.0, n.0, a.0, a.1))
  }

  /** Two merges one after the other: what the first writes, then what the
      second writes. */
  function Then(first: Written, second: Written): Written {
    match first
    case NothingWritten => second
    case Wrote(c) => if second.NothingWritten? then first else Wrote(c + second.content)
  }

  lemma ExpectedAppend(a: seq<Json>, b: seq<Json>, fs: FileSystem)
    ensures Expected(a + b, fs) == Then(Expected(a, fs), Expected(b, fs))
  {
    LoadedAppend(a, b, fs);
    LoadedContentAppend(a, b, fs);
  }

  lemma ExpectedFrame(files: seq<Json>, fs: FileSystem, p: Path, w: Written)
    requires Str(p) !in files
    ensures Expected(files, Apply(fs, p, w)) == Expected(files, fs)
  {
    if w.Wrote? {
      LoadedFrame(files, fs, p, w.content);
    }
  }

  /** A sequential pass with a positive batch size never raises and leaves
      what the merge of its videos should. */
  lemma SequentialPass(videos: seq<Json>, out: Path, fs: FileSystem, cfg: MergeConfig)
    requires !cfg.useV2Merge && cfg.batchSize >= 1
    ensures ItemsPass(videos, out, fs, cfg).Ok?
    ensures ItemsPass(videos, out, fs, cfg).value == (if videos == [] then EMPTY else out, Apply(fs, out, Expected(videos, fs)))
  {
    MergeWritesLoaded(videos, fs, cfg);
  }

  lemma SingleExpected(p: Path, fs: FileSystem)
    requires Usable(p, fs)
    ensures Expected([Str(p)], fs) == Wrote(fs[p])
  {
    assert [Str(p)][1..] == [];
    assert Loaded([Str(p)], fs) == [p];
    assert [p][1..] == [];
    assert Contents([p], fs) == fs[p] + [];
  }

  /** A recorded result, if usable, holds exactly what its pass wrote. */
  lemma RecordedPart(videos: seq<Json>, out: Path, other: Path, fs0: FileSystem, w: Written, fs: FileSystem)
    requires out != [] && out != EMPTY && out !in fs0 && other != out
    requires fs == Apply(Apply(fs0, out, Expected(videos, fs0)), other, w)
    ensures var p := if videos == [] then EMPTY else out;
      Expected(if Usable(p, fs) then [Str(p)] else [], fs) == Expected(videos, fs0)
  {
    var p := if videos == [] then EMPTY else out;
    if Usable(p, fs) {
      SingleExpected(p, fs);
    }
  }

  /** Merging the two recorded results writes what merging every video
      would: the conversation clips, then the new-word clips. */
  lemma RecordedExpected(cvs: seq<Json>, nvs: seq<Json>, outC: Path, outN: Path, fs0: FileSystem, fs2: FileSystem)
    requires outC != outN && outC != [] && outN != [] && outC != EMPTY && outN != EMPTY
    requires outC !in fs0 && outN !in fs0 && Str(outC) !in nvs
    requires fs2 == Apply(Apply(fs0, outC, Expected(cvs, fs0)), outN, Expected(nvs, fs0))
    ensures var inputs := CombinedInputs(Some(if cvs == [] then EMPTY else outC), Some(if nvs == [] then EMPTY else outN), fs2).value;
      Expected(inputs, fs2) == Then(Expected(cvs, fs0), Expected(nvs, fs0))
  {
    var pc := if cvs == [] then EMPTY else outC;
    var pn := if nvs == [] then EMPTY else outN;
    var first: seq<Json> := if Usable(pc, fs2) then [Str(pc)] else [];
    var second: seq<Json> := if Usable(pn, fs2) then [Str(pn)] else [];
    RecordedPart(cvs, outC, outN, fs0, Expected(nvs, fs0), fs2);
    ExpectedFrame(nvs, fs0, outC, Expected(cvs, fs0));
    RecordedPart(nvs, outN, outC, Apply(fs0, outC, Expected(cvs, fs0)), NothingWritten, fs2);
    assert CombinedInputs(Some(pc), Some(pn), fs2).value == first + second;
    ExpectedAppend(first, second, fs2);
  }

  /** The files after the conversation and new-word passes have written
      what they should. */
  function ItemsWritten(cvs: seq<Json>, nvs: seq<Json>, outC: Path, outN: Path, fs0: FileSystem): FileSystem {
    Apply(Apply(fs0, outC, Expected(cvs, fs0)), outN, Expected(nvs, fs0))
  }

  /** The two per-kind passes, sequential with a positive batch size: the
      recorded paths and the files they leave. */
  lemma ItemsPasses(cvs: seq<Json>, nvs: seq<Json>, outC: Path, outN: Path, fs0: FileSystem, cfg: MergeConfig)
    requires !cfg.useV2Merge && cfg.batchSize >= 1 && Str(outC) !in nvs
    ensures ItemsPass(cvs, outC, fs0, cfg) == Ok((if cvs == [] then EMPTY else outC, Apply(fs0, outC, Expected(cvs, fs0))))
    ensures ItemsPass(nvs, outN, Apply(fs0, outC, Expected(cvs, fs0)), cfg) ==
      Ok((if nvs == [] then EMPTY else outN, ItemsWritten(cvs, nvs, outC, outN, fs0)))
  {
    SequentialPass(cvs, outC, fs0, cfg);
    ExpectedFrame(nvs, fs0, outC, Expected(cvs, fs0));
    SequentialPass(nvs, outN, Apply(fs0, outC, Expected(cvs, fs0)), cfg);
  }

  /** V1 of merging everything: every video again. */
  lemma MergeAllAgain(cvs: seq<Json>, nvs: seq<Json>, outC: Path, outN: Path, outA: Path, fs0: FileSystem, cfg: MergeConfig)
    requires !cfg.useV2Merge && cfg.batchSize >= 1 && !cfg.useV2MergeAll
    requires Str(outC) !in cvs + nvs && Str(outN) !in cvs + nvs
    ensures MergeVideos(cvs, nvs, outC, outN, outA, fs0, cfg).Ok?
    ensures MergeVideos(cvs, nvs, outC, outN, outA, fs0, cfg).value.3 ==
      Apply(ItemsWritten(cvs, nvs, outC, outN, fs0), outA, Expected(cvs + nvs, fs0))
  {
    assert Str(outC) !in nvs;
    ItemsPasses(cvs, nvs, outC, outN, fs0, cfg);
    var fs1 := Apply(fs0, outC, Expected(cvs, fs0));
    ExpectedFrame(cvs + nvs, fs0, outC, Expected(cvs, fs0));
    ExpectedFrame(cvs + nvs, fs1, outN, Expected(nvs, fs0));
    SequentialPass(cvs + nvs, outA, ItemsWritten(cvs, nvs, outC, outN, fs0), cfg);
  }

  /** V2 of merging everything: the two recorded results. */
  lemma MergeAllRecorded(cvs: seq<Json>, nvs: seq<Json>, outC: Path, outN: Path, outA: Path, fs0: FileSystem, cfg: MergeConfig)
    requires !cfg.useV2Merge && cfg.batchSize >= 1 && cfg.useV2MergeAll
    requires outC != outN && outC != [] && outN != [] && outC != EMPTY && outN != EMPTY
    requires outC !in fs0 && outN !in fs0 && Str(outC) !in nvs
    ensures MergeVideos(cvs, nvs, outC, outN, outA, fs0, cfg).Ok?
    ensures MergeVideos(cvs, nvs, outC, outN, outA, fs0, cfg).value.3 ==
      Apply(ItemsWritten(cvs, nvs, outC, outN, fs0), outA, Then(Expected(cvs, fs0), Expected(nvs, fs0)))
  {
    ItemsPasses(cvs, nvs, outC, outN, fs0, cfg);
    var fs2 := ItemsWritten(cvs, nvs, outC, outN, fs0);
    RecordedExpected(cvs, nvs, outC, outN, fs0, fs2);
    var inputs := CombinedInputs(Some(if cvs == [] then EMPTY else outC), Some(if nvs == [] then EMPTY else outN), fs2).value;
    SequentialPass(inputs, outA, fs2, cfg);
  }

  /** With the sequential strategy, a positive batch size and fresh, distinct
      output paths, both ways of merging everything leave the same files:
      the conversation clips followed by the new-word clips at `outA`. */
  lemma MergeAllStrategiesAgree(cvs: seq<Json>, nvs: seq<Json>, outC: Path, outN: Path, outA: Path,
                                fs0: FileSystem, cfg: MergeConfig)
    requires !cfg.useV2Merge && cfg.batchSize >= 1
    requires outC != outN && outC != [] && outN != [] && outC != EMPTY && outN != EMPTY
    requires outC !in fs0 && outN !in fs0
    requires Str(outC) !in cvs + nvs && Str(outN) !in cvs + nvs
    ensures MergeVideos(cvs, nvs, outC, outN, outA, fs0, cfg.(useV2MergeAll := false)).Ok?
    ensures MergeVideos(cvs, nvs, outC, outN, outA, fs0, cfg.(useV2MergeAll := true)).Ok?
    ensures MergeVideos(cvs, nvs, outC, outN, outA, fs0, cfg.(useV2MergeAll := false)).value.3 ==
            MergeVideos(cvs, nvs, outC, outN, outA, fs0, cfg.(useV2MergeAll := true)).value.3
    ensures var fs := MergeVideos(cvs, nvs, outC, outN, outA, fs0, cfg.(useV2MergeAll := false)).value.3;
      Expected(cvs + nvs, fs0).Wrote? ==> outA in fs && fs[outA] == LoadedContent(cvs, fs0) + LoadedContent(nvs, fs0)
  {
    assert Str(outC) !in nvs;
    MergeAllAgain(cvs, nvs, outC, outN, outA, fs0, cfg.(useV2MergeAll := false));
    MergeAllRecorded(cvs, nvs, outC, outN, outA, fs0, cfg.(useV2MergeAll := true));
    ExpectedAppend(cvs, nvs, fs0);
    LoadedContentAppend(cvs, nvs, fs0);
  }
}
