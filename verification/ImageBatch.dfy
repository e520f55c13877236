// Image batches: the manifest, its chunks of at most five, the finalizer that binds downloads to
// ids over any number of runs, and the envelope of the whole batch.
module ImageBatch {
  import opened Rows

  /** An item as it was parsed: `clean` when it has only an id and a nonblank prompt. */
  datatype Item = Item(id: string, clean: bool)

  // ------------------------------------------------------------------ the manifest

  const LONG_S: char := '\U{17F}'
  const KELVIN: char := '\U{212A}'

  /** `[a-z0-9]` without regard to case: Unicode folds two more characters to s and k. */
  predicate Alphanumeric(c: char) {
    'a' <= c <= 'z' || 'A' <= c <= 'Z' || '0' <= c <= '9' || c == LONG_S || c == KELVIN
  }

  predicate SafeId(id: string) {
    && 1 <= |id| <= 80 && Alphanumeric(id[0])
    && forall i :: 0 <= i < |id| ==> Alphanumeric(id[i]) || id[i] == '_' || id[i] == '-'
  }

  /** `toLowerCase` of an id: the long s is lower case already. */
  function Lower(id: string): (l: string)
    ensures |l| == |id|
  {
    if id == "" then ""
    else [if 'A' <= id[0] <= 'Z' then (id[0] as int + 32) as char else if id[0] == KELVIN then 'k' else id[0]] + Lower(id[1..])
  }

  /** An id of 1 to 80 letters, digits, underscores and hyphens that starts with neither of these two, by code points. */
  lemma SafeIdIff(id: string)
    ensures SafeId(id) <==>
              && 1 <= |id| <= 80 && id[0] != '_' && id[0] != '-'
              && forall i :: 0 <= i < |id| ==>
                   var code := id[i] as int;
                   48 <= code <= 57 || 65 <= code <= 90 || 97 <= code <= 122 || code == 45 || code == 95 || code == 0x17F || code == 0x212A
  {
  }

  /** Of the characters an id may have, the 26 capitals and the Kelvin sign are lowered, and nothing else is. */
  lemma {:induction false} LowerIs(id: string, i: nat)
    requires i < |id|
    ensures var code, lower := id[i] as int, Lower(id)[i] as int;
            lower == if 65 <= code <= 90 then code + 32 else if code == 0x212A then 107 else code
  {
    if i > 0 {
      LowerIs(id[1..], i - 1);
    }
  }

  predicate DistinctIds(ids: seq<string>) {
    forall i, j :: 0 <= i < j < |ids| ==> Lower(ids[i]) != Lower(ids[j])
  }

  ghost predicate Accepted(items: seq<Item>) {
    && items != [] && (forall i :: 0 <= i < |items| ==> items[i].clean && SafeId(items[i].id))
    && (forall i, j :: 0 <= i < j < |items| ==> Lower(items[i].id) != Lower(items[j].id))
  }

  /** Accepted exactly when there are items and each is clean, with a safe id that no earlier one has in any case. */
  method ParseImageManifest(items: seq<Item>) returns (ids: Option<seq<string>>)
    ensures ids.Some? <==> Accepted(items)
    ensures ids.Some? ==>
              && |ids.value| == |items| && (forall i :: 0 <= i < |items| ==> ids.value[i] == items[i].id)
              && DistinctIds(ids.value) && Ids(ids.value) && ids.value != []
  {
    if items == [] {
      return None;
    }
    var seen: set<string> := {};
    var images: seq<string> := [];
    for n := 0 to |items|
      invariant |images| == n && forall i :: 0 <= i < n ==> images[i] == items[i].id && items[i].clean && SafeId(images[i])
      invariant forall lower :: lower in seen <==> exists i :: 0 <= i < n && Lower(items[i].id) == lower
      invariant DistinctIds(images)
    {
      var item := items[n];
      if !item.clean || !SafeId(item.id) || Lower(item.id) in seen {
        return None;
      }
      seen := seen + {Lower(item.id)};
      images := images + [item.id];
    }
    SafeIdsAreIds(images);
    return Some(images);
  }

  // ------------------------------------------------------------------ chunks

  const IMAGE_CHUNK_SIZE: nat := 5

  function Concat(chunks: seq<seq<string>>): seq<string> {
    if chunks == [] then [] else Concat(chunks[..|chunks| - 1]) + chunks[|chunks| - 1]
  }

  /** Slices of five in order: together they are the manifest, and only the last may be shorter. */
  method SplitImageChunks(ids: seq<string>) returns (chunks: seq<seq<string>>)
    ensures Concat(chunks) == ids
    ensures forall i :: 0 <= i < |chunks| ==> 1 <= |chunks[i]| <= 5 && (i < |chunks| - 1 ==> |chunks[i]| == 5)
    ensures ids != [] ==> chunks != []
  {
    chunks := [];
    var index := 0;
    while index < |ids|
      invariant Concat(chunks) == ids[..if index <= |ids| then index else |ids|]
      invariant forall i :: 0 <= i < |chunks| ==> 1 <= |chunks[i]| <= 5 && (i < |chunks| - 1 || index < |ids| ==> |chunks[i]| == 5)
      invariant index > 0 ==> chunks != []
    {
      var end := if index + IMAGE_CHUNK_SIZE <= |ids| then index + IMAGE_CHUNK_SIZE else |ids|;
      var chunk := ids[index..end];
      assert (chunks + [chunk])[..|chunks|] == chunks;
      chunks := chunks + [chunk];
      index := index + IMAGE_CHUNK_SIZE;
    }
  }

  // ------------------------------------------------------------------ artifacts

  predicate NoDot(id: string) {
    '.' !in id
  }

  function FileName(id: string, extension: string): string {
    id + "." + extension
  }

  /** `filename.startsWith(id + ".")` */
  predicate Belongs(filename: string, id: string) {
    id + "." <= filename
  }

  /** A file belongs to one id only, because ids have no dots. */
  lemma OwnerIsUnique(filename: string, a: string, b: string)
    requires NoDot(a) && NoDot(b) && Belongs(filename, a) && Belongs(filename, b)
    ensures a == b
  {
    assert (a + ".")[|a|] == '.' && (b + ".")[|b|] == '.';
    assert filename[|a|] == '.' && filename[|b|] == '.';
    assert |a| == |b|;
    assert a == filename[..|a|] == b;
  }

  lemma OwnFileBelongs(id: string, extension: string)
    ensures Belongs(FileName(id, extension), id)
  {
  }

  predicate Ids(ids: seq<string>) {
    && (forall i :: 0 <= i < |ids| ==> NoDot(ids[i]))
    && (forall i, j :: 0 <= i < j < |ids| ==> ids[i] != ids[j])
  }

  lemma SafeIdsAreIds(ids: seq<string>)
    requires DistinctIds(ids) && forall i :: 0 <= i < |ids| ==> SafeId(ids[i])
    ensures Ids(ids)
  {
  }

  predicate HasFile(files: set<string>, id: string) {
    exists file :: file in files && Belongs(file, id)
  }

  /** Every file was stored for one of the ids, and no id has two. */
  ghost predicate Bound(ids: seq<string>, files: set<string>) {
    && (forall file :: file in files ==> exists i, extension :: 0 <= i < |ids| && file == FileName(ids[i], extension))
    && (forall a, b, i :: a in files && b in files && 0 <= i < |ids| && Belongs(a, ids[i]) && Belongs(b, ids[i]) ==> a == b)
  }

  lemma StoreKeepsBound(ids: seq<string>, files: set<string>, n: nat, extension: string)
    requires Ids(ids) && Bound(ids, files) && n < |ids| && !HasFile(files, ids[n])
    ensures Bound(ids, files + {FileName(ids[n], extension)})
    ensures HasFile(files + {FileName(ids[n], extension)}, ids[n])
  {
    var file := FileName(ids[n], extension);
    OwnFileBelongs(ids[n], extension);
    forall i | 0 <= i < |ids| && Belongs(file, ids[i]) ensures i == n {
      OwnerIsUnique(file, ids[i], ids[n]);
    }
  }

  // ------------------------------------------------------------------ the finalizer

  /** Up to two downloads of one image; the second only after the first failed. */
  method Download() returns (extension: Option<string>)
    ensures extension.Some? ==> extension.value in {"png", "jpg", "webp"}
  {
    var attempt := 1;
    extension := None;
    while attempt <= 2 && extension.None?
      invariant extension.Some? ==> extension.value in {"png", "jpg", "webp"}
    {
      var outcome: Option<string> := *;
      if outcome == Some("png") || outcome == Some("jpg") || outcome == Some("webp") {
        extension := outcome;
      }
      attempt := attempt + 1;
    }
  }

  /**
   * One run over the download controls of an answer. It may stop anywhere and be resumed: files are only added,
   * each for an id that had none, and the request completes only when every id has its file.
   */
  method Finalize(ids: seq<string>, controls: nat, stored: set<string>) returns (files: set<string>, complete: bool)
    requires Ids(ids) && Bound(ids, stored)
    ensures Bound(ids, files) && stored <= files
    ensures complete ==> |files| == |ids| && forall i :: 0 <= i < |ids| ==> HasFile(files, ids[i])
    ensures !complete ==> controls != |ids| || |files| != |ids| || exists i :: 0 <= i < |ids| && !HasFile(files, ids[i])
  {
    hide Ids, Bound;
    files := stored;
    var failed := false;
    if controls == |ids| {
      var index := 0;
      while index < |ids| && !failed
        invariant 0 <= index <= |ids| && Bound(ids, files) && stored <= files
        invariant forall i :: 0 <= i < index ==> HasFile(files, ids[i])
        invariant failed ==> controls == |ids| && index < |ids| && !HasFile(files, ids[index])
        decreases |ids| - index, !failed
      {
        if HasFile(files, ids[index]) {
          index := index + 1;
          continue;
        }
        var extension := Download();
        if extension.Some? {
          StoreKeepsBound(ids, files, index, extension.value);
          ghost var before := files;
          files := files + {FileName(ids[index], extension.value)};
          forall i | 0 <= i < index ensures HasFile(files, ids[i]) {
            var file :| file in before && Belongs(file, ids[i]);
            assert file in files;
          }
          index := index + 1;
        } else {
          failed := true;
        }
      }
    }
    complete := controls == |ids| && |files| == |ids| && !failed;
    assert failed ==> exists i :: 0 <= i < |ids| && !HasFile(files, ids[i]);
  }

  // ------------------------------------------------------------------ what complete means

  ghost predicate SoleFile(files: set<string>, id: string, file: string) {
    file in files && Belongs(file, id) && forall other :: other in files && Belongs(other, id) ==> other == file
  }

  ghost predicate SoleOwner(ids: seq<string>, file: string, i: nat) {
    i < |ids| && Belongs(file, ids[i]) && forall j :: 0 <= j < |ids| && Belongs(file, ids[j]) ==> j == i
  }

  ghost predicate HasSoleFile(files: set<string>, id: string) {
    exists file :: SoleFile(files, id, file)
  }

  ghost predicate HasSoleOwner(ids: seq<string>, file: string) {
    exists i: nat :: SoleOwner(ids, file, i)
  }

  /** Each id has exactly one file and each file exactly one id. */
  ghost predicate Bijection(ids: seq<string>, files: set<string>) {
    && (forall i :: 0 <= i < |ids| ==> HasSoleFile(files, ids[i]))
    && (forall file :: file in files ==> HasSoleOwner(ids, file))
  }

  lemma FileOfId(ids: seq<string>, files: set<string>, i: nat) returns (file: string)
    requires Bound(ids, files) && i < |ids| && HasFile(files, ids[i])
    ensures SoleFile(files, ids[i], file)
  {
    file :| file in files && Belongs(file, ids[i]);
  }

  lemma OwnerOfFile(ids: seq<string>, files: set<string>, file: string) returns (i: nat)
    requires Ids(ids) && Bound(ids, files) && file in files
    ensures SoleOwner(ids, file, i)
  {
    var n, extension :| 0 <= n < |ids| && file == FileName(ids[n], extension);
    i := n;
    OwnFileBelongs(ids[i], extension);
    forall j | 0 <= j < |ids| && Belongs(file, ids[j]) ensures j == i {
      OwnerIsUnique(file, ids[i], ids[j]);
    }
  }

  lemma CompleteIsBijection(ids: seq<string>, files: set<string>)
    requires Ids(ids) && Bound(ids, files) && forall i :: 0 <= i < |ids| ==> HasFile(files, ids[i])
    ensures Bijection(ids, files)
  {
    hide Ids, Bound, HasFile, SoleFile, SoleOwner;
    forall i | 0 <= i < |ids| ensures HasSoleFile(files, ids[i]) {
      var file := FileOfId(ids, files, i);
    }
    forall file | file in files ensures HasSoleOwner(ids, file) {
      var i := OwnerOfFile(ids, files, file);
    }
  }

  lemma BijectionHasFiles(ids: seq<string>, files: set<string>)
    requires Bijection(ids, files)
    ensures forall i :: 0 <= i < |ids| ==> HasFile(files, ids[i])
  {
    forall i | 0 <= i < |ids| ensures HasFile(files, ids[i]) {
      assert HasSoleFile(files, ids[i]);
      var file :| SoleFile(files, ids[i], file);
    }
  }

  datatype Chunk = Chunk(ids: seq<string>, files: set<string>, complete: bool)

  ghost predicate ChunkOk(chunk: Chunk) {
    && Ids(chunk.ids) && Bound(chunk.ids, chunk.files)
    && (chunk.complete ==> Bijection(chunk.ids, chunk.files))
  }

  /** Any number of runs, each with its own number of controls, as far as the first that completes. */
  method RunFinalizer(chunk: Chunk, runs: seq<nat>) returns (after: Chunk)
    requires ChunkOk(chunk)
    ensures ChunkOk(after) && after.ids == chunk.ids && chunk.files <= after.files
  {
    hide Ids, Bound, Bijection, HasFile;
    after := chunk;
    for n := 0 to |runs|
      invariant ChunkOk(after) && after.ids == chunk.ids && chunk.files <= after.files
    {
      if after.complete {
        break;
      }
      var files, complete := Finalize(after.ids, runs[n], after.files);
      if complete {
        CompleteIsBijection(after.ids, files);
      }
      after := Chunk(after.ids, files, complete);
    }
  }

  // ------------------------------------------------------------------ the batch

  function IdsOf(chunks: seq<Chunk>): seq<seq<string>> {
    if chunks == [] then [] else IdsOf(chunks[..|chunks| - 1]) + [chunks[|chunks| - 1].ids]
  }

  /** The ids that have a file, in their order. */
  function WithFile(ids: seq<string>, files: set<string>): seq<string> {
    if ids == [] then []
    else
      var id := ids[|ids| - 1];
      WithFile(ids[..|ids| - 1], files) + (if HasFile(files, id) then [id] else [])
  }

  function Listed(chunks: seq<Chunk>): seq<string> {
    if chunks == [] then []
    else
      var chunk := chunks[|chunks| - 1];
      Listed(chunks[..|chunks| - 1]) + WithFile(chunk.ids, chunk.files)
  }

  lemma {:induction false} WithFileMeans(ids: seq<string>, files: set<string>)
    ensures forall id :: id in WithFile(ids, files) <==> id in ids && HasFile(files, id)
    ensures (forall i :: 0 <= i < |ids| ==> HasFile(files, ids[i])) ==> WithFile(ids, files) == ids
  {
    hide HasFile;
    if ids != [] {
      var n := |ids| - 1;
      WithFileMeans(ids[..n], files);
      assert ids == ids[..n] + [ids[n]];
    }
  }

  /** The parts of `whole` at increasing places. */
  predicate Picks(part: seq<string>, whole: seq<string>, at: seq<nat>) {
    && |at| == |part| && (forall k :: 0 <= k < |at| ==> at[k] < |whole| && part[k] == whole[at[k]])
    && forall j, k :: 0 <= j < k < |at| ==> at[j] < at[k]
  }

  lemma PicksMore(a: seq<string>, b: seq<string>, at: seq<nat>, c: seq<string>, d: seq<string>, ct: seq<nat>)
    returns (both: seq<nat>)
    requires Picks(a, b, at) && Picks(c, d, ct)
    ensures Picks(a + c, b + d, both)
  {
    both := at + seq(|ct|, k requires 0 <= k < |ct| => |b| + ct[k]);
  }

  lemma {:induction false} WithFileInOrder(ids: seq<string>, files: set<string>) returns (at: seq<nat>)
    ensures Picks(WithFile(ids, files), ids, at)
  {
    at := [];
    if ids != [] {
      hide HasFile, Picks;
      var n := |ids| - 1;
      at := WithFileInOrder(ids[..n], files);
      var last: seq<nat> := if HasFile(files, ids[n]) then [0] else [];
      PicksLast(if HasFile(files, ids[n]) then [ids[n]] else [], ids[n], last);
      at := PicksMore(WithFile(ids[..n], files), ids[..n], at, if HasFile(files, ids[n]) then [ids[n]] else [], [ids[n]], last);
      assert ids == ids[..n] + [ids[n]];
    }
  }

  lemma PicksLast(part: seq<string>, id: string, at: seq<nat>)
    requires (part == [] && at == []) || (part == [id] && at == [0])
    ensures Picks(part, [id], at)
  {
  }

  /** What the envelope lists keeps the order of the manifest, whatever is missing. */
  lemma {:induction false} ListedInOrder(chunks: seq<Chunk>) returns (at: seq<nat>)
    ensures var listed, manifest := Listed(chunks), Concat(IdsOf(chunks));
            && |at| == |listed| && (forall k :: 0 <= k < |at| ==> at[k] < |manifest| && listed[k] == manifest[at[k]])
            && forall j, k :: 0 <= j < k < |at| ==> at[j] < at[k]
  {
    at := [];
    if chunks != [] {
      var n := |chunks| - 1;
      var chunk := chunks[n];
      at := ListedInOrder(chunks[..n]);
      var more := WithFileInOrder(chunk.ids, chunk.files);
      assert Picks(Listed(chunks[..n]), Concat(IdsOf(chunks[..n])), at);
      at := PicksMore(Listed(chunks[..n]), Concat(IdsOf(chunks[..n])), at, WithFile(chunk.ids, chunk.files), chunk.ids, more);
      assert chunks == chunks[..n] + [chunk];
      OneChunkMore(chunks[..n], chunk);
    }
  }

  /** Exactly the ids with a file are listed. */
  lemma {:induction false} ListedMeans(chunks: seq<Chunk>)
    ensures forall id :: id in Listed(chunks) <==> exists i :: 0 <= i < |chunks| && id in chunks[i].ids && HasFile(chunks[i].files, id)
  {
    hide HasFile, WithFile;
    if chunks != [] {
      var n := |chunks| - 1;
      ListedMeans(chunks[..n]);
      WithFileMeans(chunks[n].ids, chunks[n].files);
    }
  }

  lemma CompleteListsAll(chunk: Chunk)
    requires ChunkOk(chunk) && chunk.complete
    ensures WithFile(chunk.ids, chunk.files) == chunk.ids
  {
    BijectionHasFiles(chunk.ids, chunk.files);
    WithFileMeans(chunk.ids, chunk.files);
  }

  lemma WithFileMore(ids: seq<string>, n: nat, files: set<string>)
    requires n < |ids|
    ensures WithFile(ids[..n + 1], files) == WithFile(ids[..n], files) + (if HasFile(files, ids[n]) then [ids[n]] else [])
  {
    assert ids[..n + 1][..n] == ids[..n];
  }

  /** The artifacts of one chunk in the order of its ids: the ids that have a file. */
  method ChunkArtifacts(chunk: Chunk) returns (promptIds: seq<string>)
    requires ChunkOk(chunk)
    ensures promptIds == WithFile(chunk.ids, chunk.files)
    ensures chunk.complete ==> promptIds == chunk.ids
  {
    hide ChunkOk, HasFile, WithFile;
    if chunk.complete {
      CompleteListsAll(chunk);
    }
    promptIds := [];
    assert WithFile([], chunk.files) == [] by {
      NothingListed(chunk.files);
    }
    assert chunk.ids[..0] == [];
    for n := 0 to |chunk.ids|
      invariant promptIds == WithFile(chunk.ids[..n], chunk.files)
    {
      WithFileMore(chunk.ids, n, chunk.files);
      if HasFile(chunk.files, chunk.ids[n]) {
        promptIds := promptIds + [chunk.ids[n]];
      }
    }
    assert chunk.ids[..|chunk.ids|] == chunk.ids;
  }

  lemma NothingListed(files: set<string>)
    ensures WithFile([], files) == []
  {
  }

  /** The chunks of a batch: each as its runs left it, and together the manifest. */
  ghost predicate BatchOk(chunks: seq<Chunk>, manifest: seq<string>) {
    (forall i :: 0 <= i < |chunks| ==> ChunkOk(chunks[i])) && Concat(IdsOf(chunks)) == manifest
  }

  predicate AllComplete(chunks: seq<Chunk>) {
    forall i :: 0 <= i < |chunks| ==> chunks[i].complete
  }

  /** The envelope: complete when every chunk is, and then its artifacts are the manifest's ids in manifest order. */
  method Envelope(chunks: seq<Chunk>, ghost manifest: seq<string>) returns (complete: bool, promptIds: seq<string>)
    requires BatchOk(chunks, manifest)
    ensures complete <==> AllComplete(chunks)
    ensures complete ==> promptIds == manifest
    ensures promptIds == Listed(chunks)
    ensures forall id :: id in promptIds <==>
              exists i :: 0 <= i < |chunks| && id in chunks[i].ids && HasFile(chunks[i].files, id)
  {
    ListedMeans(chunks);
    assert Concat(IdsOf([])) == [] && AllComplete([]);
    hide ChunkOk, Concat, IdsOf, AllComplete, HasFile, WithFile;
    complete, promptIds := true, [];
    assert chunks[..0] == [];
    for n := 0 to |chunks|
      invariant complete <==> AllComplete(chunks[..n])
      invariant complete ==> promptIds == Concat(IdsOf(chunks[..n]))
      invariant promptIds == Listed(chunks[..n])
    {
      var artifacts := ChunkArtifacts(chunks[n]);
      promptIds := promptIds + artifacts;
      complete := complete && chunks[n].complete;
      assert chunks[..n + 1] == chunks[..n] + [chunks[n]] && chunks[..n + 1][..n] == chunks[..n];
      OneChunkMore(chunks[..n], chunks[n]);
    }
    assert chunks[..|chunks|] == chunks;
  }

  lemma OneChunkMore(chunks: seq<Chunk>, chunk: Chunk)
    ensures IdsOf(chunks + [chunk]) == IdsOf(chunks) + [chunk.ids]
    ensures Concat(IdsOf(chunks + [chunk])) == Concat(IdsOf(chunks)) + chunk.ids
    ensures AllComplete(chunks + [chunk]) <==> AllComplete(chunks) && chunk.complete
  {
    assert (chunks + [chunk])[..|chunks|] == chunks;
    assert (IdsOf(chunks) + [chunk.ids])[..|IdsOf(chunks)|] == IdsOf(chunks);
    assert forall i :: 0 <= i < |chunks| ==> (chunks + [chunk])[i] == chunks[i];
  }

  lemma {:induction false} IdsOfIs(chunks: seq<Chunk>, ids: seq<seq<string>>)
    requires |chunks| == |ids| && forall i :: 0 <= i < |ids| ==> chunks[i].ids == ids[i]
    ensures IdsOf(chunks) == ids
  {
    if chunks != [] {
      var n := |chunks| - 1;
      IdsOfIs(chunks[..n], ids[..n]);
      assert ids == ids[..n] + [ids[n]];
    }
  }

  lemma {:induction false} IdsOfEach(chunks: seq<Chunk>)
    ensures |IdsOf(chunks)| == |chunks| && forall i :: 0 <= i < |chunks| ==> IdsOf(chunks)[i] == chunks[i].ids
  {
    if chunks != [] {
      IdsOfEach(chunks[..|chunks| - 1]);
    }
  }

  /** The parts of a list of ids are lists of ids. */
  lemma {:induction false} PartsAreIds(parts: seq<seq<string>>, i: nat)
    requires Ids(Concat(parts)) && i < |parts|
    ensures Ids(parts[i])
  {
    var n := |parts| - 1;
    var before, last, whole := Concat(parts[..n]), parts[n], Concat(parts);
    if i == n {
      assert forall k :: 0 <= k < |last| ==> last[k] == whole[|before| + k];
    } else {
      assert forall k :: 0 <= k < |before| ==> before[k] == whole[k];
      PartsAreIds(parts[..n], i);
    }
  }

  /** A chunk that has new results keeps its place in the batch. */
  lemma ReplacedChunk(chunks: seq<Chunk>, manifest: seq<string>, n: nat, chunk: Chunk)
    requires BatchOk(chunks, manifest) && n < |chunks| && ChunkOk(chunk) && chunk.ids == chunks[n].ids
    ensures BatchOk(chunks[n := chunk], manifest)
  {
    hide ChunkOk;
    IdsOfEach(chunks);
    IdsOfIs(chunks[n := chunk], IdsOf(chunks));
  }

  /** A manifest cut into chunks is a batch without files. */
  method NewBatch(ids: seq<string>) returns (chunks: seq<Chunk>)
    requires Ids(ids)
    ensures BatchOk(chunks, ids) && (ids != [] ==> chunks != [])
  {
    hide Ids, Bijection;
    var parts := SplitImageChunks(ids);
    chunks := [];
    for n := 0 to |parts|
      invariant |chunks| == n && forall i :: 0 <= i < n ==> ChunkOk(chunks[i]) && chunks[i].ids == parts[i]
    {
      PartsAreIds(parts, n);
      chunks := chunks + [Chunk(parts[n], {}, false)];
    }
    IdsOfIs(chunks, parts);
  }

  /**
   * One invocation: the chunks in order, each with any number of runs of the finalizer, as far as the deadline or
   * the first chunk that is not complete.
   */
  method ResumeImageBatch(chunks: seq<Chunk>, ghost manifest: seq<string>)
    returns (after: seq<Chunk>, complete: bool, promptIds: seq<string>)
    requires BatchOk(chunks, manifest)
    ensures BatchOk(after, manifest) && |after| == |chunks|
    ensures forall i :: 0 <= i < |chunks| ==> after[i].ids == chunks[i].ids && chunks[i].files <= after[i].files
    ensures complete <==> AllComplete(after)
    ensures complete ==> promptIds == manifest
  {
    hide Concat, IdsOf, Ids, Bijection, Bound, AllComplete;
    after := chunks;
    for n := 0 to |chunks|
      invariant BatchOk(after, manifest) && |after| == |chunks|
      invariant forall i :: 0 <= i < |chunks| ==> after[i].ids == chunks[i].ids && chunks[i].files <= after[i].files
    {
      if after[n].complete {
        continue;
      }
      var late: bool := *;
      if late {
        break;
      }
      var runs: seq<nat> := *;
      var chunk := RunFinalizer(after[n], runs);
      ReplacedChunk(after, manifest, n, chunk);
      after := after[n := chunk];
      if !chunk.complete {
        break;
      }
    }
    complete, promptIds := Envelope(after, manifest);
  }

  /**
   * A whole batch, from the manifest over any number of invocations: whenever its envelope says complete, its
   * artifact ids are the ids of the manifest in order. None when the manifest is rejected.
   */
  method RunImageBatch(items: seq<Item>, invocations: nat) returns (complete: Option<bool>, promptIds: seq<string>)
    ensures complete == Some(true) ==>
              |promptIds| == |items| && forall i :: 0 <= i < |items| ==> promptIds[i] == items[i].id
    ensures complete.None? <==> !Accepted(items)
  {
    hide BatchOk, Ids, AllComplete;
    var ids := ParseImageManifest(items);
    if ids.None? {
      return None, [];
    }
    var chunks := NewBatch(ids.value);
    complete, promptIds := Some(false), [];
    for n := 0 to invocations
      invariant BatchOk(chunks, ids.value) && complete.Some? && (complete.value ==> promptIds == ids.value)
    {
      var done;
      chunks, done, promptIds := ResumeImageBatch(chunks, ids.value);
      complete := Some(done);
    }
  }
}
