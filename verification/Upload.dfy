/** Multipart upload of a backup to object storage (internal/backup/store.go). */
module Upload {
  import opened Envelope

  // How the source ends: cleanly, with io.ErrUnexpectedEOF, or with any other error.
  datatype SourceEnd = Clean | UnexpectedEnd | Broken

  datatype ReadError = NoError | EndOfFile | Short | Other

  // io.ReadFull into a buffer of `size` bytes, from a source that holds `rest` and then ends.
  function ReadFull(rest: bytes, size: nat, end: SourceEnd): (bytes, ReadError) {
    if |rest| >= size then (rest[..size], NoError)
    else
      match end
      case Clean => (rest, if rest == [] then EndOfFile else Short)
      case UnexpectedEnd => (rest, Short)
      case Broken => (rest, Other)
  }

  function Concat(parts: seq<bytes>): bytes {
    if parts == [] then [] else Concat(parts[..|parts| - 1]) + parts[|parts| - 1]
  }

  /** The object store. Any call may fail, and then has no effect; `faults` says which. */
  class Bucket {
    var objects: map<string, bytes>
    // Parts uploaded so far, by upload; parts are numbered from 1 in the order they were accepted.
    var uploads: map<nat, map<int, bytes>>
    var nextUpload: nat
    var faults: seq<bool>
    // How many calls have failed so far.
    ghost var failed: nat

    ghost predicate Valid()
      reads this
    {
      forall u :: u in uploads ==> u < nextUpload
    }

    method Fault() returns (err: bool)
      modifies this`faults, this`failed
      ensures failed == old(failed) + (if err then 1 else 0) && (old(faults) == [] ==> faults == [] && !err)
    {
      err := false;
      if faults != [] {
        err := faults[0];
        faults := faults[1..];
      }
      if err {
        failed := failed + 1;
      }
    }

    method PutObject(key: string, body: bytes) returns (err: bool)
      requires Valid()
      modifies this`objects, this`faults, this`failed
      ensures Valid() && objects == if err then old(objects) else old(objects)[key := body]
      ensures failed == old(failed) + (if err then 1 else 0) && (old(faults) == [] ==> faults == [] && !err)
    {
      err := Fault();
      if !err {
        objects := objects[key := body];
      }
    }

    method CreateMultipartUpload() returns (err: bool, id: nat)
      requires Valid()
      modifies this`uploads, this`nextUpload, this`faults, this`failed
      ensures Valid()
      ensures if err then uploads == old(uploads) else id !in old(uploads) && uploads == old(uploads)[id := map[]]
      ensures failed == old(failed) + (if err then 1 else 0) && (old(faults) == [] ==> faults == [] && !err)
    {
      err := Fault();
      id := nextUpload;
      if !err {
        uploads := uploads[id := map[]];
        nextUpload := nextUpload + 1;
      }
    }

    method UploadPart(id: nat, num: int, body: bytes) returns (err: bool)
      requires Valid() && id in uploads
      modifies this`uploads, this`faults, this`failed
      ensures Valid() && uploads == if err then old(uploads) else old(uploads)[id := old(uploads)[id][num := body]]
      ensures failed == old(failed) + (if err then 1 else 0) && (old(faults) == [] ==> faults == [] && !err)
    {
      err := Fault();
      if !err {
        uploads := uploads[id := uploads[id][num := body]];
      }
    }

    // The object becomes the listed parts, in the order listed.
    method CompleteMultipartUpload(key: string, id: nat, parts: seq<int>) returns (err: bool)
      requires Valid() && id in uploads
      requires forall i :: 0 <= i < |parts| ==> parts[i] in uploads[id]
      modifies this`objects, this`uploads, this`faults, this`failed
      ensures Valid()
      ensures objects == if err then old(objects) else old(objects)[key := Concat(Listed(old(uploads)[id], parts))]
      ensures uploads == if err then old(uploads) else old(uploads) - {id}
      ensures failed == old(failed) + (if err then 1 else 0) && (old(faults) == [] ==> faults == [] && !err)
    {
      err := Fault();
      if !err {
        objects := objects[key := Concat(Listed(uploads[id], parts))];
        uploads := uploads - {id};
      }
    }

    method AbortMultipartUpload(id: nat)
      requires Valid()
      modifies this`uploads, this`faults, this`failed
      ensures Valid() && (uploads == old(uploads) || uploads == old(uploads) - {id})
      ensures failed >= old(failed) && (failed == old(failed) ==> uploads == old(uploads) - {id})
      ensures old(faults) == [] ==> faults == [] && failed == old(failed)
    {
      var err := Fault();
      if !err {
        uploads := uploads - {id};
      }
    }
  }

  function Listed(parts: map<int, bytes>, nums: seq<int>): seq<bytes>
    requires forall i :: 0 <= i < |nums| ==> nums[i] in parts
  {
    seq(|nums|, i requires 0 <= i < |nums| => parts[nums[i]])
  }

  // Every part but the last is full; the last is not empty, except after an unexpected end on a part boundary.
  ghost predicate WellCut(parts: seq<bytes>, size: nat, end: SourceEnd) {
    && parts != []
    && (forall i :: 0 <= i < |parts| - 1 ==> |parts[i]| == size)
    && |parts[|parts| - 1]| <= size
    && (end == Clean ==> parts[|parts| - 1] != [])
  }

  lemma {:induction false} ConcatGrows(parts: seq<bytes>, part: bytes)
    ensures Concat(parts + [part]) == Concat(parts) + part
  {
    assert (parts + [part])[..|parts|] == parts;
  }

  lemma Regroup(a: bytes, b: bytes, k: nat)
    requires k <= |b|
    ensures a + b[..k] + b[k..] == a + b
  {
    assert b[..k] + b[k..] == b;
  }

  datatype Report = Report(ok: bool, size: nat, nums: seq<int>, parts: seq<bytes>)

  // What the store holds of an unfinished upload: parts 1..k.
  ghost predicate Holds(stored: map<int, bytes>, parts: seq<bytes>) {
    forall n :: 1 <= n <= |parts| ==> n in stored && stored[n] == parts[n - 1]
  }

  ghost predicate Numbered(nums: seq<int>, parts: seq<bytes>) {
    |nums| == |parts| && forall i :: 0 <= i < |nums| ==> nums[i] == i + 1
  }

  ghost predicate AllFull(parts: seq<bytes>, size: nat) {
    forall i :: 0 <= i < |parts| ==> |parts[i]| == size
  }

  // One more part after the full ones before it.
  lemma PartJoins(stored: map<int, bytes>, nums: seq<int>, parts: seq<bytes>, part: bytes, size: nat, end: SourceEnd)
    requires Holds(stored, parts) && Numbered(nums, parts) && AllFull(parts, size)
    ensures Holds(stored[|parts| + 1 := part], parts + [part]) && Numbered(nums + [|parts| + 1], parts + [part])
    ensures |part| == size ==> AllFull(parts + [part], size)
    ensures |part| <= size && (end == Clean ==> part != []) ==> WellCut(parts + [part], size, end)
  {
    hide Concat;
  }

  lemma ListedAll(stored: map<int, bytes>, nums: seq<int>, parts: seq<bytes>)
    requires Holds(stored, parts) && Numbered(nums, parts)
    ensures forall i :: 0 <= i < |nums| ==> nums[i] in stored
    ensures Listed(stored, nums) == parts
  {
  }

  // The multipart loop, from the first full part `buf` on.
  method PutParts(s3: Bucket, id: nat, first: bytes, src: bytes, end: SourceEnd, part: nat)
    returns (ok: bool, nums: seq<int>, parts: seq<bytes>, total: nat)
    requires s3.Valid() && part > 0 && id in s3.uploads && s3.uploads[id] == map[]
    requires |first| == part && first <= src
    modifies s3`uploads, s3`faults, s3`failed
    ensures s3.Valid() && id in s3.uploads && s3.uploads - {id} == old(s3.uploads) - {id}
    ensures s3.failed >= old(s3.failed) && (old(s3.faults) == [] ==> s3.faults == [] && s3.failed == old(s3.failed))
    ensures ok <==> end != Broken && s3.failed == old(s3.failed)
    ensures ok ==> && end != Broken && Holds(s3.uploads[id], parts) && Numbered(nums, parts)
                   && WellCut(parts, part, end) && Concat(parts) == src && total == |src|
  {
    var buf, err := first, NoError;
    var rest := src[part..];
    nums, parts, total := [], [], 0;
    assert Concat(parts) + buf + rest == src;
    while true
      invariant s3.Valid() && id in s3.uploads && s3.uploads - {id} == old(s3.uploads) - {id}
      invariant s3.failed == old(s3.failed) && (old(s3.faults) == [] ==> s3.faults == [])
      invariant Holds(s3.uploads[id], parts) && Numbered(nums, parts) && AllFull(parts, part)
      invariant total == |Concat(parts)| && Concat(parts) + buf + rest == src
      invariant err == NoError || err == Short
      invariant if err == NoError then |buf| == part else end != Broken && rest == [] && |buf| < part && (end == Clean ==> buf != [])
      decreases |rest|, if err == NoError then 1 else 0
    {
      hide Concat, Holds, Numbered, AllFull, WellCut;
      PartJoins(s3.uploads[id], nums, parts, buf, part, end);
      ConcatGrows(parts, buf);
      var uerr := s3.UploadPart(id, |parts| + 1, buf);
      if uerr {
        ok := false;
        return;
      }
      nums := nums + [|parts| + 1];
      parts := parts + [buf];
      total := total + |buf|;
      if err != NoError {
        ok := true;
        return;
      }
      var next := ReadFull(rest, part, end);
      buf, err := next.0, next.1;
      if err == EndOfFile {
        ok := true;
        return;
      }
      if err != NoError && err != Short {
        ok := false;
        return;
      }
      Regroup(Concat(parts), rest, |buf|);
      rest := rest[|buf|..];
    }
  }

  /**
   Streams the source to key. On success the object is exactly the bytes of the source; on failure no
   object is created or replaced. The upload succeeds exactly when no call fails and the source does not
   break with an error other than io.ErrUnexpectedEOF, which is taken for the end of the data.
   */
  method PutStream(s3: Bucket, key: string, src: bytes, end: SourceEnd, part: nat) returns (r: Report)
    requires s3.Valid() && part > 0
    modifies s3
    ensures s3.Valid()
    ensures r.ok ==> end != Broken && r.size == |src| && s3.objects == old(s3.objects)[key := src]
    ensures !r.ok ==> s3.objects == old(s3.objects)
    ensures s3.failed >= old(s3.failed) && (old(s3.faults) == [] ==> s3.failed == old(s3.failed))
    ensures r.ok <==> end != Broken && s3.failed == old(s3.failed)
    ensures s3.failed == old(s3.failed) ==> s3.uploads == old(s3.uploads)
    ensures r.ok && |src| >= part ==> WellCut(r.parts, part, end) && Concat(r.parts) == src && Numbered(r.nums, r.parts)
    ensures r.ok && |src| < part ==> r.parts == [src]
  {
    var (buf, err) := ReadFull(src, part, end);
    if err == EndOfFile || err == Short {
      var perr := s3.PutObject(key, buf);
      return if perr then Report(false, 0, [], []) else Report(true, |buf|, [], [buf]);
    }
    if err != NoError {
      return Report(false, 0, [], []);
    }
    var cerr, id := s3.CreateMultipartUpload();
    if cerr {
      return Report(false, 0, [], []);
    }
    assert s3.uploads - {id} == old(s3.uploads);
    hide Concat, Holds, Numbered, AllFull, WellCut;
    var ok, nums, parts, total := PutParts(s3, id, buf, src, end, part);
    if !ok {
      s3.AbortMultipartUpload(id);
      return Report(false, 0, [], []);
    }
    ListedAll(s3.uploads[id], nums, parts);
    var ferr := s3.CompleteMultipartUpload(key, id, nums);
    if ferr {
      s3.AbortMultipartUpload(id);
      return Report(false, 0, [], []);
    }
    return Report(true, total, nums, parts);
  }
}
