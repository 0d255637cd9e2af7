/** The product image uploader (components/product-image-upload.tsx): checks
    each selected file, uploads the accepted ones to the asset host one at a
    time, appends what comes back, and tells the page through
    `onImagesChange`. The host is a script of upload results, one per
    upload; `None` (or an exhausted script) is a failed upload. Every list
    handed to `onImagesChange` is logged in `notified`. */
module ImageUpload {
  import opened Common
  import opened Http

  const MaxSize: nat := 5 * 1024 * 1024

  datatype File = File(mime: string, size: nat)

  /** The two checks a file must pass before it is uploaded. */
  predicate Accepted(f: File) {
    StartsWith(f.mime, "image/") && f.size <= MaxSize
  }

  /** The uploader's state as the handler sees it. */
  datatype Uploader = Uploader(
    images: seq<ImageData>,
    notified: seq<seq<ImageData>>,
    script: seq<Option<ImageData>>,
    uploads: nat,
    failed: bool)

  /** The next upload result; an exhausted script fails. */
  function NextUpload(u: Uploader): Option<ImageData> {
    if u.script == [] then None else u.script[0]
  }

  function Rest<T>(s: seq<T>): seq<T> {
    if s == [] then [] else s[1..]
  }

  /** The loop of `handleFileSelect` over the remaining files
      (components/product-image-upload.tsx:33-90). `start` is the image list
      as it was when the handler began: the list each notification carries is
      built from it, not from the images appended since. */
  function Run(start: seq<ImageData>, files: seq<File>, u: Uploader): Uploader
    decreases |files|
  {
    if files == [] then u
    else if !Accepted(files[0]) then Run(start, files[1..], u)
    else
      var next := NextUpload(u);
      var u1 := u.(script := Rest(u.script), uploads := u.uploads + 1);
      if next.None? then u1.(failed := true)
      else Run(start, files[1..], u1.(images := u1.images + [next.value], notified := u1.notified + [start + [next.value]]))
  }

  // ---------------------------------------------------------------------------
  // Properties

  /** A file of the wrong type or over 5 MiB is skipped without an upload and
      the files after it are still processed. */
  lemma RejectedFileIsSkipped(start: seq<ImageData>, f: File, rest: seq<File>, u: Uploader)
    requires !Accepted(f)
    ensures Run(start, [f] + rest, u) == Run(start, rest, u)
  {
    assert ([f] + rest)[1..] == rest;
  }

  /** Exactly 5 MiB is accepted, one byte more is not, and anything whose type
      does not start with "image/" is rejected. */
  lemma SizeLimitIsInclusive(mime: string)
    ensures StartsWith(mime, "image/") ==> Accepted(File(mime, 5 * 1024 * 1024))
    ensures !Accepted(File(mime, 5 * 1024 * 1024 + 1))
    ensures !StartsWith(mime, "image/") ==> forall size :: !Accepted(File(mime, size))
  {
  }

  /** A failed upload stops the loop at once: the remaining files are not
      uploaded and the images appended so far stay. */
  lemma FailureAbortsTheRest(start: seq<ImageData>, f: File, rest: seq<File>, u: Uploader)
    requires Accepted(f) && NextUpload(u).None?
    ensures Run(start, [f] + rest, u) == u.(script := Rest(u.script), uploads := u.uploads + 1, failed := true)
  {
  }

  /** The log and the images stay in step: the images list only grows at the
      end, and the `k`-th notification since `base` is `start` plus the `k`-th
      image appended since then. */
  predicate InStep(start: seq<ImageData>, base: seq<ImageData>, u: Uploader) {
    && |base| <= |u.images| && u.images[..|base|] == base
    && |u.notified| == |u.images| - |base|
    && forall k :: 0 <= k < |u.notified| ==> u.notified[k] == start + [u.images[|base| + k]]
  }

  lemma {:induction false} RunKeepsInStep(start: seq<ImageData>, base: seq<ImageData>, files: seq<File>, u: Uploader)
    requires InStep(start, base, u)
    ensures InStep(start, base, Run(start, files, u))
    ensures |Run(start, files, u).images| - |u.images| == |Run(start, files, u).notified| - |u.notified|
    ensures |u.images| <= |Run(start, files, u).images| && Run(start, files, u).images[..|u.images|] == u.images
    decreases |files|
  {
    if files != [] {
      if !Accepted(files[0]) {
        RunKeepsInStep(start, base, files[1..], u);
      } else if NextUpload(u).Some? {
        var img := NextUpload(u).value;
        var u2 := u.(script := Rest(u.script), uploads := u.uploads + 1,
                     images := u.images + [img], notified := u.notified + [start + [img]]);
        assert u2.images[..|base|] == base by {
          assert u2.images[..|base|] == u.images[..|base|];
        }
        assert InStep(start, base, u2);
        RunKeepsInStep(start, base, files[1..], u2);
        var r := Run(start, files[1..], u2);
        assert r.images[..|u.images|] == u2.images[..|u.images|];
      }
    }
  }

  /** Every notification of one run is the handler-start list plus one image,
      in upload order, with appended images at the end of `images`. */
  lemma NotificationsUseTheStartList(start: seq<ImageData>, files: seq<File>, script: seq<Option<ImageData>>)
    ensures var r := Run(start, files, Uploader(start, [], script, 0, false));
      && |r.images| >= |start| && r.images[..|start|] == start
      && |r.notified| == |r.images| - |start|
      && forall k :: 0 <= k < |r.notified| ==> r.notified[k] == start + [r.images[|start| + k]]
  {
    RunKeepsInStep(start, start, files, Uploader(start, [], script, 0, false));
  }

  /** `AcceptedCount(files)`: how many files pass the checks. */
  function AcceptedCount(files: seq<File>): (k: nat)
    ensures k <= |files|
  {
    if files == [] then 0 else Bit(Accepted(files[0])) + AcceptedCount(files[1..])
  }

  /** Without a failure each accepted file is uploaded once and appended; a
      failure means fewer uploads than accepted files, or the last one. */
  lemma {:induction false} UploadsMatchAcceptedFiles(start: seq<ImageData>, files: seq<File>, u: Uploader)
    requires !u.failed
    ensures var r := Run(start, files, u);
      && (!r.failed ==> r.uploads == u.uploads + AcceptedCount(files) && |r.images| == |u.images| + AcceptedCount(files))
      && (r.failed ==> r.uploads <= u.uploads + AcceptedCount(files))
    decreases |files|
  {
    if files != [] {
      var u1 := u.(script := Rest(u.script), uploads := u.uploads + 1);
      if !Accepted(files[0]) {
        UploadsMatchAcceptedFiles(start, files[1..], u);
      } else if NextUpload(u).Some? {
        var img := NextUpload(u).value;
        UploadsMatchAcceptedFiles(start, files[1..], u1.(images := u1.images + [img], notified := u1.notified + [start + [img]]));
      }
    }
  }

  // ---------------------------------------------------------------------------
  // The component over mutable state

  class ProductImageUpload {
    var images: seq<ImageData>
    var previews: seq<string>
    var isUploading: bool
    var notified: seq<seq<ImageData>>
    var script: seq<Option<ImageData>>
    var uploads: nat

    function Snapshot(failed: bool): Uploader
      reads this
    {
      Uploader(images, notified, script, uploads, failed)
    }

    constructor (script: seq<Option<ImageData>>)
      ensures images == [] && previews == [] && !isUploading && notified == []
      ensures this.script == script && uploads == 0
    {
      images, previews, isUploading, notified := [], [], false, [];
      this.script, uploads := script, 0;
    }

    /** `handleFileSelect`. For a file list, returns whether the loop ran to
        the end, so that the success toast shows rather than the failure
        toast. A missing file list returns at once with `true` and shows no
        toast at all. */
    method HandleFileSelect(files: Option<seq<File>>) returns (succeeded: bool)
      modifies this
      ensures files.None? ==> Snapshot(false) == old(Snapshot(false)) && isUploading == old(isUploading) && succeeded
      ensures files.Some? ==> Snapshot(!succeeded) == Run(old(images), files.value, old(Snapshot(false))) && !isUploading
      ensures previews == old(previews)
    {
      if files.None? {
        return true;
      }
      isUploading := true;
      var start := images;
      var list := files.value;
      var i := 0;
      succeeded := true;
      while i < |list|
        invariant 0 <= i <= |list|
        invariant Run(start, list, old(Snapshot(false))) == Run(start, list[i..], Snapshot(false))
        invariant previews == old(previews)
        modifies this
      {
        var file := list[i];
        assert list[i..][1..] == list[i + 1..];
        if !StartsWith(file.mime, "image/") {
          i := i + 1;
          continue;
        }
        if file.size > MaxSize {
          i := i + 1;
          continue;
        }
        var next := if script == [] then None else script[0];
        script := Rest(script);
        uploads := uploads + 1;
        if next.None? {
          succeeded := false;
          break;
        }
        images := images + [next.value];
        notified := notified + [start + [next.value]];
        i := i + 1;
      }
      isUploading := false;
    }

    /** `removeImage(index)` (components/product-image-upload.tsx:113-119). */
    method RemoveImage(index: int)
      modifies this
      ensures images == RemoveAt(old(images), index) && previews == RemoveAt(old(previews), index)
      ensures notified == old(notified) + [images]
      ensures isUploading == old(isUploading) && script == old(script) && uploads == old(uploads)
    {
      var newImages := RemoveAt(images, index);
      var newPreviews := RemoveAt(previews, index);
      images := newImages;
      previews := newPreviews;
      notified := notified + [newImages];
    }
  }

  /** Removing an index drops that image alone and keeps the rest in order;
      an index out of range removes nothing. */
  lemma RemoveAtKeepsOrder(images: seq<ImageData>, index: int)
    ensures 0 <= index < |images| ==>
              |RemoveAt(images, index)| == |images| - 1
              && (forall i :: 0 <= i < index ==> RemoveAt(images, index)[i] == images[i])
              && (forall i :: index <= i < |images| - 1 ==> RemoveAt(images, index)[i] == images[i + 1])
    ensures !(0 <= index < |images|) ==> RemoveAt(images, index) == images
  {
  }
}
