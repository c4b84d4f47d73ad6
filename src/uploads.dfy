/** Image uploads: the size pipe, and the size limit, extension filter and
    stored file name of the disk storage. */
module Uploads {
  import opened Common

  /** Five mebibytes, the limit of both the pipe and the storage. */
  const MaxSize: nat := 5 * 1024 * 1024

  const TooLarge: string := "File size exceeds the maximum limit of 5MB"
  const NotAnImage: string := "Only .jpg, .jpeg, and .png files are allowed"
  const UploadDir: string := "./uploads"

  /** The extensions the filter lets through, compared with case. */
  const Allowed: set<string> := {".jpg", ".jpeg", ".png"}

  /** The uploaded file as the pipe sees it; `size` may be absent. */
  datatype Upload = Upload(originalname: string, size: Option<nat>)

  /** The size pipe: the message it throws, or `None` when it passes the value
      on. A missing file or a missing size passes. */
  function SizeCheck(value: Option<Upload>): (r: Option<string>)
    ensures r.Some? <==> value.Some? && value.value.size.Some? && value.value.size.value > MaxSize
    ensures r.Some? ==> r.value == TooLarge
  {
    if value.Some? && value.value.size.Some? && value.value.size.value > MaxSize then Some(TooLarge) else None
  }

  /** The storage's own limit: a file of more than `MaxSize` bytes is cut off and refused. */
  predicate WithinLimit(size: nat) {
    size <= MaxSize
  }

  /** The pipe and the storage limit agree on every known size, and a file of
      exactly five mebibytes passes both. */
  lemma PipeAgreesWithLimit(name: string, size: nat)
    ensures SizeCheck(Some(Upload(name, Some(size)))).None? <==> WithinLimit(size)
    ensures SizeCheck(Some(Upload(name, Some(MaxSize)))).None? && WithinLimit(MaxSize)
    ensures SizeCheck(Some(Upload(name, Some(MaxSize + 1)))).Some? && !WithinLimit(MaxSize + 1)
  {
  }

  /** `path` without its trailing slashes. */
  function StripTrailing(path: string): (r: string)
    ensures r <= path
    ensures |r| == 0 || r[|r| - 1] != '/'
    ensures forall i :: |r| <= i < |path| ==> path[i] == '/'
  {
    if |path| > 0 && path[|path| - 1] == '/' then StripTrailing(path[..|path| - 1]) else path
  }

  /** The part of `path` after its last slash. */
  function Segment(path: string): (r: string)
    ensures |r| <= |path| && r == path[|path| - |r|..]
    ensures forall i :: 0 <= i < |r| ==> r[i] != '/'
    ensures |r| < |path| ==> path[|path| - |r| - 1] == '/'
  {
    if |path| == 0 || path[|path| - 1] == '/' then "" else Segment(path[..|path| - 1]) + [path[|path| - 1]]
  }

  /** The position of the last dot of `s`. */
  function LastDot(s: string): (r: Option<nat>)
    ensures r.None? <==> forall i :: 0 <= i < |s| ==> s[i] != '.'
    ensures r.Some? ==> r.value < |s| && s[r.value] == '.' && forall j :: r.value < j < |s| ==> s[j] != '.'
  {
    if |s| == 0 then None
    else if s[|s| - 1] == '.' then Some(|s| - 1)
    else LastDot(s[..|s| - 1])
  }

  /** The last dot is the one with no dot after it. */
  lemma LastDotAt(s: string, p: nat)
    requires p < |s| && s[p] == '.' && forall j :: p < j < |s| ==> s[j] != '.'
    ensures LastDot(s) == Some(p)
  {
  }

  /** The extension of a final path segment: from its last dot on, unless the
      segment has no dot, starts with its only dot, or is `..`. */
  function SegmentExt(seg: string): (r: string)
    ensures r == "" || (r[0] == '.' && |r| <= |seg| && seg[|seg| - |r|..] == r)
    ensures forall i :: 1 <= i < |r| ==> r[i] != '.'
  {
    match LastDot(seg)
    case None => ""
    case Some(i) => if i == 0 || seg == ".." then "" else seg[i..]
  }

  /** `path.extname` of the POSIX path module. */
  function Extname(path: string): (r: string)
    ensures r == "" || r[0] == '.'
    ensures forall i :: 1 <= i < |r| ==> r[i] != '.' && r[i] != '/'
  {
    SegmentExt(Segment(StripTrailing(path)))
  }

  /** A segment without slashes is its own last segment. */
  lemma {:induction false} NoSlashSegment(s: string)
    requires forall i :: 0 <= i < |s| ==> s[i] != '/'
    ensures Segment(s) == s
  {
    if |s| > 0 {
      NoSlashSegment(s[..|s| - 1]);
      assert s[..|s| - 1] + [s[|s| - 1]] == s;
    }
  }

  /** A name without slashes is a single segment. */
  lemma PlainName(s: string)
    requires forall i :: 0 <= i < |s| ==> s[i] != '/'
    ensures Extname(s) == SegmentExt(s)
  {
    assert |s| == 0 || s[|s| - 1] != '/';
    assert StripTrailing(s) == s;
    NoSlashSegment(s);
  }

  /** A name made of a plain stem and an extension has that extension. */
  lemma ExtnameJoin(stem: string, ext: string)
    requires |stem| > 0 && forall i :: 0 <= i < |stem| ==> stem[i] != '/' && stem[i] != '.'
    requires ext == "" || ext[0] == '.'
    requires forall i :: 1 <= i < |ext| ==> ext[i] != '.' && ext[i] != '/'
    ensures Extname(stem + ext) == ext
  {
    JoinHasNoSlash(stem, ext);
    PlainName(stem + ext);
    JoinSegmentExt(stem, ext);
  }

  lemma JoinHasNoSlash(stem: string, ext: string)
    requires forall i :: 0 <= i < |stem| ==> stem[i] != '/'
    requires ext == "" || ext[0] == '.'
    requires forall i :: 1 <= i < |ext| ==> ext[i] != '/'
    ensures forall i :: 0 <= i < |stem + ext| ==> (stem + ext)[i] != '/'
  {
    var s := stem + ext;
    assert forall j :: |stem| <= j < |s| ==> s[j] == ext[j - |stem|];
  }

  lemma JoinSegmentExt(stem: string, ext: string)
    requires |stem| > 0 && forall i :: 0 <= i < |stem| ==> stem[i] != '.'
    requires ext == "" || ext[0] == '.'
    requires forall i :: 1 <= i < |ext| ==> ext[i] != '.'
    ensures SegmentExt(stem + ext) == ext
  {
    var s := stem + ext;
    if ext == "" {
      assert s == stem;
      assert LastDot(s).None?;
    } else {
      assert s[|stem|] == '.';
      assert forall j :: |stem| < j < |s| ==> s[j] == ext[j - |stem|];
      LastDotAt(s, |stem|);
      assert s[0] != '.';
      assert s[|stem|..] == ext;
    }
  }

  /** The last dot counts: a stem may hold dots of its own, as in `a.tar.png`. */
  lemma ExtnameLastDot(stem: string, ext: string)
    requires |stem| > 0 && forall i :: 0 <= i < |stem| ==> stem[i] != '/'
    requires |ext| >= 2 && ext[0] == '.'
    requires forall i :: 1 <= i < |ext| ==> ext[i] != '.' && ext[i] != '/'
    ensures Extname(stem + ext) == ext
  {
    var s := stem + ext;
    assert forall j :: |stem| <= j < |s| ==> s[j] == ext[j - |stem|];
    PlainName(s);
    LastDotAt(s, |stem|);
    assert |s| > 2;
    assert s[|stem|..] == ext;
  }

  /** A leading dot is no extension: a file named `.png` has none. */
  lemma ExtnameLeadingDot(tail: string)
    requires forall i :: 0 <= i < |tail| ==> tail[i] != '.' && tail[i] != '/'
    ensures Extname("." + tail) == ""
  {
    var s := "." + tail;
    assert forall j :: 1 <= j < |s| ==> s[j] == tail[j - 1];
    PlainName(s);
    LastDotAt(s, 0);
  }

  /** Trailing slashes are ignored. */
  lemma ExtnameTrailingSlash(name: string)
    ensures Extname(name + "/") == Extname(name)
  {
    assert (name + "/")[..|name|] == name;
  }

  /** The storage filter: the message it refuses with, or `None` when the
      file is accepted. */
  function FileFilter(originalname: string): (r: Option<string>)
    ensures r.None? <==> Extname(originalname) in Allowed
    ensures r.Some? ==> r.value == NotAnImage
  {
    if Extname(originalname) !in Allowed then Some(NotAnImage) else None
  }

  /** A plain stem with an extension is accepted exactly when the extension is
      allowed; the comparison keeps case, so `.PNG` is refused. */
  lemma FilterOnExtension(stem: string, ext: string)
    requires |stem| > 0 && forall i :: 0 <= i < |stem| ==> stem[i] != '/' && stem[i] != '.'
    requires ext == "" || ext[0] == '.'
    requires forall i :: 1 <= i < |ext| ==> ext[i] != '.' && ext[i] != '/'
    ensures FileFilter(stem + ext).None? <==> ext in Allowed
  {
    ExtnameJoin(stem, ext);
  }

  /** The stored name: the clock in milliseconds, a dash, a random number and
      the original extension. */
  function StoredName(now: nat, random: nat, originalname: string): (r: string)
    ensures Show(now) + "-" <= r
    ensures |Extname(originalname)| <= |r| && r[|r| - |Extname(originalname)|..] == Extname(originalname)
  {
    Show(now) + "-" + Show(random) + Extname(originalname)
  }

  /** The stored name keeps the extension of the original, so a file the
      filter accepted is stored under an accepted name. */
  lemma StoredNameKeepsExtension(now: nat, random: nat, originalname: string)
    ensures Extname(StoredName(now, random, originalname)) == Extname(originalname)
    ensures FileFilter(originalname).None? ==> FileFilter(StoredName(now, random, originalname)).None?
  {
    var stem := Show(now) + "-" + Show(random);
    ShowDigits(now);
    ShowDigits(random);
    assert forall i :: 0 <= i < |stem| ==> stem[i] != '/' && stem[i] != '.' by {
      forall i | 0 <= i < |stem|
        ensures stem[i] != '/' && stem[i] != '.'
      {
        if i < |Show(now)| {
          assert stem[i] == Show(now)[i];
        } else if i > |Show(now)| {
          assert stem[i] == Show(random)[i - |Show(now)| - 1];
        }
      }
    }
    ExtnameJoin(stem, Extname(originalname));
    assert StoredName(now, random, originalname) == stem + Extname(originalname);
  }
}
