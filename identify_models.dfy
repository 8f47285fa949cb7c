/** The records of `identify/models.py`: the upload record `ImagesPost`, the merge job
    `MergedImageModel`, the upload paths of the merge job's images, its two-phase `save`
    and the precondition and result write of `merge`.

    The database and the file storage are abstract: an underlying save appends a snapshot
    to `saves` and gives a new row the primary key the caller supplies; the file system is
    a predicate saying which paths exist. */
module IdentifyModels {
  import opened Common
  import MergeGeometry

  newtype byte = x: int | 0 <= x < 256

  type UserId = int

  /** A file field's value: its name and bytes, and whether it has been written to storage
      (Django's `_committed`). Uploaded files are not committed until the record is saved. */
  datatype Upload = Upload(name: string, content: seq<byte>, committed: bool)

  // ---------------------------------------------------------------------------
  // ImagesPost
  // ---------------------------------------------------------------------------

  /** One row of `ImagesPost`. The timestamps `created` and `modified` are not modelled. */
  datatype ImagesPost = ImagesPost(
    id: Option<int>,
    user: Option<UserId>,
    uploadImages: Option<Upload>,
    nation1: Option<string>,
    nation2: Option<string>,
    nation3: Option<string>,
    modifiedNation: Option<string>,
    timeConsuming: Option<string>,
    userAssess: Option<string>,
    userUpdate: Option<string>,
    userChange: Option<string>,
    userPropose: Option<string>)

  /** A new `ImagesPost` with every field at its declared default: no id, no user, no
      labels, and the four feedback fields at '未填写', '未修改', '否' and '未填写'. */
  function NewImagesPost(upload: Option<Upload>): (p: ImagesPost)
    ensures p.id.None? && p.user.None? && p.uploadImages == upload
    ensures p.nation1.None? && p.nation2.None? && p.nation3.None?
    ensures p.modifiedNation.None? && p.timeConsuming.None?
    ensures p.userAssess == Some("未填写") && p.userUpdate == Some("未修改")
    ensures p.userChange == Some("否") && p.userPropose == Some("未填写")
  {
    ImagesPost(None, None, upload, None, None, None, None, None,
               Some("未填写"), Some("未修改"), Some("否"), Some("未填写"))
  }

  /** Python's `f'{x}'` of an optional integer. */
  function IdText(id: Option<int>): (s: string)
    ensures id.None? ==> s == "None"
    ensures id.Some? ==> s == IntToString(id.value)
    ensures |s| >= 1 && '-' !in s[1..]
  {
    match id
    case None => "None"
    case Some(n) => IntToString(n)
  }

  /** `ImagesPost.__str__`: the id as text, "None" for a record not yet saved. */
  function ImagesPostStr(p: ImagesPost): (s: string)
    ensures p.id.None? ==> s == "None"
    ensures p.id.Some? ==> s == IntToString(p.id.value)
  {
    IdText(p.id)
  }

  /** An `ImagesPost` instance: its fields are updated in place and `save()` writes them. */
  class ImagesPostRecord {
    var row: ImagesPost
    /** The rows written by each `save()`, oldest first. */
    var saves: seq<ImagesPost>

    constructor (initial: ImagesPost)
      ensures row == initial && saves == []
    {
      row := initial;
      saves := [];
    }

    /** `save()`: the pre-save of `upload_images` first commits a pending upload under
        `upload_to`, and the record keeps the committed file; then the fields are written
        and an unsaved record receives the primary key `newId`. */
    method Save(newId: int)
      modifies this
      ensures saves == old(saves) + [StagedPost(old(row))]
      ensures row == StagedPost(old(row)).(id := if old(row).id.None? then Some(newId) else old(row).id)
    {
      row := StagedPost(row);
      saves := saves + [row];
      if row.id.None? {
        row := row.(id := Some(newId));
      }
    }
  }

  /** `upload_to='upload_images'`: the name a new upload is stored under. */
  function UploadImagesPath(name: string): (p: string)
    ensures p == Join("upload_images", name)
    ensures |name| > 0 && name[0] != '/' ==> p == "upload_images/" + name
  {
    Join("upload_images", name)
  }

  /** The row as `save()` writes it: a pending upload is committed under `upload_images/`,
      a committed one is kept, and every other field is unchanged. */
  function StagedPost(r: ImagesPost): (c: ImagesPost)
    ensures c == r.(uploadImages := c.uploadImages)
    ensures r.uploadImages.None? ==> c.uploadImages.None?
    ensures r.uploadImages.Some? && r.uploadImages.value.committed ==> c == r
    ensures r.uploadImages.Some? && !r.uploadImages.value.committed ==>
      c.uploadImages == Some(Upload(UploadImagesPath(r.uploadImages.value.name), r.uploadImages.value.content, true))
  {
    r.(uploadImages := CommitFile(r.uploadImages, UploadImagesPath))
  }

  /** Saving twice writes no new file: the second save stores the row the first one left. */
  lemma StagedPostIdempotent(r: ImagesPost)
    ensures StagedPost(StagedPost(r)) == StagedPost(r)
    ensures StagedPost(r).uploadImages.Some? ==> StagedPost(r).uploadImages.value.committed
  {
  }

  // ---------------------------------------------------------------------------
  // Upload paths of the merge job
  // ---------------------------------------------------------------------------

  /** The last index of `c` in `s`, or -1: Python's `str.rfind`. */
  function RFind(s: string, c: char): (i: int)
    ensures -1 <= i < |s|
    ensures i >= 0 ==> s[i] == c
    ensures forall j :: i < j < |s| ==> s[j] != c
  {
    if s == [] then -1
    else if s[|s| - 1] == c then |s| - 1
    else RFind(s[..|s| - 1], c)
  }

  /** Whether `s[from..to]` has a character other than '.'. */
  predicate HasNonDot(s: string, from: nat, to: nat)
    requires from <= to <= |s|
  {
    exists j :: from <= j < to && s[j] != '.'
  }

  /** `os.path.splitext(p)[1]` on POSIX: from the last '.' of the last path component,
      provided that component has something other than dots before it; otherwise empty. */
  function Ext(p: string): (e: string)
    ensures |e| <= |p| && e == p[|p| - |e|..]
    ensures e == "" || (e[0] == '.' && '.' !in e[1..] && '/' !in e)
  {
    var sep, dot := RFind(p, '/'), RFind(p, '.');
    if dot > sep && HasNonDot(p, sep + 1, dot) then p[dot..] else ""
  }

  /** A character other than '.' at `j` is one for every range that holds it. */
  lemma NonDotUpTo(p: string, j: nat, to: nat)
    requires j < to <= |p| && p[j] != '.'
    ensures forall from: nat :: from <= j ==> HasNonDot(p, from, to)
  {
  }

  /** A name has an extension exactly when its last path component has a '.' after some
      character other than '.'. */
  lemma ExtFound(p: string)
    ensures Ext(p) != "" <==>
      exists i, j :: 0 <= j < i < |p| && p[i] == '.' && p[j] != '.' && '/' !in p[j..]
  {
    var sep, dot := RFind(p, '/'), RFind(p, '.');
    if Ext(p) != "" {
      var j :| sep + 1 <= j < dot && p[j] != '.';
      assert '/' !in p[j..] by {
        forall k | 0 <= k < |p| - j
          ensures p[j..][k] != '/'
        {
          assert p[j..][k] == p[j + k];
        }
      }
      assert 0 <= j < dot < |p| && p[dot] == '.';
    } else {
      forall i, j | 0 <= j < i < |p| && p[i] == '.' && p[j] != '.'
        ensures '/' in p[j..]
      {
        assert j < dot;
        NonDotUpTo(p, j, dot);
        assert p[j..][sep - j] == '/';
      }
    }
  }

  /** A plain suffix is the extension. */
  lemma ExtOfPlainName()
    ensures Ext("photo.png") == ".png"
  {
    var p := "photo.png";
    assert p[5] == '.' && p[6..] == "png";
    assert RFind(p, '/') == -1 && RFind(p, '.') == 5;
    assert HasNonDot(p, 0, 5) by { assert p[0] != '.'; }
    assert p[5..] == ".png";
  }

  /** A leading dot does not start an extension. */
  lemma ExtOfHiddenName()
    ensures Ext(".bashrc") == ""
  {
    var p := ".bashrc";
    assert p[0] == '.' && '.' !in p[1..];
    assert RFind(p, '/') == -1 && RFind(p, '.') == 0;
  }

  /** Only the last suffix counts. */
  lemma ExtOfDoubleSuffix()
    ensures Ext("archive.tar.gz") == ".gz"
  {
    var p := "archive.tar.gz";
    assert p[11] == '.' && p[12..] == "gz";
    assert RFind(p, '/') == -1 && RFind(p, '.') == 11;
    assert HasNonDot(p, 0, 11) by { assert p[0] != '.'; }
    assert p[11..] == ".gz";
  }

  /** `os.path.join(settings.MEDIA_ROOT, 'merge-image', name)`. */
  function MergeImageFile(mediaRoot: string, name: string): string
  {
    Join(Join(mediaRoot, "merge-image"), name)
  }

  /** The upload paths of a merge job's images: `merged-{id}-{part}{ext}` in the
      merge-image directory, where `ext` is the extension of the uploaded name. */
  function MergedFilePath(mediaRoot: string, id: Option<int>, part: string, filename: string): (p: string)
    ensures var name := "merged-" + IdText(id) + "-" + part + Ext(filename);
      p == MergeImageFile(mediaRoot, name) && p[|p| - |name|..] == name
  {
    MergeImageFile(mediaRoot, "merged-" + IdText(id) + "-" + part + Ext(filename))
  }

  /** `_merge_image_person_1_head_image_path`. */
  function Head1Path(mediaRoot: string, id: Option<int>, filename: string): string
  {
    MergedFilePath(mediaRoot, id, "head-1", filename)
  }

  /** `_merge_image_person_2_head_image_path`. */
  function Head2Path(mediaRoot: string, id: Option<int>, filename: string): string
  {
    MergedFilePath(mediaRoot, id, "head-2", filename)
  }

  /** `_merge_image_person_merged_path`. */
  function ResultPath(mediaRoot: string, id: Option<int>, filename: string): string
  {
    MergedFilePath(mediaRoot, id, "merged", filename)
  }

  /** Joining onto one directory keeps distinct relative names distinct. */
  lemma JoinKeepsDistinct(dir: string, a: string, b: string)
    requires |a| > 0 && a[0] != '/' && |b| > 0 && b[0] != '/'
    requires a != b
    ensures Join(dir, a) != Join(dir, b)
  {
    var pre := if dir == "" || dir[|dir| - 1] == '/' then dir else dir + "/";
    assert Join(dir, a) == pre + a && Join(dir, b) == pre + b;
    assert (pre + a)[|pre|..] == a && (pre + b)[|pre|..] == b;
  }

  /** The three files of one merge job never share a path, whatever the uploaded names:
      they differ in the first letter after `merged-{id}-`, or in the digit of `head-N`. */
  lemma {:induction false} PathsDistinct(mediaRoot: string, id: Option<int>, f1: string, f2: string, f3: string)
    ensures Head1Path(mediaRoot, id, f1) != Head2Path(mediaRoot, id, f2)
    ensures Head1Path(mediaRoot, id, f1) != ResultPath(mediaRoot, id, f3)
    ensures Head2Path(mediaRoot, id, f2) != ResultPath(mediaRoot, id, f3)
  {
    var t := IdText(id);
    var n1 := "merged-" + t + "-" + "head-1" + Ext(f1);
    var n2 := "merged-" + t + "-" + "head-2" + Ext(f2);
    var n3 := "merged-" + t + "-" + "merged" + Ext(f3);
    var at := 7 + |t| + 1;
    assert n1[at] == 'h' && n2[at] == 'h' && n3[at] == 'm';
    assert n1[at + 5] == '1' && n2[at + 5] == '2';
    var dir := Join(mediaRoot, "merge-image");
    JoinKeepsDistinct(dir, n1, n2);
    JoinKeepsDistinct(dir, n1, n3);
    JoinKeepsDistinct(dir, n2, n3);
  }

  // ---------------------------------------------------------------------------
  // MergedImageModel
  // ---------------------------------------------------------------------------

  /** One row of `MergedImageModel`. The identification foreign keys are given as the rows
      they point to. */
  datatype MergedImage = MergedImage(
    id: Option<int>,
    user: Option<UserId>,
    person1: Option<ImagesPost>,
    head1: Option<Upload>,
    person2: Option<ImagesPost>,
    head2: Option<Upload>,
    background: Option<string>,
    result: Option<Upload>)

  /** A merge job created empty: every field null. */
  const EmptyMergedImage: MergedImage := MergedImage(None, None, None, None, None, None, None, None)

  /** `if not self.id`: no id, or the falsy id 0. */
  predicate IsNew(id: Option<int>)
  {
    id.None? || id == Some(0)
  }

  /** Django's pre-save of one file field: an uncommitted file is written under the name
      its `upload_to` function gives for the record as it is at that moment. */
  function CommitFile(u: Option<Upload>, path: string -> string): (c: Option<Upload>)
    ensures u.None? ==> c.None?
    ensures u.Some? && u.value.committed ==> c == u
    ensures u.Some? && !u.value.committed ==> c == Some(Upload(path(u.value.name), u.value.content, true))
  {
    match u
    case None => None
    case Some(f) => if f.committed then u else Some(Upload(path(f.name), f.content, true))
  }

  /** The row an underlying save writes: its three file fields committed under their upload paths. */
  function Committed(r: MergedImage, mediaRoot: string): (c: MergedImage)
    ensures c.id == r.id && c.user == r.user && c.background == r.background
    ensures c.person1 == r.person1 && c.person2 == r.person2
    ensures r.result.Some? && r.result.value.committed ==> c.result == r.result
  {
    r.(head1 := CommitFile(r.head1, name => Head1Path(mediaRoot, r.id, name)),
       head2 := CommitFile(r.head2, name => Head2Path(mediaRoot, r.id, name)),
       result := CommitFile(r.result, name => ResultPath(mediaRoot, r.id, name)))
  }

  /** `kwargs.get('force_insert', False) is True and kwargs.pop('force_insert')`: only the
      value True itself is removed, not another truthy value. */
  function DropForceInsert(kwargs: map<string, Json>): (k: map<string, Json>)
    ensures "force_insert" in kwargs && kwargs["force_insert"] == JBool(true) ==> k == kwargs - {"force_insert"}
    ensures !("force_insert" in kwargs && kwargs["force_insert"] == JBool(true)) ==> k == kwargs
  {
    if "force_insert" in kwargs && kwargs["force_insert"] == JBool(true) then kwargs - {"force_insert"} else kwargs
  }

  /** One call of the inherited `Model.save`: the row it wrote and the keyword arguments it got. */
  datatype SaveCall = SaveCall(written: MergedImage, kwargs: map<string, Json>)

  datatype MergeError =
    | ValueError      // a missing file, a file field without a file, or a background outside the whitelist
    | AttributeError  // an identification that is null
    | MergeFailed     // `merge_images` raised

  /** `.path` of a file field: the name under the media root; a field without a file raises ValueError. */
  function FilePath(u: Option<Upload>, mediaRoot: string): (r: Result<string, MergeError>)
    ensures r.Err? <==> (u.None? || u.value.name == "")
    ensures r.Err? ==> r.error == ValueError
    ensures r.Ok? ==> r.value == Join(mediaRoot, u.value.name)
  {
    if u.None? || u.value.name == "" then Err(ValueError) else Ok(Join(mediaRoot, u.value.name))
  }

  /** `upload_images.path` of an identification; a null identification raises AttributeError. */
  function ClothesPath(p: Option<ImagesPost>, mediaRoot: string): (r: Result<string, MergeError>)
    ensures p.None? ==> r == Err(AttributeError)
    ensures p.Some? ==> r == FilePath(p.value.uploadImages, mediaRoot)
  {
    match p
    case None => Err(AttributeError)
    case Some(post) => FilePath(post.uploadImages, mediaRoot)
  }

  /** The four paths `merge` hands to `merge_images` (clothes 1, head 1, clothes 2, head 2),
      read in the order of lines 109-110, and the error of the first one that fails. */
  function MergeInputs(r: MergedImage, mediaRoot: string): (res: Result<seq<string>, MergeError>)
    ensures res.Ok? ==> |res.value| == 4
    ensures res.Ok? <==>
      FilePath(r.head1, mediaRoot).Ok? && FilePath(r.head2, mediaRoot).Ok? &&
      ClothesPath(r.person1, mediaRoot).Ok? && ClothesPath(r.person2, mediaRoot).Ok?
    ensures res.Ok? ==> res.value == [ClothesPath(r.person1, mediaRoot).value, FilePath(r.head1, mediaRoot).value,
                                      ClothesPath(r.person2, mediaRoot).value, FilePath(r.head2, mediaRoot).value]
    ensures FilePath(r.head1, mediaRoot).Err? ==> res == Err(ValueError)
  {
    var head1 := FilePath(r.head1, mediaRoot);
    var head2 := FilePath(r.head2, mediaRoot);
    var clothes1 := ClothesPath(r.person1, mediaRoot);
    var clothes2 := ClothesPath(r.person2, mediaRoot);
    if head1.Err? then Err(head1.error)
    else if head2.Err? then Err(head2.error)
    else if clothes1.Err? then Err(clothes1.error)
    else if clothes2.Err? then Err(clothes2.error)
    else Ok([clothes1.value, head1.value, clothes2.value, head2.value])
  }

  /** The check of lines 112-116: all four files exist and the background is whitelisted. */
  predicate ReadyToMerge(r: MergedImage, mediaRoot: string, exists_: string -> bool)
  {
    && MergeInputs(r, mediaRoot).Ok?
    && (var files := MergeInputs(r, mediaRoot).value;
        exists_(files[0]) && exists_(files[1]) && exists_(files[2]) && exists_(files[3]))
    && r.background.Some?
    && MergeGeometry.IsWhitelisted(mediaRoot, r.background.value)
  }

  /** The row `MergedImageModel.save` leaves, lines 98-105. A new record is saved twice:
      first with both head images null, so that it receives its id, then with the images
      restored, so that their upload paths carry that id. A record that has an id is saved
      once, as it is. */
  function SavedRow(r: MergedImage, mediaRoot: string, newId: int): MergedImage
  {
    if IsNew(r.id) then
      var id' := if r.id.None? then Some(newId) else r.id;
      Committed(FirstWrite(r, mediaRoot).(id := id', head1 := r.head1, head2 := r.head2), mediaRoot)
    else Committed(r, mediaRoot)
  }

  /** The row the first of the two saves of a new record writes: the head images held back. */
  function FirstWrite(r: MergedImage, mediaRoot: string): MergedImage
  {
    Committed(r.(head1 := None, head2 := None), mediaRoot)
  }

  /** The calls of `Model.save` that `MergedImageModel.save` makes; `force_insert=True` is
      dropped before the second save of a new record. */
  function SaveCalls(r: MergedImage, mediaRoot: string, kwargs: map<string, Json>, newId: int): seq<SaveCall>
  {
    if IsNew(r.id) then [SaveCall(FirstWrite(r, mediaRoot), kwargs),
                         SaveCall(SavedRow(r, mediaRoot, newId), DropForceInsert(kwargs))]
    else [SaveCall(SavedRow(r, mediaRoot, newId), kwargs)]
  }

  /** A save changes no field but the id and the file fields, and keeps a file that is
      already stored. */
  lemma SavedRowKeeps(r: MergedImage, mediaRoot: string, newId: int)
    ensures var s := SavedRow(r, mediaRoot, newId);
      && s.user == r.user && s.background == r.background
      && s.person1 == r.person1 && s.person2 == r.person2
      && (r.result.Some? && r.result.value.committed ==> s.result == r.result)
      && (!IsNew(r.id) ==> s.id == r.id)
      && (r.id.None? ==> s.id == Some(newId))
  {
  }

  /** The head images of a record saved for the first time are stored under paths that
      carry its new id, not the missing one. */
  lemma SavedHeadsCarryId(r: MergedImage, mediaRoot: string, newId: int)
    requires r.id.None?
    ensures r.head1.Some? && !r.head1.value.committed ==>
      SavedRow(r, mediaRoot, newId).head1
        == Some(Upload(Head1Path(mediaRoot, Some(newId), r.head1.value.name), r.head1.value.content, true))
    ensures r.head2.Some? && !r.head2.value.committed ==>
      SavedRow(r, mediaRoot, newId).head2
        == Some(Upload(Head2Path(mediaRoot, Some(newId), r.head2.value.name), r.head2.value.content, true))
  {
  }

  /** A new record is written twice, the first time without head images and the second
      time with the keyword arguments less `force_insert=True`; a record with an id once. */
  lemma SaveCallsShape(r: MergedImage, mediaRoot: string, kwargs: map<string, Json>, newId: int)
    ensures var calls := SaveCalls(r, mediaRoot, kwargs, newId);
      && |calls| == (if IsNew(r.id) then 2 else 1)
      && calls[|calls| - 1].written == SavedRow(r, mediaRoot, newId)
      && (IsNew(r.id) ==>
            calls[0].written.head1.None? && calls[0].written.head2.None? && calls[0].kwargs == kwargs &&
            calls[1].kwargs == DropForceInsert(kwargs))
      && (!IsNew(r.id) ==> calls[0].kwargs == kwargs)
  {
  }

  /** A `MergedImageModel` instance. */
  class MergedImageRecord {
    const mediaRoot: string
    var row: MergedImage
    /** Every call of the inherited `Model.save`, oldest first. */
    var saves: seq<SaveCall>

    constructor (mediaRoot: string, initial: MergedImage)
      ensures this.mediaRoot == mediaRoot && row == initial && saves == []
    {
      this.mediaRoot := mediaRoot;
      row := initial;
      saves := [];
    }

    /** The inherited `Model.save`: commits the file fields, writes the row and gives an
        unsaved row the primary key `newId`. */
    method BaseSave(kwargs: map<string, Json>, newId: int)
      modifies this
      ensures saves == old(saves) + [SaveCall(Committed(old(row), mediaRoot), kwargs)]
      ensures row == Committed(old(row), mediaRoot).(id := if old(row).id.None? then Some(newId) else old(row).id)
    {
      row := Committed(row, mediaRoot);
      saves := saves + [SaveCall(row, kwargs)];
      if row.id.None? {
        row := row.(id := Some(newId));
      }
    }

    /** `MergedImageModel.save`, lines 98-105: the row and the calls of `Model.save` that
        `SavedRow` and `SaveCalls` describe. */
    method Save(kwargs: map<string, Json>, newId: int)
      modifies this
      ensures row == SavedRow(old(row), mediaRoot, newId)
      ensures saves == old(saves) + SaveCalls(old(row), mediaRoot, kwargs, newId)
    {
      var kw := kwargs;
      if IsNew(row.id) {
        var image1, image2 := row.head1, row.head2;
        row := row.(head1 := None, head2 := None);
        BaseSave(kw, newId);
        row := row.(head1 := image1, head2 := image2);
        kw := DropForceInsert(kw);
      }
      BaseSave(kw, newId);
    }

    /** `MergedImageModel.merge`, lines 107-125. Unless the four files exist and the
        background is whitelisted it raises and writes nothing. Otherwise `compose`
        (standing for `merge_images`) gets the four paths and the background name; the
        bytes it returns are stored as `image.png` under the job's result path, and the
        record is saved with `Save` and no keyword arguments. */
    method Merge(exists_: string -> bool, compose: (seq<string>, string) -> Option<seq<byte>>, newId: int)
      returns (r: Result<seq<byte>, MergeError>)
      modifies this
      ensures MergeInputs(old(row), mediaRoot).Err? ==>
        r == Err(MergeInputs(old(row), mediaRoot).error) && row == old(row) && saves == old(saves)
      ensures MergeInputs(old(row), mediaRoot).Ok? && !ReadyToMerge(old(row), mediaRoot, exists_) ==>
        r == Err(ValueError) && row == old(row) && saves == old(saves)
      ensures ReadyToMerge(old(row), mediaRoot, exists_) ==>
        var content := compose(MergeInputs(old(row), mediaRoot).value, old(row).background.value);
        && (content.None? ==> r == Err(MergeFailed) && row == old(row) && saves == old(saves))
        && (content.Some? ==>
              var stored := Upload(ResultPath(mediaRoot, old(row).id, "image.png"), content.value, true);
              var withResult := old(row).(result := Some(stored));
              && r == Ok(content.value)
              && row == SavedRow(withResult, mediaRoot, newId)
              && saves == old(saves) + SaveCalls(withResult, mediaRoot, map[], newId)
              && row.result == Some(stored))
    {
      var inputs := MergeInputs(row, mediaRoot);
      if inputs.Err? {
        return Err(inputs.error);
      }
      if !ReadyToMerge(row, mediaRoot, exists_) {
        return Err(ValueError);
      }
      var content := compose(inputs.value, row.background.value);
      if content.None? {
        return Err(MergeFailed);
      }
      SaveResultImage(content.value, newId);
      r := Ok(content.value);
    }

    /** `result_image.save('image.png', f)`, line 125: the file is stored under the name
        the field's `upload_to` gives for the record as it is, and the record is saved. */
    method SaveResultImage(content: seq<byte>, newId: int)
      modifies this
      ensures var stored := Upload(ResultPath(mediaRoot, old(row).id, "image.png"), content, true);
        var withResult := old(row).(result := Some(stored));
        && row == SavedRow(withResult, mediaRoot, newId)
        && saves == old(saves) + SaveCalls(withResult, mediaRoot, map[], newId)
        && row.result == Some(stored)
    {
      var stored := Upload(ResultPath(mediaRoot, row.id, "image.png"), content, true);
      row := row.(result := Some(stored));
      ghost var before := row;
      Save(map[], newId);
      SavedRowKeeps(before, mediaRoot, newId);
    }
  }
}
