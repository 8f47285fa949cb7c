/** The rules of `identify/viewsets.py`: which rows a requester sees, how a new upload is
    filled in, the two query-parameter actions on an upload, and the `travelled` listing of
    merge jobs that keeps the newest finished job per background.

    A table is a sequence of rows; DRF routing, `get_object`, serializers and pagination
    are not part of this model. */
module IdentifyViewsets {
  import opened Common
  import opened IdentifyModels

  /** `request.user`: an `AnonymousUser` or a logged-in user. */
  datatype Requester = Anonymous | Authenticated(user: UserId)

  datatype ViewError =
    | ValidationError(message: string)   // DRF's 400 for a missing query parameter
    | QueryError                         // the ORM refuses `filter(user=AnonymousUser)`

  /** The rows of `s` that `keep` accepts, in their order. */
  function Filter<T(!new)>(s: seq<T>, keep: T -> bool): (r: seq<T>)
    ensures |r| <= |s|
    ensures forall x :: x in r <==> x in s && keep(x)
  {
    if s == [] then []
    else if keep(s[0]) then [s[0]] + Filter(s[1..], keep)
    else Filter(s[1..], keep)
  }

  // ---------------------------------------------------------------------------
  // ImagesPostViewSet
  // ---------------------------------------------------------------------------

  /** Whether the requester owns the upload: anonymous uploads have a null user. */
  predicate OwnedBy(p: ImagesPost, who: Requester)
  {
    match who
    case Anonymous => p.user.None?
    case Authenticated(u) => p.user == Some(u)
  }

  /** `ImagesPostViewSet.get_queryset`: an anonymous requester sees exactly the uploads
      with a null user, a logged-in one exactly their own. */
  function VisiblePosts(posts: seq<ImagesPost>, who: Requester): (r: seq<ImagesPost>)
    ensures who.Anonymous? ==> forall p :: p in r <==> p in posts && p.user.None?
    ensures who.Authenticated? ==> forall p :: p in r <==> p in posts && p.user == Some(who.user)
  {
    Filter(posts, p => OwnedBy(p, who))
  }

  /** What `BatchRename().rename()` returns: three labels, the path the photo was moved to,
      and the time it took. */
  datatype Recognition = Recognition(nation1: string, nation2: string, nation3: string,
                                     dst: string, timeConsuming: string)

  /** `perform_create`, lines 45-63: the serializer creates the upload (the first save);
      then its user becomes null for an anonymous requester and the requester otherwise,
      its image is renamed to the recogniser's path relative to the media root, the three
      labels and the time are set in order, and it is saved again. `relpath` stands for
      `os.path.relpath`. */
  method PerformCreate(upload: Upload, who: Requester, rec: Recognition,
                       mediaRoot: string, relpath: (string, string) -> string, newId: int)
    returns (instance: ImagesPostRecord)
    ensures fresh(instance)
    ensures instance.row ==
      NewImagesPost(Some(upload)).(
        id := Some(newId),
        user := if who.Anonymous? then None else Some(who.user),
        uploadImages := Some(Upload(relpath(rec.dst, mediaRoot), upload.content, true)),
        nation1 := Some(rec.nation1), nation2 := Some(rec.nation2), nation3 := Some(rec.nation3),
        timeConsuming := Some(rec.timeConsuming))
    ensures |instance.saves| == 2
    ensures instance.saves[0] == NewImagesPost(Some(upload)).(uploadImages := instance.saves[0].uploadImages)
    ensures upload.committed ==> instance.saves[0].uploadImages == Some(upload)
    ensures !upload.committed ==>
      instance.saves[0].uploadImages == Some(Upload(UploadImagesPath(upload.name), upload.content, true))
    ensures instance.saves[1] == instance.row
  {
    instance := new ImagesPostRecord(NewImagesPost(Some(upload)));
    instance.Save(newId);
    instance.row := instance.row.(user := if who.Anonymous? then None else Some(who.user));
    instance.row := instance.row.(uploadImages := Some(Upload(relpath(rec.dst, mediaRoot), upload.content, true)));
    instance.row := instance.row.(nation1 := Some(rec.nation1));
    instance.row := instance.row.(nation2 := Some(rec.nation2));
    instance.row := instance.row.(nation3 := Some(rec.nation3));
    instance.row := instance.row.(timeConsuming := Some(rec.timeConsuming));
    instance.Save(newId);
  }

  /** `request.query_params[key]` on the query string's (key, value) pairs in order: the
      last value given for the key, or nothing (MultiValueDictKeyError) when it is absent. */
  function LastValue(query: seq<(string, string)>, key: string): (v: Option<string>)
    ensures v.None? <==> forall i :: 0 <= i < |query| ==> query[i].0 != key
    ensures v.Some? ==> exists i :: 0 <= i < |query| && query[i] == (key, v.value) &&
                                    forall j :: i < j < |query| ==> query[j].0 != key
  {
    LastValueBefore(query, key, |query|)
  }

  /** The last value for `key` among the first `n` pairs. */
  function LastValueBefore(query: seq<(string, string)>, key: string, n: nat): (v: Option<string>)
    requires n <= |query|
    ensures v.None? <==> forall i :: 0 <= i < n ==> query[i].0 != key
    ensures v.Some? ==> exists i :: 0 <= i < n && query[i] == (key, v.value) &&
                                    forall j :: i < j < n ==> query[j].0 != key
  {
    if n == 0 then None
    else if query[n - 1].0 == key then Some(query[n - 1].1)
    else LastValueBefore(query, key, n - 1)
  }

  /** `change_nation`, lines 66-85: without a `name` parameter it raises ValidationError
      and changes nothing; otherwise `modified_nation` becomes the parameter's value and
      the record is saved, which changes nothing else (`StagedPost` keeps a row whose file
      is already stored). */
  method ChangeNation(instance: ImagesPostRecord, query: seq<(string, string)>) returns (r: Result<ImagesPost, ViewError>)
    requires instance.row.id.Some?
    modifies instance
    ensures LastValue(query, "name").None? ==>
      r == Err(ValidationError("参数name不存在")) && instance.row == old(instance.row) && instance.saves == old(instance.saves)
    ensures LastValue(query, "name").Some? ==>
      && instance.row == StagedPost(old(instance.row)).(modifiedNation := LastValue(query, "name"))
      && instance.saves == old(instance.saves) + [instance.row]
      && r == Ok(instance.row)
  {
    var name := LastValue(query, "name");
    if name.None? {
      return Err(ValidationError("参数name不存在"));
    }
    instance.row := instance.row.(modifiedNation := name);
    instance.Save(0);
    r := Ok(instance.row);
  }

  /** `user_assess`, lines 87-98: the same rule for the `assess` parameter and the
      `user_assess` field (the error message still names `name`). */
  method UserAssess(instance: ImagesPostRecord, query: seq<(string, string)>) returns (r: Result<ImagesPost, ViewError>)
    requires instance.row.id.Some?
    modifies instance
    ensures LastValue(query, "assess").None? ==>
      r == Err(ValidationError("参数name不存在")) && instance.row == old(instance.row) && instance.saves == old(instance.saves)
    ensures LastValue(query, "assess").Some? ==>
      && instance.row == StagedPost(old(instance.row)).(userAssess := LastValue(query, "assess"))
      && instance.saves == old(instance.saves) + [instance.row]
      && r == Ok(instance.row)
  {
    var assess := LastValue(query, "assess");
    if assess.None? {
      return Err(ValidationError("参数name不存在"));
    }
    instance.row := instance.row.(userAssess := assess);
    instance.Save(0);
    r := Ok(instance.row);
  }

  // ---------------------------------------------------------------------------
  // MergedImageViewSet
  // ---------------------------------------------------------------------------

  /** Every row of a table has been saved, so it has a primary key. */
  predicate AllSaved(s: seq<MergedImage>)
  {
    forall x :: x in s ==> x.id.Some?
  }

  /** Primary keys are unique. */
  predicate DistinctIds(s: seq<MergedImage>)
    requires AllSaved(s)
  {
    forall i, j :: 0 <= i < j < |s| ==> s[i].id != s[j].id
  }

  /** Ordered by `-id`. */
  predicate StrictlyDesc(s: seq<MergedImage>)
    requires AllSaved(s)
  {
    forall i, j :: 0 <= i < j < |s| ==> s[i].id.value > s[j].id.value
  }

  /** In a table with unique keys a key determines its row. */
  lemma SameIdSameRow(s: seq<MergedImage>, x: MergedImage, y: MergedImage)
    requires AllSaved(s) && DistinctIds(s)
    requires x in s && y in s && x.id == y.id
    ensures x == y
  {
    var i :| 0 <= i < |s| && s[i] == x;
    var j :| 0 <= j < |s| && s[j] == y;
    assert i == j;
  }

  /** A filter keeps the keys unique. */
  function FilterRows(s: seq<MergedImage>, keep: MergedImage -> bool): (r: seq<MergedImage>)
    requires AllSaved(s) && DistinctIds(s)
    ensures forall x :: x in r <==> x in s && keep(x)
    ensures AllSaved(r) && DistinctIds(r)
  {
    if s == [] then []
    else if keep(s[0]) then
      var rest := FilterRows(s[1..], keep);
      assert forall x :: x in rest ==> x.id != s[0].id by {
        forall x | x in rest
          ensures x.id != s[0].id
        {
          var k :| 0 <= k < |s[1..]| && s[1..][k] == x;
          assert s[k + 1] == x;
        }
      }
      [s[0]] + rest
    else FilterRows(s[1..], keep)
  }

  /** Inserts a row whose key is new into a list ordered by `-id`. */
  function InsertDesc(x: MergedImage, s: seq<MergedImage>): (r: seq<MergedImage>)
    requires x.id.Some? && AllSaved(s) && StrictlyDesc(s)
    requires forall y :: y in s ==> y.id != x.id
    ensures forall y :: y in r <==> y == x || y in s
    ensures |r| == |s| + 1
    ensures AllSaved(r) && StrictlyDesc(r)
  {
    if s == [] then
      ConsDesc(x, s);
      [x]
    else
      TailBelowHead(s);
      if x.id.value > s[0].id.value then
        ConsDesc(x, s);
        [x] + s
      else
        var rest := InsertDesc(x, s[1..]);
        InsertBehind(x, s[0], s[1..], rest);
        [s[0]] + rest
  }

  /** The rest of a list ordered by `-id` is ordered too, and lies below its head. */
  lemma TailBelowHead(s: seq<MergedImage>)
    requires s != [] && AllSaved(s) && StrictlyDesc(s)
    ensures s == [s[0]] + s[1..]
    ensures forall y :: y in s[1..] ==> y in s
    ensures AllSaved(s[1..]) && StrictlyDesc(s[1..])
    ensures forall y :: y in s ==> y.id.value <= s[0].id.value
  {
    forall y | y in s
      ensures y.id.value <= s[0].id.value
    {
      var k :| 0 <= k < |s| && s[k] == y;
    }
    var t := s[1..];
    forall i, j | 0 <= i < j < |t|
      ensures t[i].id.value > t[j].id.value
    {
      assert t[i] == s[i + 1] && t[j] == s[j + 1];
    }
  }

  /** Putting the head back in front of the rest with `x` inserted. */
  lemma InsertBehind(x: MergedImage, h: MergedImage, t: seq<MergedImage>, rest: seq<MergedImage>)
    requires x.id.Some? && h.id.Some? && AllSaved(t) && AllSaved(rest) && StrictlyDesc(rest)
    requires x.id.value <= h.id.value && x.id != h.id
    requires forall y :: y in [h] + t ==> y.id.value <= h.id.value
    requires forall y :: y in t ==> y.id != h.id
    requires forall y :: y in rest <==> y == x || y in t
    ensures forall y :: y in [h] + rest <==> y == x || y in [h] + t
    ensures AllSaved([h] + rest) && StrictlyDesc([h] + rest)
  {
    forall y | y in rest
      ensures y.id.value < h.id.value
    {
      if y != x {
        assert y in [h] + t;
      }
    }
    ConsDesc(h, rest);
  }

  /** A row newer than every row of a list ordered by `-id` may go in front of it. */
  lemma ConsDesc(h: MergedImage, t: seq<MergedImage>)
    requires h.id.Some? && AllSaved(t) && StrictlyDesc(t)
    requires forall y :: y in t ==> y.id.value < h.id.value
    ensures AllSaved([h] + t) && StrictlyDesc([h] + t)
  {
    var r := [h] + t;
    assert forall k :: 0 < k < |r| ==> r[k] == t[k - 1];
    forall i, j | 0 <= i < j < |r|
      ensures r[i].id.value > r[j].id.value
    {
      assert r[j] in t;
    }
  }

  /** `order_by('-id')` on a table with unique keys. */
  function SortDesc(s: seq<MergedImage>): (r: seq<MergedImage>)
    requires AllSaved(s) && DistinctIds(s)
    ensures forall y :: y in r <==> y in s
    ensures |r| == |s|
    ensures AllSaved(r) && StrictlyDesc(r)
  {
    if s == [] then []
    else
      var rest := SortDesc(s[1..]);
      assert forall y :: y in rest ==> y.id != s[0].id by {
        forall y | y in rest
          ensures y.id != s[0].id
        {
          var k :| 0 <= k < |s[1..]| && s[1..][k] == y;
          assert s[k + 1] == y;
        }
      }
      InsertDesc(s[0], rest)
  }

  /** `MergedImageViewSet.get_queryset`: the requester's merge jobs, newest first. An
      anonymous requester makes the ORM raise, as a foreign key cannot be compared with
      `AnonymousUser`. */
  function MergedQueryset(table: seq<MergedImage>, who: Requester): (r: Result<seq<MergedImage>, ViewError>)
    requires AllSaved(table) && DistinctIds(table)
    ensures who.Anonymous? <==> r.Err?
    ensures r.Ok? ==> AllSaved(r.value) && StrictlyDesc(r.value)
    ensures r.Ok? ==> forall x :: x in r.value <==> x in table && x.user == Some(who.user)
  {
    match who
    case Anonymous => Err(QueryError)
    case Authenticated(u) => Ok(SortDesc(FilterRows(table, (x: MergedImage) => x.user == Some(u))))
  }

  /** `redirect('merged-images-detail', obj.id)`. */
  datatype Redirect = Redirect(route: string, id: Option<int>)

  /** The `merge` action, lines 132-136: runs `MergedImageModel.merge` on the job; an exception
      it raises propagates and the job is unchanged, otherwise the client is sent to the job's
      detail page. */
  method MergeAction(obj: MergedImageRecord, exists_: string -> bool,
                     compose: (seq<string>, string) -> Option<seq<byte>>, newId: int)
    returns (r: Result<Redirect, MergeError>)
    modifies obj
    ensures r.Ok? <==> ReadyToMerge(old(obj.row), obj.mediaRoot, exists_) &&
                       compose(MergeInputs(old(obj.row), obj.mediaRoot).value, old(obj.row).background.value).Some?
    ensures r.Ok? ==> r.value == Redirect("merged-images-detail", obj.row.id) && obj.row.result.Some?
    ensures r.Err? ==> obj.row == old(obj.row) && obj.saves == old(obj.saves)
  {
    var merged := obj.Merge(exists_, compose, newId);
    if merged.Err? {
      return Err(merged.error);
    }
    r := Ok(Redirect("merged-images-detail", obj.row.id));
  }

  /** `o.result_image and Path(o.result_image.path).exists()`. */
  predicate HasResultFile(o: MergedImage, mediaRoot: string, exists_: string -> bool)
  {
    o.result.Some? && o.result.value.name != "" && exists_(Join(mediaRoot, o.result.value.name))
  }

  /** `travelled`, lines 139-152, before pagination: walking the requester's finished jobs
      newest first, `setdefault` keeps the first, so the newest, job of each background whose
      result file exists; the response lists those jobs newest first. */
  method Travelled(table: seq<MergedImage>, who: Requester, mediaRoot: string, exists_: string -> bool)
    returns (r: Result<seq<MergedImage>, ViewError>)
    requires AllSaved(table) && DistinctIds(table)
    ensures who.Anonymous? <==> r.Err?
    ensures r.Ok? ==> AllSaved(r.value) && StrictlyDesc(r.value)
    ensures r.Ok? ==> forall x :: x in r.value ==>
      x in table && x.user == Some(who.user) && HasResultFile(x, mediaRoot, exists_)
    ensures r.Ok? ==> forall i, j :: 0 <= i < j < |r.value| ==> r.value[i].background != r.value[j].background
    ensures r.Ok? ==> forall x, o ::
      (x in r.value && o in table && o.user == Some(who.user) &&
       HasResultFile(o, mediaRoot, exists_) && o.background == x.background) ==> o.id.value <= x.id.value
    ensures r.Ok? ==> forall o ::
      (o in table && o.user == Some(who.user) && HasResultFile(o, mediaRoot, exists_)) ==>
      exists x :: x in r.value && x.background == o.background
  {
    var owned := MergedQueryset(table, who);
    if owned.Err? {
      return Err(owned.error);
    }
    var mine := owned.value;
    var qs := SortDesc(FilterRows(mine, (o: MergedImage) => o.result.Some?));
    var backgrounds := NewestPerBackground(qs, (o: MergedImage) => HasResultFile(o, mediaRoot, exists_));
    var ids := set b | b in backgrounds :: backgrounds[b].id;
    var result := SortDesc(FilterRows(mine, (o: MergedImage) => o.id in ids));
    TravelledFacts(table, who.user, mine, qs, backgrounds, ids, result, mediaRoot, exists_);
    r := Ok(result);
  }

  /** The `setdefault` loop of `travelled`: walking `qs` in order, the first row of each
      background that is eligible (has a result file) is kept. */
  method NewestPerBackground(qs: seq<MergedImage>, eligible: MergedImage -> bool)
    returns (backgrounds: map<Option<string>, MergedImage>)
    requires AllSaved(qs) && StrictlyDesc(qs)
    ensures forall b :: b in backgrounds ==>
      backgrounds[b] in qs && b == backgrounds[b].background && eligible(backgrounds[b])
    ensures forall j :: 0 <= j < |qs| && eligible(qs[j]) ==>
      qs[j].background in backgrounds && qs[j].id.value <= backgrounds[qs[j].background].id.value
  {
    backgrounds := map[];
    ghost var at: map<Option<string>, nat> := map[];
    var i := 0;
    while i < |qs|
      invariant 0 <= i <= |qs|
      invariant backgrounds.Keys == at.Keys
      invariant forall b :: b in backgrounds ==>
        at[b] < i && backgrounds[b] == qs[at[b]] && b == backgrounds[b].background &&
        eligible(backgrounds[b])
      invariant forall j :: 0 <= j < i && eligible(qs[j]) ==>
        qs[j].background in backgrounds && qs[j].id.value <= backgrounds[qs[j].background].id.value
    {
      var o := qs[i];
      if eligible(o) {
        if o.background !in backgrounds {
          backgrounds := backgrounds[o.background := o];
          at := at[o.background := i];
        } else {
          // the row kept earlier is newer
          assert qs[at[o.background]].id.value > o.id.value;
        }
      }
      i := i + 1;
    }
  }

  /** What the loop of `travelled` leaves behind gives the properties of its answer. */
  lemma TravelledFacts(table: seq<MergedImage>, u: UserId, mine: seq<MergedImage>, qs: seq<MergedImage>,
                       backgrounds: map<Option<string>, MergedImage>, ids: set<Option<int>>,
                       result: seq<MergedImage>, mediaRoot: string, exists_: string -> bool)
    requires AllSaved(table) && DistinctIds(table) && AllSaved(qs)
    requires forall x :: x in mine <==> x in table && x.user == Some(u)
    requires forall x :: x in qs <==> x in mine && x.result.Some?
    requires forall b :: b in backgrounds ==>
      backgrounds[b] in qs && b == backgrounds[b].background && HasResultFile(backgrounds[b], mediaRoot, exists_)
    requires forall j :: 0 <= j < |qs| && HasResultFile(qs[j], mediaRoot, exists_) ==>
      qs[j].background in backgrounds && qs[j].id.value <= backgrounds[qs[j].background].id.value
    requires ids == set b | b in backgrounds :: backgrounds[b].id
    requires AllSaved(result) && StrictlyDesc(result)
    requires forall x :: x in result <==> x in mine && x.id in ids
    ensures forall x :: x in result ==> x in table && x.user == Some(u) && HasResultFile(x, mediaRoot, exists_)
    ensures forall x :: x in result ==> x.background in backgrounds && backgrounds[x.background] == x
    ensures forall i, j :: 0 <= i < j < |result| ==> result[i].background != result[j].background
    ensures forall x, o ::
      (x in result && o in table && o.user == Some(u) &&
       HasResultFile(o, mediaRoot, exists_) && o.background == x.background) ==> o.id.value <= x.id.value
    ensures forall o ::
      (o in table && o.user == Some(u) && HasResultFile(o, mediaRoot, exists_)) ==>
      exists x :: x in result && x.background == o.background
  {
    ResultRowsKept(table, u, mine, qs, backgrounds, ids, result, mediaRoot, exists_);
    ResultBackgroundsDistinct(result, backgrounds);
    ResultRowsNewest(table, u, mine, qs, backgrounds, result, mediaRoot, exists_);
    ResultCoversBackgrounds(table, u, mine, qs, backgrounds, ids, result, mediaRoot, exists_);
  }

  /** Each row of the answer is the row kept for its background. */
  lemma ResultRowsKept(table: seq<MergedImage>, u: UserId, mine: seq<MergedImage>, qs: seq<MergedImage>,
                       backgrounds: map<Option<string>, MergedImage>, ids: set<Option<int>>,
                       result: seq<MergedImage>, mediaRoot: string, exists_: string -> bool)
    requires AllSaved(table) && DistinctIds(table)
    requires forall x :: x in mine <==> x in table && x.user == Some(u)
    requires forall x :: x in qs <==> x in mine && x.result.Some?
    requires forall b :: b in backgrounds ==>
      backgrounds[b] in qs && b == backgrounds[b].background && HasResultFile(backgrounds[b], mediaRoot, exists_)
    requires ids == set b | b in backgrounds :: backgrounds[b].id
    requires forall x :: x in result <==> x in mine && x.id in ids
    ensures forall x :: x in result ==> x.background in backgrounds && backgrounds[x.background] == x
  {
    forall x | x in result
      ensures x.background in backgrounds && backgrounds[x.background] == x
    {
      var b :| b in backgrounds && backgrounds[b].id == x.id;
      assert backgrounds[b] in table;
      SameIdSameRow(table, x, backgrounds[b]);
    }
  }

  /** Rows kept for different backgrounds are different rows, so no background repeats. */
  lemma ResultBackgroundsDistinct(result: seq<MergedImage>, backgrounds: map<Option<string>, MergedImage>)
    requires AllSaved(result) && StrictlyDesc(result)
    requires forall x :: x in result ==> x.background in backgrounds && backgrounds[x.background] == x
    ensures forall i, j :: 0 <= i < j < |result| ==> result[i].background != result[j].background
  {
    forall i, j | 0 <= i < j < |result|
      ensures result[i].background != result[j].background
    {
      assert result[i] in result && result[j] in result;
      assert result[i].id.value > result[j].id.value;
    }
  }

  /** No finished job of the requester on the same background is newer than the one listed. */
  lemma ResultRowsNewest(table: seq<MergedImage>, u: UserId, mine: seq<MergedImage>, qs: seq<MergedImage>,
                         backgrounds: map<Option<string>, MergedImage>,
                         result: seq<MergedImage>, mediaRoot: string, exists_: string -> bool)
    requires AllSaved(table) && AllSaved(qs) && AllSaved(result)
    requires forall x :: x in mine <==> x in table && x.user == Some(u)
    requires forall x :: x in qs <==> x in mine && x.result.Some?
    requires forall b :: b in backgrounds ==> backgrounds[b] in qs
    requires forall j :: 0 <= j < |qs| && HasResultFile(qs[j], mediaRoot, exists_) ==>
      qs[j].background in backgrounds && qs[j].id.value <= backgrounds[qs[j].background].id.value
    requires forall x :: x in result ==> x.background in backgrounds && backgrounds[x.background] == x
    ensures forall x, o ::
      (x in result && o in table && o.user == Some(u) &&
       HasResultFile(o, mediaRoot, exists_) && o.background == x.background) ==> o.id.value <= x.id.value
  {
    forall x, o | x in result && o in table && o.user == Some(u) &&
                  HasResultFile(o, mediaRoot, exists_) && o.background == x.background
      ensures o.id.value <= x.id.value
    {
      assert o in qs;
      var j :| 0 <= j < |qs| && qs[j] == o;
    }
  }

  /** Every background the requester has a finished job on appears in the answer. */
  lemma ResultCoversBackgrounds(table: seq<MergedImage>, u: UserId, mine: seq<MergedImage>, qs: seq<MergedImage>,
                                backgrounds: map<Option<string>, MergedImage>, ids: set<Option<int>>,
                                result: seq<MergedImage>, mediaRoot: string, exists_: string -> bool)
    requires AllSaved(table) && AllSaved(qs) && AllSaved(result)
    requires forall x :: x in mine <==> x in table && x.user == Some(u)
    requires forall x :: x in qs <==> x in mine && x.result.Some?
    requires forall b :: b in backgrounds ==> backgrounds[b] in qs && b == backgrounds[b].background
    requires forall j :: 0 <= j < |qs| && HasResultFile(qs[j], mediaRoot, exists_) ==>
      qs[j].background in backgrounds
    requires ids == set b | b in backgrounds :: backgrounds[b].id
    requires forall x :: x in result <==> x in mine && x.id in ids
    ensures forall o ::
      (o in table && o.user == Some(u) && HasResultFile(o, mediaRoot, exists_)) ==>
      exists x :: x in result && x.background == o.background
  {
    forall o | o in table && o.user == Some(u) && HasResultFile(o, mediaRoot, exists_)
      ensures exists x :: x in result && x.background == o.background
    {
      assert o in qs;
      var j :| 0 <= j < |qs| && qs[j] == o;
      var x := backgrounds[o.background];
      assert x.id in ids;
      assert x in result;
    }
  }
}
