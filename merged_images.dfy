/** `MergedImages` in `clients.ts`: how the front end normalises a merge job that the
    server sends. Every declared field that is absent or falsy gets its default, every
    other key of the object is copied through, and the URL of the background picture is
    derived from the (defaulted) background name. Objects are the JSON values of the
    shared module; a field lookup on a key the object lacks reads `undefined`. */
module MergedImages {
  import opened Common
  import RestClient

  /** `src.key || fallback`. */
  function Or(src: map<string, Json>, key: string, fallback: Json): (v: Json)
    ensures key in src && Truthy(src[key]) ==> v == src[key]
    ensures !(key in src && Truthy(src[key])) ==> v == fallback
  {
    if key in src && Truthy(src[key]) then src[key] else fallback
  }

  /** The keys a property read can find: a primitive value has none of the declared ones. */
  function FieldsOf(j: Json): map<string, Json>
  {
    if j.JObj? then j.fields else map[]
  }

  /** A value inside a template string, as `String(x)` prints it. */
  function TemplateText(j: Json): string
    decreases j, 1
  {
    match j
    case JNull => "null"
    case JBool(b) => if b then "true" else "false"
    case JNum(n) => IntToString(n)
    case JStr(s) => s
    case JArr(items) => JoinedText(j, 0)
    case JObj(_) => "[object Object]"
  }

  /** `items.join(",")` from index `i` on, where `null` prints as nothing. */
  function JoinedText(arr: Json, i: nat): string
    requires arr.JArr? && i <= |arr.items|
    decreases arr, 0, |arr.items| - i
  {
    if i == |arr.items| then ""
    else
      var item := arr.items[i];
      assert item in arr.items;
      var text := if item.JNull? then "" else TemplateText(item);
      (if i == 0 then "" else ",") + text + JoinedText(arr, i + 1)
  }

  /** The keys of `IdentificationDetailDst`. */
  const DetailKeys: set<string> :=
    {"id", "user", "upload_images", "nation1", "nation2", "nation3", "modified_nation", "time_consuming"}

  /** `parseDetail`: exactly the declared keys; `id` falls back to -1 and every other
      field, `modified_nation` of `null` included, to the empty string. */
  function ParseDetail(src: Json): (d: map<string, Json>)
    ensures d.Keys == DetailKeys
    ensures d["id"] == Or(FieldsOf(src), "id", JNum(-1))
    ensures forall k :: k in DetailKeys && k != "id" ==> d[k] == Or(FieldsOf(src), k, JStr(""))
    ensures forall k :: k in d ==> Truthy(d[k]) || d[k] == JStr("")
  {
    var f := FieldsOf(src);
    map k | k in DetailKeys :: Or(f, k, if k == "id" then JNum(-1) else JStr(""))
  }

  /** The keys of `Dst` that `parse` writes from the object literal. */
  const StringKeys: set<string> :=
    {"detail_url", "background_name", "result_image", "person_1_head_image", "person_2_head_image"}
  const NumberKeys: set<string> := {"id", "person_1_identification", "person_2_identification"}
  const DetailFieldKeys: set<string> := {"person_1_identification_detail", "person_2_identification_detail"}
  /** The keys of the object literal in `parse`. */
  const LiteralKeys: set<string> := StringKeys + NumberKeys + DetailFieldKeys + {"user"}

  /** `${constants.apiUrl}/media/background-image/${background_name}.png`. */
  function BackgroundImageUrl(apiUrl: string, backgroundName: Json): string
  {
    apiUrl + "/media/background-image/" + TemplateText(backgroundName) + ".png"
  }

  /** The value the object literal of `parse` gives a declared key: -1 for the numbers,
      `'Anonymous'` for the user, a parsed detail for the two details, and the empty
      string for the rest, whenever the source's value is absent or falsy. */
  function Defaulted(src: map<string, Json>, k: string): (v: Json)
    ensures k in NumberKeys ==> v == Or(src, k, JNum(-1))
    ensures k == "user" ==> v == Or(src, k, JStr("Anonymous"))
    ensures k in DetailFieldKeys ==> v == JObj(ParseDetail(Or(src, k, EmptyObject)))
    ensures k in StringKeys ==> v == Or(src, k, JStr(""))
  {
    if k in NumberKeys then Or(src, k, JNum(-1))
    else if k == "user" then Or(src, k, JStr("Anonymous"))
    else if k in DetailFieldKeys then JObj(ParseDetail(Or(src, k, EmptyObject)))
    else Or(src, k, JStr(""))
  }

  /** The object literal of `parse`: each of its keys with its defaulted value. */
  function Literal(src: map<string, Json>): (m: map<string, Json>)
    ensures m.Keys == LiteralKeys
    ensures forall k :: k in m ==> m[k] == Defaulted(src, k)
  {
    map k | k in LiteralKeys :: Defaulted(src, k)
  }

  /** `parse`: `Object.assign({}, src, {...defaults})`, then `background_image_url`. */
  function Parse(apiUrl: string, src: map<string, Json>): (r: map<string, Json>)
    ensures r.Keys == src.Keys + LiteralKeys + {"background_image_url"}
    ensures forall k :: k in src && k !in LiteralKeys && k != "background_image_url" ==> r[k] == src[k]
    ensures forall k :: k in LiteralKeys ==> r[k] == Defaulted(src, k)
  {
    var literal := Literal(src);
    // `result.background_name` is the literal's, already defaulted, value
    var backgroundName := Or(src, "background_name", JStr(""));
    var url := JStr(BackgroundImageUrl(apiUrl, backgroundName));
    var r := (src + literal)["background_image_url" := url];
    UrlKeyNotInLiteral();
    AssignShape(src, literal, "background_image_url", url, r);
    r
  }

  /** `Object.assign({}, src, literal)` followed by setting one more key. */
  lemma AssignShape(src: map<string, Json>, literal: map<string, Json>, key: string, value: Json,
                    r: map<string, Json>)
    requires key !in literal && r == (src + literal)[key := value]
    ensures r.Keys == src.Keys + literal.Keys + {key}
    ensures forall k :: k in src && k !in literal && k != key ==> r[k] == src[k]
    ensures forall k :: k in literal ==> r[k] == literal[k]
    ensures r[key] == value
  {
  }

  lemma UrlKeyNotInLiteral()
    ensures "background_image_url" !in LiteralKeys
  {
  }

  /** The background URL is built from the defaulted background name. */
  lemma ParseBackgroundUrl(apiUrl: string, src: map<string, Json>)
    ensures Parse(apiUrl, src)["background_image_url"] ==
            JStr(BackgroundImageUrl(apiUrl, Parse(apiUrl, src)["background_name"]))
    ensures Parse(apiUrl, src)["background_name"] == Or(src, "background_name", JStr(""))
  {
    assert "background_name" in LiteralKeys;
  }

  /** A value that is already the `||` of its own default comes back unchanged. */
  lemma OrStable(m: map<string, Json>, src: map<string, Json>, k: string, fallback: Json)
    requires k in m && m[k] == Or(src, k, fallback)
    ensures Or(m, k, fallback) == m[k]
  {
  }

  /** Parsing a parsed detail changes nothing. */
  lemma ParseDetailIdempotent(src: Json)
    ensures ParseDetail(JObj(ParseDetail(src))) == ParseDetail(src)
  {
    var d := ParseDetail(src);
    var d2 := ParseDetail(JObj(d));
    forall k | k in DetailKeys
      ensures d2[k] == d[k]
    {
      if k == "id" {
        OrStable(d, FieldsOf(src), k, JNum(-1));
      } else {
        OrStable(d, FieldsOf(src), k, JStr(""));
      }
    }
  }

  /** A declared field of a parsed object is its own default. */
  lemma DefaultedStable(apiUrl: string, src: map<string, Json>, k: string)
    requires k in LiteralKeys
    ensures Defaulted(Parse(apiUrl, src), k) == Parse(apiUrl, src)[k]
  {
    var r := Parse(apiUrl, src);
    var v := Defaulted(src, k);
    assert r[k] == v;
    if k in NumberKeys {
      assert v == Or(src, k, JNum(-1));
      OrStable(r, src, k, JNum(-1));
    } else if k == "user" {
      assert v == Or(src, k, JStr("Anonymous"));
      OrStable(r, src, k, JStr("Anonymous"));
    } else if k in DetailFieldKeys {
      assert Truthy(v);
      ParseDetailIdempotent(Or(src, k, EmptyObject));
    } else {
      assert v == Or(src, k, JStr(""));
      OrStable(r, src, k, JStr(""));
    }
  }

  /** Each key of a parsed object survives a second `parse`. */
  lemma ParseKeyStable(apiUrl: string, src: map<string, Json>, k: string)
    requires k in Parse(apiUrl, src)
    ensures k in Parse(apiUrl, Parse(apiUrl, src))
    ensures Parse(apiUrl, Parse(apiUrl, src))[k] == Parse(apiUrl, src)[k]
  {
    var r := Parse(apiUrl, src);
    var r2 := Parse(apiUrl, r);
    if k == "background_image_url" {
      var name := "background_name";
      assert name in LiteralKeys;
      DefaultedStable(apiUrl, src, name);
      assert r2[name] == r[name];
      ParseBackgroundUrl(apiUrl, src);
      ParseBackgroundUrl(apiUrl, r);
    } else if k in LiteralKeys {
      DefaultedStable(apiUrl, src, k);
    } else {
      assert k in src && r[k] == src[k];
    }
  }

  /** `parse` is idempotent: parsing an already parsed object gives the same object. */
  lemma ParseIdempotent(apiUrl: string, src: map<string, Json>)
    ensures Parse(apiUrl, Parse(apiUrl, src)) == Parse(apiUrl, src)
  {
    var r := Parse(apiUrl, src);
    var r2 := Parse(apiUrl, r);
    forall k | k in r
      ensures k in r2 && r2[k] == r[k]
    {
      ParseKeyStable(apiUrl, src, k);
    }
    SameKeys(r, r2);
  }

  /** Two maps agree when the second holds every key of the first with the same value and
      no key besides. */
  lemma SameKeys(a: map<string, Json>, b: map<string, Json>)
    requires forall k :: k in a ==> k in b && b[k] == a[k]
    requires b.Keys <= a.Keys
    ensures a == b
  {
  }

  /** `placeholder`: what is shown before the server answers. */
  const Placeholder: map<string, Json> := map[
    "id" := JNum(-1),
    "user" := JStr("Anonymous"),
    "detail_url" := JStr(""),
    "background_name" := JStr("bg1"),
    "result_image" := JStr(""),
    "person_1_head_image" := JStr(""),
    "person_2_head_image" := JStr(""),
    "person_1_identification" := JNum(-1),
    "person_2_identification" := JNum(-1),
    "person_1_identification_detail" := EmptyObject,
    "person_2_identification_detail" := EmptyObject]

  /** A detail with every field at its default. */
  const DefaultDetail: map<string, Json> := map[
    "id" := JNum(-1), "user" := JStr(""), "upload_images" := JStr(""),
    "nation1" := JStr(""), "nation2" := JStr(""), "nation3" := JStr(""),
    "modified_nation" := JStr(""), "time_consuming" := JStr("")]

  /** An empty, absent or primitive detail parses to all defaults. */
  lemma EmptyDetail(src: Json)
    requires !src.JObj? || src.fields == map[]
    ensures ParseDetail(src) == DefaultDetail
  {
    var d := ParseDetail(src);
    forall k | k in DetailKeys
      ensures d[k] == DefaultDetail[k]
    {
    }
    SameKeys(DefaultDetail, d);
  }

  /** The parsed placeholder keeps its id -1, its user `'Anonymous'` and its background `bg1`. */
  lemma PlaceholderParsed(apiUrl: string)
    ensures Parse(apiUrl, Placeholder)["id"] == JNum(-1)
    ensures Parse(apiUrl, Placeholder)["user"] == JStr("Anonymous")
    ensures Parse(apiUrl, Placeholder)["background_name"] == JStr("bg1")
  {
    PlaceholderFields();
    assert "id" in NumberKeys && "background_name" in StringKeys;
    assert "id" in LiteralKeys && "user" in LiteralKeys && "background_name" in LiteralKeys;
  }

  /** The id, user and background of the placeholder are truthy, so `||` keeps them. */
  lemma PlaceholderFields()
    ensures Or(Placeholder, "id", JNum(-1)) == JNum(-1)
    ensures Or(Placeholder, "user", JStr("Anonymous")) == JStr("Anonymous")
    ensures Or(Placeholder, "background_name", JStr("")) == JStr("bg1")
  {
    assert Placeholder["id"] == JNum(-1);
    assert Placeholder["user"] == JStr("Anonymous");
    assert Placeholder["background_name"] == JStr("bg1");
  }

  /** The parsed placeholder shows the picture of `bg1`. */
  lemma PlaceholderBackground(apiUrl: string)
    ensures Parse(apiUrl, Placeholder)["background_image_url"] == JStr(apiUrl + "/media/background-image/bg1.png")
  {
    PlaceholderParsed(apiUrl);
    ParseBackgroundUrl(apiUrl, Placeholder);
    BackgroundOfBg1(apiUrl);
  }

  lemma BackgroundOfBg1(apiUrl: string)
    ensures BackgroundImageUrl(apiUrl, JStr("bg1")) == apiUrl + "/media/background-image/bg1.png"
  {
    assert "/media/background-image/" + "bg1" + ".png" == "/media/background-image/bg1.png";
  }

  /** Both details of the placeholder are empty objects. */
  lemma PlaceholderDetailFields()
    ensures Or(Placeholder, "person_1_identification_detail", EmptyObject) == EmptyObject
    ensures Or(Placeholder, "person_2_identification_detail", EmptyObject) == EmptyObject
  {
    assert Placeholder["person_1_identification_detail"] == EmptyObject;
    assert Placeholder["person_2_identification_detail"] == EmptyObject;
  }

  /** Both details of the parsed placeholder are at their defaults. */
  lemma PlaceholderDetails(apiUrl: string)
    ensures Parse(apiUrl, Placeholder)["person_1_identification_detail"] == JObj(DefaultDetail)
    ensures Parse(apiUrl, Placeholder)["person_2_identification_detail"] == JObj(DefaultDetail)
  {
    EmptyDetail(EmptyObject);
    PlaceholderDetailFields();
    var k1, k2 := "person_1_identification_detail", "person_2_identification_detail";
    assert k1 in DetailFieldKeys && k2 in DetailFieldKeys;
    assert k1 in LiteralKeys && k2 in LiteralKeys;
  }

  /** `parse` as the client calls it on whatever a request produced: a property read on
      `null` is a TypeError, and a primitive has none of the declared fields. */
  function ParseValue(apiUrl: string, src: Json, action: string): (r: RestClient.Outcome<Json>)
    ensures src.JNull? <==> r.Rejected?
    ensures src.JObj? ==> r == RestClient.Resolved(JObj(Parse(apiUrl, src.fields)))
  {
    if src.JNull? then RestClient.Rejected(RestClient.TypeError)
    else RestClient.Resolved(JObj(Parse(apiUrl, FieldsOf(src))))
  }

  /** The options of a client that normalises its answers with `parse`. */
  function ParsingOptions(apiUrl: string, endpoint: string, placeholder: map<string, Json>): RestClient.Options
  {
    RestClient.Options(
      RestClient.Val(endpoint), RestClient.Val(JObj(placeholder)),
      RestClient.Missing, RestClient.Missing, RestClient.Missing,
      RestClient.Missing, RestClient.Missing,
      RestClient.Val((j: Json, action: string) => ParseValue(apiUrl, j, action)))
  }

  /** The options of the client for `merged-images/` in `Clients`. */
  function ClientOptions(apiUrl: string): RestClient.Options
  {
    ParsingOptions(apiUrl, apiUrl + "merged-images/", Placeholder)
  }

  /** The list placeholder of such a client parses: every item is an object. */
  lemma ParsingListPlaceholder(apiUrl: string, endpoint: string, placeholder: map<string, Json>)
    ensures RestClient.ListParse(RestClient.LocalParse(ParsingOptions(apiUrl, endpoint, placeholder).parseFn),
                                 RestClient.ListPlaceholder(3, JObj(placeholder))).Resolved?
  {
    var local := RestClient.LocalParse(ParsingOptions(apiUrl, endpoint, placeholder).parseFn);
    var items := RestClient.ListPlaceholder(3, JObj(placeholder)).fields["results"].items;
    forall i | 0 <= i < |items|
      ensures local(items[i], "list").Resolved?
    {
      assert local(items[i], "list") == ParseValue(apiUrl, items[i], "list");
    }
    assert RestClient.MapParse(local, items, "list").Resolved?;
  }

  /** Such a client can always be prepared, and shows the parsed placeholder before the
      server answers. */
  lemma ParsingOptionsPlaceholder(apiUrl: string, endpoint: string, placeholder: map<string, Json>)
    ensures RestClient.ParseOption(ParsingOptions(apiUrl, endpoint, placeholder)).Resolved?
    ensures RestClient.ParseOption(ParsingOptions(apiUrl, endpoint, placeholder)).value.parsedPlaceholder ==
            JObj(Parse(apiUrl, placeholder))
  {
    var o := ParsingOptions(apiUrl, endpoint, placeholder);
    var local := RestClient.LocalParse(o.parseFn);
    assert RestClient.PlaceholderOf(o.placeholder) == JObj(placeholder);
    assert RestClient.CountOf(o.listPlaceholderCount) == 3;
    assert local(JObj(placeholder), "retrieve") == ParseValue(apiUrl, JObj(placeholder), "retrieve");
    ParsingListPlaceholder(apiUrl, endpoint, placeholder);
  }

  /** The `merged-images/` client shows the parsed placeholder before the server answers. */
  lemma ClientParsedPlaceholder(apiUrl: string)
    ensures RestClient.ParseOption(ClientOptions(apiUrl)).Resolved?
    ensures RestClient.ParseOption(ClientOptions(apiUrl)).value.parsedPlaceholder == JObj(Parse(apiUrl, Placeholder))
  {
    ParsingOptionsPlaceholder(apiUrl, apiUrl + "merged-images/", Placeholder);
  }
}
