/** The projections that turn a Notion page record into the fields the
    pipeline needs: `_extract_title`, `_extract_mode` and `_extract_content`.
    A page is a decoded JSON value; every `.get`, `[0]`, iteration and
    `str()` is the Python operation of `PyJson`, so a record of the wrong
    shape raises the exception Python would raise. */
module NotionClient {
  import opened Wrappers
  import opened PyJson
  import opened Config

  /** The title properties tried after the ID column, in order. */
  const TitleNames: seq<string> := ["タイトル", "Title", "name"]

  /** The text properties tried for the article material, in order. */
  const ContentNames: seq<string> := ["文章のネタ", "テキスト", "Content", "content"]

  /** `page.get("properties", {}).get(name, {})`. */
  function Property(page: Json, name: string): PyResult<Json> {
    var props :- Get(page, "properties", EmptyObj);
    Get(props, name, EmptyObj)
  }

  /** `str(x)` as a JSON string. */
  function StrJson(x: Json): PyResult<Json> {
    var s :- Str(x);
    Ok(JStr(s))
  }

  // ---------------------------------------------------------------------
  // _extract_title
  // ---------------------------------------------------------------------

  /** The number of a truthy `unique_id` of the ID property, when that
      branch returns. */
  function UniqueIdNumber(idProp: Json): PyResult<Option<Json>> {
    var uniqueId :- Get(idProp, "unique_id", JNull);
    if !Truthy(uniqueId) then Ok(None)
    else
      var number :- Get(uniqueId, "number", JNull);
      if number == JNull then Ok(None) else Ok(Some(number))
  }

  /** The loop over the title property names: the first one whose `title`
      list is truthy supplies its first element's `plain_text`. */
  function TitleFromNames(page: Json, names: seq<string>): PyResult<Json>
    decreases |names|
  {
    if names == [] then Ok(JStr(""))
    else
      var titleProp :- Property(page, names[0]);
      var titleList :- Get(titleProp, "title", JArr([]));
      if Truthy(titleList) then
        var first :- First(titleList);
        Get(first, "plain_text", JStr(""))
      else
        TitleFromNames(page, names[1..])
  }

  /** `_extract_title(page)`. */
  function ExtractTitle(page: Json): (r: PyResult<Json>)
    ensures !page.JObj? ==> r == Err(AttributeError)
  {
    var idProp :- Property(page, "ID");
    var unique :- UniqueIdNumber(idProp);
    if unique.Some? then StrJson(unique.value)
    else
      var idNumber :- Get(idProp, "number", JNull);
      if idNumber != JNull then StrJson(idNumber)
      else TitleFromNames(page, TitleNames)
  }

  // ---------------------------------------------------------------------
  // _extract_mode
  // ---------------------------------------------------------------------

  /** `_extract_mode(page)`. */
  function ExtractMode(page: Json): (r: PyResult<Json>)
    ensures !page.JObj? ==> r == Err(AttributeError)
  {
    var modeProp :- Property(page, "モード");
    var select :- Get(modeProp, "select", JNull);
    if Truthy(select) then Get(select, "name", JStr(DefaultMode))
    else
      var multi :- Get(modeProp, "multi_select", JArr([]));
      if Truthy(multi) then
        var first :- First(multi);
        Get(first, "name", JStr(DefaultMode))
      else
        Ok(JStr(DefaultMode))
  }

  // ---------------------------------------------------------------------
  // _extract_content
  // ---------------------------------------------------------------------

  /** `[rt.get("plain_text", "") for rt in items]`. */
  function PlainTexts(items: seq<Json>): PyResult<seq<Json>>
    decreases |items|
  {
    if items == [] then Ok([])
    else
      var t :- Get(items[0], "plain_text", JStr(""));
      var rest :- PlainTexts(items[1..]);
      Ok([t] + rest)
  }

  /** `"".join(parts)`: every part must be a string. */
  function JoinStr(parts: seq<Json>): PyResult<string>
    decreases |parts|
  {
    if parts == [] then Ok("")
    else if !parts[0].JStr? then Err(TypeError)
    else
      var rest :- JoinStr(parts[1..]);
      Ok(parts[0].s + rest)
  }

  /** The join over a truthy `rich_text` value. Iterating a string yields
      strings and iterating a dict yields its string keys, and a string has
      no `.get`; numbers and booleans are not iterable. */
  function JoinPlainText(richText: Json): PyResult<string>
    requires Truthy(richText)
  {
    match richText
    case JArr(items) =>
      var parts :- PlainTexts(items);
      JoinStr(parts)
    case JNum(_) => Err(TypeError)
    case JBool(_) => Err(TypeError)
    case _ => Err(AttributeError)
  }

  /** The loop over the content property names. */
  function ContentFromNames(page: Json, names: seq<string>): PyResult<string>
    decreases |names|
  {
    if names == [] then Ok("")
    else
      var contentProp :- Property(page, names[0]);
      var richText :- Get(contentProp, "rich_text", JArr([]));
      if Truthy(richText) then JoinPlainText(richText)
      else ContentFromNames(page, names[1..])
  }

  /** `_extract_content(page)`. */
  function ExtractContent(page: Json): (r: PyResult<string>)
    ensures !page.JObj? ==> r == Err(AttributeError)
  {
    ContentFromNames(page, ContentNames)
  }

  // ---------------------------------------------------------------------
  // Shapes of a Notion record
  // ---------------------------------------------------------------------

  /** A rich-text or title element: a dict whose `plain_text`, if any, is a
      string. */
  predicate TextItem(x: Json) {
    x.JObj? && ("plain_text" !in x.fields || x.fields["plain_text"].JStr?)
  }

  /** A select option: a dict whose `name`, if any, is a string. */
  predicate NamedItem(x: Json) {
    x.JObj? && ("name" !in x.fields || x.fields["name"].JStr?)
  }

  predicate NumField(f: map<string, Json>, key: string) {
    key !in f || f[key].JNull? || f[key].JNum?
  }

  predicate TextList(f: map<string, Json>, key: string) {
    key !in f || f[key].JNull? ||
    (f[key].JArr? && forall i :: 0 <= i < |f[key].items| ==> TextItem(f[key].items[i]))
  }

  predicate NameList(f: map<string, Json>, key: string) {
    key !in f || f[key].JNull? ||
    (f[key].JArr? && forall i :: 0 <= i < |f[key].items| ==> NamedItem(f[key].items[i]))
  }

  /** A property object as the Notion API returns it: each key the helpers
      read, where present, holds the kind of value Notion puts there. */
  predicate PropertyShaped(p: Json) {
    p.JObj? &&
    ("unique_id" !in p.fields || p.fields["unique_id"].JNull? ||
     (p.fields["unique_id"].JObj? && NumField(p.fields["unique_id"].fields, "number"))) &&
    NumField(p.fields, "number") &&
    TextList(p.fields, "title") &&
    TextList(p.fields, "rich_text") &&
    ("select" !in p.fields || p.fields["select"].JNull? || NamedItem(p.fields["select"])) &&
    NameList(p.fields, "multi_select")
  }

  /** A page record as the Notion API returns it. */
  predicate NotionShaped(page: Json) {
    page.JObj? &&
    ("properties" !in page.fields ||
     (page.fields["properties"].JObj? &&
      forall name :: name in page.fields["properties"].fields ==>
        PropertyShaped(page.fields["properties"].fields[name])))
  }

  /** Property `name` is absent, or a dict whose list under `key` is absent
      or falsy, so the search moves on past it. */
  predicate ListEmpty(props: map<string, Json>, name: string, key: string) {
    name !in props ||
    (props[name].JObj? && (key !in props[name].fields || !Truthy(props[name].fields[key])))
  }

  /** The ID property holds no number in either place the title looks. */
  predicate NoIdNumber(props: map<string, Json>) {
    "ID" !in props ||
    (props["ID"].JObj? &&
     var f := props["ID"].fields;
     ("unique_id" !in f || !Truthy(f["unique_id"]) ||
      (f["unique_id"].JObj? &&
       ("number" !in f["unique_id"].fields || f["unique_id"].fields["number"] == JNull))) &&
     ("number" !in f || f["number"] == JNull))
  }

  /** The text of an element: its `plain_text`, or "" when absent. */
  function TextOf(x: Json): string
    requires TextItem(x)
  {
    if "plain_text" in x.fields then x.fields["plain_text"].s else ""
  }

  /** The texts of the elements, concatenated in order. */
  function ConcatTexts(items: seq<Json>): string
    requires forall i :: 0 <= i < |items| ==> TextItem(items[i])
    decreases |items|
  {
    if items == [] then "" else TextOf(items[0]) + ConcatTexts(items[1..])
  }

  // ---------------------------------------------------------------------
  // Properties
  // ---------------------------------------------------------------------

  /** A truthy `unique_id` with a number decides the title, whatever the
      other properties hold. */
  lemma TitleFromUniqueId(page: Json, n: Json)
    requires At(page, ["properties", "ID", "unique_id", "number"]) == Some(n)
    requires n != JNull
    ensures ExtractTitle(page) == StrJson(n)
    ensures n.JNum? ==> ExtractTitle(page) == Ok(JStr(IntToDecimal(n.n)))
  {
    var props := page.fields["properties"];
    var idProp := props.fields["ID"];
    var uniqueId := idProp.fields["unique_id"];
    assert At(uniqueId, ["number"]) == Some(n);
    assert "number" in uniqueId.fields;
    assert Truthy(uniqueId);
  }

  /** Without a `unique_id` number, a number directly on the ID property is
      the title. */
  lemma TitleFromIdNumber(page: Json, idFields: map<string, Json>, n: Json)
    requires At(page, ["properties", "ID"]) == Some(JObj(idFields))
    requires "number" in idFields && idFields["number"] == n && n != JNull
    requires "unique_id" !in idFields || !Truthy(idFields["unique_id"]) ||
             (idFields["unique_id"].JObj? &&
              ("number" !in idFields["unique_id"].fields ||
               idFields["unique_id"].fields["number"] == JNull))
    ensures ExtractTitle(page) == StrJson(n)
  {
    var props := page.fields["properties"];
    assert At(props, ["ID"]) == Some(JObj(idFields));
    assert Property(page, "ID") == Ok(JObj(idFields));
  }

  /** The search over `names` stops at the first property whose list is
      truthy, after skipping the ones before it. */
  lemma {:induction false} TitleFromNamesAt(page: Json, props: map<string, Json>,
                                            names: seq<string>, k: nat, items: seq<Json>)
    requires page.JObj? && "properties" in page.fields && page.fields["properties"] == JObj(props)
    requires k < |names|
    requires forall j :: 0 <= j < k ==> ListEmpty(props, names[j], "title")
    requires names[k] in props && props[names[k]].JObj?
    requires "title" in props[names[k]].fields && props[names[k]].fields["title"] == JArr(items)
    requires items != []
    ensures TitleFromNames(page, names) == Get(items[0], "plain_text", JStr(""))
    decreases k
  {
    if k > 0 {
      assert ListEmpty(props, names[0], "title");
      TitleFromNamesAt(page, props, names[1..], k - 1, items);
    }
  }

  /** Without an ID number, the title is the first element's `plain_text`
      of the first of "タイトル", "Title", "name" with a non-empty title
      list; later names are not consulted. */
  lemma TitleFromTitleProperty(page: Json, props: map<string, Json>, k: nat, items: seq<Json>)
    requires At(page, ["properties"]) == Some(JObj(props))
    requires NoIdNumber(props)
    requires k < |TitleNames|
    requires forall j :: 0 <= j < k ==> ListEmpty(props, TitleNames[j], "title")
    requires At(page, ["properties", TitleNames[k], "title"]) == Some(JArr(items))
    requires items != []
    ensures items[0].JObj? ==>
      ExtractTitle(page) == Ok(if "plain_text" in items[0].fields then items[0].fields["plain_text"] else JStr(""))
    ensures !items[0].JObj? ==> ExtractTitle(page) == Err(AttributeError)
  {
    assert At(JObj(props), [TitleNames[k], "title"]) == Some(JArr(items));
    assert At(props[TitleNames[k]], ["title"]) == Some(JArr(items));
    TitleFromNamesAt(page, props, TitleNames, k, items);
  }

  /** With no ID number and every title list empty, the title is "". */
  lemma TitleEmptyWhenNoSource(page: Json, props: map<string, Json>)
    requires At(page, ["properties"]) == Some(JObj(props))
    requires NoIdNumber(props)
    requires forall j :: 0 <= j < |TitleNames| ==> ListEmpty(props, TitleNames[j], "title")
    ensures ExtractTitle(page) == Ok(JStr(""))
  {
    assert ListEmpty(props, TitleNames[0], "title");
    assert ListEmpty(props, TitleNames[1], "title");
    assert ListEmpty(props, TitleNames[2], "title");
  }

  /** A truthy `select` decides the mode: its `name`, unchecked against the
      known modes, or the default mode when it has none. */
  lemma ModeFromSelect(page: Json, select: Json)
    requires At(page, ["properties", "モード", "select"]) == Some(select)
    requires Truthy(select)
    ensures select.JObj? ==>
      ExtractMode(page) == Ok(if "name" in select.fields then select.fields["name"] else JStr(DefaultMode))
    ensures !select.JObj? ==> ExtractMode(page) == Err(AttributeError)
  {
    var modeProp := page.fields["properties"].fields["モード"];
    assert At(modeProp, ["select"]) == Some(select);
  }

  /** Without a truthy `select`, the first `multi_select` option decides
      the mode. */
  lemma ModeFromMultiSelect(page: Json, modeFields: map<string, Json>, items: seq<Json>)
    requires At(page, ["properties", "モード"]) == Some(JObj(modeFields))
    requires "select" !in modeFields || !Truthy(modeFields["select"])
    requires "multi_select" in modeFields && modeFields["multi_select"] == JArr(items)
    requires items != []
    ensures items[0].JObj? ==>
      ExtractMode(page) == Ok(if "name" in items[0].fields then items[0].fields["name"] else JStr(DefaultMode))
    ensures !items[0].JObj? ==> ExtractMode(page) == Err(AttributeError)
  {
    assert At(page.fields["properties"], ["モード"]) == Some(JObj(modeFields));
  }

  /** With neither a truthy `select` nor a truthy `multi_select` (or no
      mode property at all), the mode is "共感・エッセイ型". */
  lemma ModeDefault(page: Json, props: map<string, Json>)
    requires At(page, ["properties"]) == Some(JObj(props))
    requires "モード" !in props ||
             (props["モード"].JObj? &&
              ("select" !in props["モード"].fields || !Truthy(props["モード"].fields["select"])) &&
              ("multi_select" !in props["モード"].fields || !Truthy(props["モード"].fields["multi_select"])))
    ensures ExtractMode(page) == Ok(JStr(DefaultMode))
  {
  }

  /** The comprehension and the join succeed exactly on text elements, and
      then give their texts concatenated in order; otherwise the exception
      says which check failed. */
  lemma {:induction false} PlainTextsJoin(items: seq<Json>)
    ensures PlainTexts(items).Ok? <==> (forall i :: 0 <= i < |items| ==> items[i].JObj?)
    ensures PlainTexts(items).Err? ==> PlainTexts(items).error == AttributeError
    ensures (forall i :: 0 <= i < |items| ==> TextItem(items[i])) ==>
      JoinStr(PlainTexts(items).value) == Ok(ConcatTexts(items))
    ensures PlainTexts(items).Ok? && (exists i :: 0 <= i < |items| && !TextItem(items[i])) ==>
      JoinStr(PlainTexts(items).value) == Err(TypeError)
    decreases |items|
  {
    if items != [] {
      PlainTextsJoin(items[1..]);
      assert forall i :: 1 <= i < |items| ==> items[i] == items[1..][i - 1];
      if PlainTexts(items).Ok? && (exists i :: 0 <= i < |items| && !TextItem(items[i])) {
        var i :| 0 <= i < |items| && !TextItem(items[i]);
        if i > 0 {
          assert !TextItem(items[1..][i - 1]);
        }
      }
    }
  }

  /** The join over a non-empty rich-text list. */
  lemma JoinPlainTextSpec(items: seq<Json>)
    requires items != []
    ensures (forall i :: 0 <= i < |items| ==> TextItem(items[i])) ==>
      JoinPlainText(JArr(items)) == Ok(ConcatTexts(items))
    ensures (exists i :: 0 <= i < |items| && !items[i].JObj?) ==>
      JoinPlainText(JArr(items)) == Err(AttributeError)
    ensures (forall i :: 0 <= i < |items| ==> items[i].JObj?) &&
            (exists i :: 0 <= i < |items| && !TextItem(items[i])) ==>
      JoinPlainText(JArr(items)) == Err(TypeError)
  {
    PlainTextsJoin(items);
  }

  /** The search over `names` stops at the first property whose
      `rich_text` is truthy. */
  lemma {:induction false} ContentFromNamesAt(page: Json, props: map<string, Json>,
                                              names: seq<string>, k: nat, items: seq<Json>)
    requires page.JObj? && "properties" in page.fields && page.fields["properties"] == JObj(props)
    requires k < |names|
    requires forall j :: 0 <= j < k ==> ListEmpty(props, names[j], "rich_text")
    requires names[k] in props && props[names[k]].JObj?
    requires "rich_text" in props[names[k]].fields && props[names[k]].fields["rich_text"] == JArr(items)
    requires items != []
    ensures ContentFromNames(page, names) == JoinPlainText(JArr(items))
    decreases k
  {
    if k > 0 {
      assert ListEmpty(props, names[0], "rich_text");
      ContentFromNamesAt(page, props, names[1..], k - 1, items);
    }
  }

  /** The content is the in-order concatenation of the `plain_text` fields
      of the first of "文章のネタ", "テキスト", "Content", "content" with a
      non-empty `rich_text` list; empty lists are skipped. */
  lemma ContentFromProperty(page: Json, props: map<string, Json>, k: nat, items: seq<Json>)
    requires At(page, ["properties"]) == Some(JObj(props))
    requires k < |ContentNames|
    requires forall j :: 0 <= j < k ==> ListEmpty(props, ContentNames[j], "rich_text")
    requires At(page, ["properties", ContentNames[k], "rich_text"]) == Some(JArr(items))
    requires items != []
    requires forall i :: 0 <= i < |items| ==> TextItem(items[i])
    ensures ExtractContent(page) == Ok(ConcatTexts(items))
  {
    assert At(JObj(props), [ContentNames[k], "rich_text"]) == Some(JArr(items));
    assert At(props[ContentNames[k]], ["rich_text"]) == Some(JArr(items));
    ContentFromNamesAt(page, props, ContentNames, k, items);
    JoinPlainTextSpec(items);
  }

  /** With every content list empty, the content is "". */
  lemma ContentEmptyWhenNoSource(page: Json, props: map<string, Json>)
    requires At(page, ["properties"]) == Some(JObj(props))
    requires forall j :: 0 <= j < |ContentNames| ==> ListEmpty(props, ContentNames[j], "rich_text")
    ensures ExtractContent(page) == Ok("")
  {
    assert ListEmpty(props, ContentNames[0], "rich_text");
    assert ListEmpty(props, ContentNames[1], "rich_text");
    assert ListEmpty(props, ContentNames[2], "rich_text");
    assert ListEmpty(props, ContentNames[3], "rich_text");
  }

  /** On a Notion-shaped page every property read is a property object. */
  lemma PropertyOfShaped(page: Json, name: string)
    requires NotionShaped(page)
    ensures Property(page, name).Ok? && PropertyShaped(Property(page, name).value)
  {
  }

  lemma {:induction false} TitleFromNamesTotal(page: Json, names: seq<string>)
    requires NotionShaped(page)
    ensures TitleFromNames(page, names).Ok? && TitleFromNames(page, names).value.JStr?
    decreases |names|
  {
    if names != [] {
      PropertyOfShaped(page, names[0]);
      TitleFromNamesTotal(page, names[1..]);
    }
  }

  lemma {:induction false} ContentFromNamesTotal(page: Json, names: seq<string>)
    requires NotionShaped(page)
    ensures ContentFromNames(page, names).Ok?
    decreases |names|
  {
    if names != [] {
      PropertyOfShaped(page, names[0]);
      var p := Property(page, names[0]).value;
      if "rich_text" in p.fields && Truthy(p.fields["rich_text"]) {
        JoinPlainTextSpec(p.fields["rich_text"].items);
      }
      ContentFromNamesTotal(page, names[1..]);
    }
  }

  /** On a page of the shape the Notion API returns, none of the three
      helpers raises and each returns a string. */
  lemma ExtractorsTotal(page: Json)
    requires NotionShaped(page)
    ensures ExtractTitle(page).Ok? && ExtractTitle(page).value.JStr?
    ensures ExtractMode(page).Ok? && ExtractMode(page).value.JStr?
    ensures ExtractContent(page).Ok?
  {
    TitleTotal(page);
    ModeTotal(page);
    ContentFromNamesTotal(page, ContentNames);
  }

  /** On a well-shaped page the title extractor returns a string. */
  lemma TitleTotal(page: Json)
    requires NotionShaped(page)
    ensures ExtractTitle(page).Ok? && ExtractTitle(page).value.JStr?
  {
    PropertyOfShaped(page, "ID");
    TitleFromNamesTotal(page, TitleNames);
  }

  /** On a well-shaped page the mode extractor returns a string. */
  lemma ModeTotal(page: Json)
    requires NotionShaped(page)
    ensures ExtractMode(page).Ok? && ExtractMode(page).value.JStr?
  {
    PropertyOfShaped(page, "モード");
  }
}
