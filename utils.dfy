/** The helpers of `utils.py`: the filter query string, argument checks,
    attribute assembly, document shaping, the category-tree sets and the
    image MIME types. */
module Utils {
  import opened Wrappers
  import opened Json
  import opened Dicts
  import Functions

  // format_filter

  /** `format_filter`: the attribute serves as both the filter key and its
      path; the operand sits between `[value]` and the value. */
  function FormatFilter(attribute: string, value: string, operand: string): (r: string)
    ensures |r| == 32 + 3 * |attribute| + |operand| + |value|
  {
    var path := "?filter[" + attribute + "][path]=" + attribute;
    var filter := "&filter[" + attribute + "][value]" + operand;
    path + filter + value
  }

  /** The fixed parts of the query string, at offsets set by the attribute. */
  lemma FormatFilterFixed(attribute: string, value: string, operand: string)
    ensures FormatFilter(attribute, value, operand)[..8] == "?filter["
    ensures FormatFilter(attribute, value, operand)[8 + |attribute|..16 + |attribute|] == "][path]="
    ensures FormatFilter(attribute, value, operand)[16 + 2 * |attribute|..24 + 2 * |attribute|] == "&filter["
    ensures FormatFilter(attribute, value, operand)[24 + 3 * |attribute|..32 + 3 * |attribute|] == "][value]"
  {
    var n := |attribute|;
    var path := "?filter[" + attribute + "][path]=" + attribute;
    var filter := "&filter[" + attribute + "][value]" + operand;
    assert FormatFilter(attribute, value, operand) == path + filter + value;
    assert |path| == 16 + 2 * n && |filter| == 16 + n + |operand|;
    PathLayout(attribute);
    ValueLayout(attribute, operand);
    SliceLeft(path, filter, value, 0, 8);
    SliceLeft(path, filter, value, 8 + n, 16 + n);
    SliceMiddle(path, filter, value, 0, 8);
    SliceMiddle(path, filter, value, 8 + n, 16 + n);
  }

  /** The attribute three times, then the operand, then the value. */
  lemma FormatFilterFields(attribute: string, value: string, operand: string)
    ensures FormatFilter(attribute, value, operand)[8..8 + |attribute|] == attribute
    ensures FormatFilter(attribute, value, operand)[16 + |attribute|..16 + 2 * |attribute|] == attribute
    ensures FormatFilter(attribute, value, operand)[24 + 2 * |attribute|..24 + 3 * |attribute|] == attribute
    ensures FormatFilter(attribute, value, operand)[32 + 3 * |attribute|..32 + 3 * |attribute| + |operand|] == operand
    ensures FormatFilter(attribute, value, operand)[32 + 3 * |attribute| + |operand|..] == value
  {
    var n := |attribute|;
    var path := "?filter[" + attribute + "][path]=" + attribute;
    var filter := "&filter[" + attribute + "][value]" + operand;
    assert FormatFilter(attribute, value, operand) == path + filter + value;
    assert |path| == 16 + 2 * n && |filter| == 16 + n + |operand|;
    PathLayout(attribute);
    ValueLayout(attribute, operand);
    SliceLeft(path, filter, value, 8, 8 + n);
    SliceLeft(path, filter, value, 16 + n, 16 + 2 * n);
    SliceMiddle(path, filter, value, 8, 8 + n);
    SliceMiddle(path, filter, value, 16 + n, 16 + n + |operand|);
    SliceRight(path, filter, value);
  }

  lemma PathLayout(attribute: string)
    ensures ("?filter[" + attribute + "][path]=" + attribute)[0..8] == "?filter["
    ensures ("?filter[" + attribute + "][path]=" + attribute)[8..8 + |attribute|] == attribute
    ensures ("?filter[" + attribute + "][path]=" + attribute)[8 + |attribute|..16 + |attribute|] == "][path]="
    ensures ("?filter[" + attribute + "][path]=" + attribute)[16 + |attribute|..16 + 2 * |attribute|] == attribute
  {
  }

  lemma ValueLayout(attribute: string, operand: string)
    ensures ("&filter[" + attribute + "][value]" + operand)[0..8] == "&filter["
    ensures ("&filter[" + attribute + "][value]" + operand)[8..8 + |attribute|] == attribute
    ensures ("&filter[" + attribute + "][value]" + operand)[8 + |attribute|..16 + |attribute|] == "][value]"
    ensures ("&filter[" + attribute + "][value]" + operand)[16 + |attribute|..16 + |attribute| + |operand|] == operand
  {
  }

  lemma SliceLeft(x: string, y: string, z: string, i: nat, j: nat)
    requires i <= j <= |x|
    ensures (x + y + z)[i..j] == x[i..j]
  {
  }

  lemma SliceMiddle(x: string, y: string, z: string, i: nat, j: nat)
    requires i <= j <= |y|
    ensures (x + y + z)[|x| + i..|x| + j] == y[i..j]
  {
  }

  lemma SliceRight(x: string, y: string, z: string)
    ensures (x + y + z)[|x| + |y|..] == z
  {
  }

  /** Attribute, operand and value can all be read back from the query string. */
  lemma FormatFilterInjective(a1: string, v1: string, o1: string, a2: string, v2: string, o2: string)
    requires |a1| == |a2| && |o1| == |o2|
    requires FormatFilter(a1, v1, o1) == FormatFilter(a2, v2, o2)
    ensures a1 == a2 && v1 == v2 && o1 == o2
  {
    var r := FormatFilter(a1, v1, o1);
    FormatFilterFields(a1, v1, o1);
    FormatFilterFields(a2, v2, o2);
    assert a1 == r[8..8 + |a1|] == a2;
    assert o1 == r[32 + 3 * |a1|..32 + 3 * |a1| + |o1|] == o2;
    assert v1 == r[32 + 3 * |a1| + |o1|..] == v2;
  }

  // not_none, validate_object

  function NotNone(v: Value): bool
  {
    v != Null
  }

  /** `validate_object`: a str is always valid; a tuple or a list is valid
      exactly when none of its elements is `None`. */
  function ValidateObject(mandatory: Value): (r: bool)
    requires mandatory.Str? || mandatory.Arr?
    ensures mandatory.Str? ==> r
    ensures mandatory.Arr? ==> (r <==> forall i :: 0 <= i < |mandatory.items| ==> NotNone(mandatory.items[i]))
  {
    if mandatory.Str? then NotNone(mandatory) else Null !in mandatory.items
  }

  // get_localized_attribute

  /** `get_localized_attribute`: `None` stays `None`, a dict is already
      localised, anything else is wrapped under the default language. */
  function GetLocalizedAttribute(attribute: Value, defaultLanguage: string): (r: Value)
    ensures r.Null? <==> attribute.Null?
    ensures r.Null? || r.Obj?
    ensures attribute.Obj? ==> r == attribute
    ensures !attribute.Null? && !attribute.Obj? ==> Get(r.fields, defaultLanguage) == Some(attribute) && |r.fields| == 1
  {
    if attribute == Null then Null
    else if attribute.Obj? then attribute
    else
      GetAt([(defaultLanguage, attribute)], 0);
      Obj([(defaultLanguage, attribute)])
  }

  /** Localising twice is localising once. */
  lemma LocalizedIdempotent(attribute: Value, defaultLanguage: string)
    ensures GetLocalizedAttribute(GetLocalizedAttribute(attribute, defaultLanguage), defaultLanguage)
         == GetLocalizedAttribute(attribute, defaultLanguage)
  {
  }

  // build_attributes

  /** The entries whose value is not `None`, in their order. */
  function NonNull(es: Dict<Value>): (r: Dict<Value>)
    ensures forall k :: k in Keys(r) ==> k in Keys(es)
    decreases |es|
  {
    if es == [] then []
    else
      var n := |es| - 1;
      var init := NonNull(es[..n]);
      KeysAppend(init, es[n]);
      assert forall k :: k in Keys(es[..n]) ==> k in Keys(es) by {
        assert Keys(es[..n]) == Keys(es)[..n];
      }
      if es[n].1 == Null then init else init + [es[n]]
  }

  /** Dropping the `None` entries keeps a dict a dict and keeps every other lookup. */
  lemma {:induction false} NonNullGet(es: Dict<Value>, k: string)
    requires IsDict(es)
    ensures IsDict(NonNull(es))
    ensures Get(NonNull(es), k) == if Get(es, k) == Some(Null) then None else Get(es, k)
    decreases |es|
  {
    if es != [] {
      var n := |es| - 1;
      var init := NonNull(es[..n]);
      SplitLast(es);
      NonNullGet(es[..n], k);
      GetAppend(es[..n], es[n], k);
      if es[n].1 != Null {
        assert es[n].0 !in Keys(init);
        KeysAppend(init, es[n]);
        UniqueAppend(Keys(init), es[n].0);
        GetAppend(init, es[n], k);
      }
    }
  }

  /** Every value of a localised mapping, localised. */
  function Localize(fields: Dict<Value>, defaultLanguage: string): (r: Dict<Value>)
    ensures Keys(r) == Keys(fields)
    ensures forall i :: 0 <= i < |r| ==> r[i].1 == GetLocalizedAttribute(fields[i].1, defaultLanguage)
  {
    seq(|fields|, i requires 0 <= i < |fields| => (fields[i].0, GetLocalizedAttribute(fields[i].1, defaultLanguage)))
  }

  lemma LocalizeGet(fields: Dict<Value>, defaultLanguage: string, k: string)
    ensures Get(Localize(fields, defaultLanguage), k) ==
      if Get(fields, k).Some? then Some(GetLocalizedAttribute(Get(fields, k).value, defaultLanguage)) else None
  {
    var r := Localize(fields, defaultLanguage);
    assert Keys(r) == Keys(fields);
  }

  /** The entries the second loop of `build_attributes` writes: the localised
      values that are not `None`; nothing when `localized` is not a dict. */
  function LocalizedEntries(localized: Value, defaultLanguage: string): Dict<Value>
  {
    if localized.Obj? then NonNull(Localize(localized.fields, defaultLanguage)) else []
  }

  /** What `build_attributes` returns: the simple entries first, then the
      localised ones upserted over them. */
  function BuiltAttributes(simple: Dict<Value>, localized: Value, defaultLanguage: string): Dict<Value>
  {
    PutAll(PutAll([], NonNull(simple)), LocalizedEntries(localized, defaultLanguage))
  }

  /** `build_attributes`, loop by loop. */
  method BuildAttributes(simple: Dict<Value>, localized: Value, defaultLanguage: string) returns (attributes: Dict<Value>)
    ensures attributes == BuiltAttributes(simple, localized, defaultLanguage)
  {
    attributes := [];
    var i := 0;
    while i < |simple|
      invariant 0 <= i <= |simple|
      invariant attributes == PutAll([], NonNull(simple[..i]))
    {
      var key := simple[i].0;
      var value := simple[i].1;
      assert simple[..i + 1][..i] == simple[..i];
      if value != Null {
        assert NonNull(simple[..i + 1]) == NonNull(simple[..i]) + [(key, value)];
        assert (NonNull(simple[..i]) + [(key, value)])[..|NonNull(simple[..i])|] == NonNull(simple[..i]);
        attributes := Put(attributes, key, value);
      }
      i := i + 1;
    }
    assert simple[..i] == simple;
    var simpleAttributes := attributes;
    if localized.Obj? {
      var fields := localized.fields;
      var j := 0;
      while j < |fields|
        invariant 0 <= j <= |fields|
        invariant attributes == PutAll(simpleAttributes, NonNull(Localize(fields[..j], defaultLanguage)))
      {
        var key := fields[j].0;
        var locValue := GetLocalizedAttribute(fields[j].1, defaultLanguage);
        assert Localize(fields[..j + 1], defaultLanguage)[..j] == Localize(fields[..j], defaultLanguage);
        assert Localize(fields[..j + 1], defaultLanguage)[j] == (key, locValue);
        if locValue != Null {
          var prefix := NonNull(Localize(fields[..j], defaultLanguage));
          assert NonNull(Localize(fields[..j + 1], defaultLanguage)) == prefix + [(key, locValue)];
          assert (prefix + [(key, locValue)])[..|prefix|] == prefix;
          attributes := Put(attributes, key, locValue);
        }
        j := j + 1;
      }
      assert fields[..j] == fields;
    }
  }

  /** Each key of the result holds its localised value when that is not
      `None`, else its simple value when that is not `None`; no other key is
      present. */
  lemma BuiltAttributesGet(simple: Dict<Value>, localized: Value, defaultLanguage: string, k: string)
    requires IsDict(simple)
    requires localized.Obj? ==> IsDict(localized.fields)
    ensures Get(BuiltAttributes(simple, localized, defaultLanguage), k) ==
      if localized.Obj? && Get(localized.fields, k).Some? &&
         !Get(localized.fields, k).value.Null?
      then Some(GetLocalizedAttribute(Get(localized.fields, k).value, defaultLanguage))
      else if Get(simple, k).Some? && !Get(simple, k).value.Null? then Get(simple, k)
      else None
  {
    NonNullGet(simple, k);
    PutAllGet([], NonNull(simple), k);
    var first := PutAll([], NonNull(simple));
    var second := LocalizedEntries(localized, defaultLanguage);
    if localized.Obj? {
      var localizedAll := Localize(localized.fields, defaultLanguage);
      assert Keys(localizedAll) == Keys(localized.fields);
      LocalizeGet(localized.fields, defaultLanguage, k);
      NonNullGet(localizedAll, k);
      PutAllGet(first, second, k);
    }
  }

  // convert_object_to_json_str

  /** The key order of the shaped document: `type`, then `id` when given,
      `attributes`, then `relationships` when given. */
  function DocumentKeys(hasId: bool, hasRelationships: bool): seq<string>
  {
    ["type"] + (if hasId then ["id"] else []) + ["attributes"] + (if hasRelationships then ["relationships"] else [])
  }

  /** The inner `data` dict of the shaped document, in insertion order. */
  function DataFields(objectType: string, attributes: Value, objectId: Value, relationships: Value): Dict<Value>
  {
    [("type", Str(objectType))]
    + (if objectId != Null then [("id", Str(ToString(objectId)))] else [])
    + [("attributes", attributes)]
    + (if relationships != Null then [("relationships", relationships)] else [])
  }

  /** `convert_object_to_json_str`, without the final serialisation: the
      `{"data": {...}}` object it dumps, built by successive insertions. */
  method ConvertObjectToJson(objectType: string, attributes: Value, objectId: Value, relationships: Value)
    returns (r: Value)
    ensures r == Obj([("data", Obj(DataFields(objectType, attributes, objectId, relationships)))])
  {
    ghost var idPart := if objectId != Null then [("id", Str(ToString(objectId)))] else [];
    ghost var relationshipsPart := if relationships != Null then [("relationships", relationships)] else [];
    var data: Dict<Value> := [("type", Str(objectType))];
    if objectId != Null {
      PutFresh(data, "id", Str(ToString(objectId)));
      data := Put(data, "id", Str(ToString(objectId)));
    }
    assert data == [("type", Str(objectType))] + idPart;
    PutFresh(data, "attributes", attributes);
    data := Put(data, "attributes", attributes);
    ghost var before := data;
    if relationships != Null {
      PutFresh(data, "relationships", relationships);
      data := Put(data, "relationships", relationships);
    }
    assert data == before + relationshipsPart;
    r := Obj([("data", Obj(data))]);
  }

  /** The shaped document is a dict whose keys are `type`, `id` when given,
      `attributes`, and `relationships` when given, in that order. */
  lemma DataFieldsKeys(objectType: string, attributes: Value, objectId: Value, relationships: Value)
    ensures Keys(DataFields(objectType, attributes, objectId, relationships)) == DocumentKeys(objectId != Null, relationships != Null)
    ensures IsDict(DataFields(objectType, attributes, objectId, relationships))
  {
    var d := DataFields(objectType, attributes, objectId, relationships);
    var ks := DocumentKeys(objectId != Null, relationships != Null);
    if objectId != Null && relationships != Null {
      assert ks == ["type", "id", "attributes", "relationships"];
    } else if objectId != Null {
      assert ks == ["type", "id", "attributes"];
    } else if relationships != Null {
      assert ks == ["type", "attributes", "relationships"];
    } else {
      assert ks == ["type", "attributes"];
    }
    assert Keys(d) == ks;
  }

  /** Each part of the shaped document is where it is expected: the type, the
      id as a str when given, the attributes, the relationships when given. */
  lemma DataFieldsFacts(objectType: string, attributes: Value, objectId: Value, relationships: Value)
    ensures IsDict(DataFields(objectType, attributes, objectId, relationships))
    ensures Keys(DataFields(objectType, attributes, objectId, relationships)) == DocumentKeys(objectId != Null, relationships != Null)
    ensures Get(DataFields(objectType, attributes, objectId, relationships), "type") == Some(Str(objectType))
    ensures Get(DataFields(objectType, attributes, objectId, relationships), "id") ==
      if objectId != Null then Some(Str(ToString(objectId))) else None
    ensures Get(DataFields(objectType, attributes, objectId, relationships), "attributes") == Some(attributes)
    ensures Get(DataFields(objectType, attributes, objectId, relationships), "relationships") ==
      if relationships != Null then Some(relationships) else None
  {
    DataFieldsKeys(objectType, attributes, objectId, relationships);
    var d := DataFields(objectType, attributes, objectId, relationships);
    GetAt(d, 0);
    var a := if objectId != Null then 2 else 1;
    GetAt(d, a);
    if objectId != Null {
      GetAt(d, 1);
    }
    if relationships != Null {
      GetAt(d, a + 1);
    }
  }

  // all_categories_without_children, all_categories_without_parents

  /** What the category walks read from a category of the API: its `id`,
      and the `id` under `relationships.parent.data`, `None` for a root. */
  datatype CategoryRecord = CategoryRecord(id: Value, parent: Option<Value>)

  /** The parent ids the first loop of `all_categories_without_children` collects. */
  ghost function ParentIds(categories: seq<CategoryRecord>): set<Value>
  {
    set j | 0 <= j < |categories| && categories[j].parent.Some? :: categories[j].parent.value
  }

  /** `all_categories_without_children`: exactly the ids of the categories
      that are no category's parent. */
  method AllCategoriesWithoutChildren(categories: seq<CategoryRecord>) returns (r: set<Value>)
    ensures forall x :: x in r <==>
      (exists i :: 0 <= i < |categories| && categories[i].id == x) &&
      (forall j :: 0 <= j < |categories| ==> categories[j].parent != Some(x))
  {
    var parentIds: set<Value> := {};
    var i := 0;
    while i < |categories|
      invariant 0 <= i <= |categories|
      invariant parentIds == ParentIds(categories[..i])
    {
      assert categories[..i + 1][..i] == categories[..i];
      assert categories[..i + 1][i] == categories[i];
      if categories[i].parent.Some? {
        parentIds := parentIds + {categories[i].parent.value};
      }
      i := i + 1;
    }
    assert categories[..i] == categories;
    r := {};
    i := 0;
    while i < |categories|
      invariant 0 <= i <= |categories|
      invariant forall x :: x in r <==>
        (exists j :: 0 <= j < i && categories[j].id == x) && x !in parentIds
    {
      if categories[i].id !in parentIds {
        r := r + {categories[i].id};
      }
      i := i + 1;
    }
    forall x
      ensures x in parentIds <==> exists j :: 0 <= j < |categories| && categories[j].parent == Some(x)
    {
      if x in parentIds {
        var j :| 0 <= j < |categories| && categories[j].parent.Some? && categories[j].parent.value == x;
      }
    }
  }

  /** `all_categories_without_parents`: exactly the ids of the root categories. */
  method AllCategoriesWithoutParents(categories: seq<CategoryRecord>) returns (r: set<Value>)
    ensures forall x :: x in r <==> exists i :: 0 <= i < |categories| && categories[i].id == x && categories[i].parent.None?
  {
    r := {};
    var i := 0;
    while i < |categories|
      invariant 0 <= i <= |categories|
      invariant forall x :: x in r <==> exists j :: 0 <= j < i && categories[j].id == x && categories[j].parent.None?
    {
      if categories[i].parent.None? {
        r := r + {categories[i].id};
      }
      i := i + 1;
    }
  }

  /** The `movables` of `move_all_main_categories_into_common_category`: the
      root categories other than the main category, compared as str. */
  method Movables(categories: seq<CategoryRecord>, mainCat: Value) returns (r: set<Value>)
    ensures forall x :: x in r <==>
      x != Str(ToString(mainCat)) && exists i :: 0 <= i < |categories| && categories[i].id == x && categories[i].parent.None?
  {
    var roots := AllCategoriesWithoutParents(categories);
    r := set pid | pid in roots && pid != Str(ToString(mainCat));
  }

  // get_mime

  /** The extension table of `get_mime`. */
  const Mimes: Dict<string> := [
    ("jpg", "image/jpeg"), ("jpeg", "image/jpeg"), ("png", "image/png"), ("gif", "image/gif"), ("webp", "image/webp")]

  /** `file.split(".")[-1]`: the text after the last dot, or the whole name. */
  function Extension(file: string): string
  {
    var pieces := Functions.Split(file, '.');
    pieces[|pieces| - 1]
  }

  /** `get_mime`: `None` is the KeyError of an extension not in the table.
      Each allowed extension is an image type, `jpg` being written `jpeg`. */
  function GetMime(file: string): (r: Option<string>)
    ensures r.Some? <==> Extension(file) in ["jpg", "jpeg", "png", "gif", "webp"]
    ensures r.Some? ==> r.value == "image/" + (if Extension(file) == "jpg" then "jpeg" else Extension(file))
  {
    MimesGet(Extension(file));
    Get(Mimes, Extension(file))
  }

  /** The last piece of a split is what follows the last separator. */
  lemma {:induction false} SplitLastPiece(s: string, c: char, ext: string)
    requires c !in ext
    ensures |Functions.Split(s + [c] + ext, c)| >= 2
    ensures Functions.Split(s + [c] + ext, c)[|Functions.Split(s + [c] + ext, c)| - 1] == ext
    decreases |s|
  {
    var t := s + [c] + ext;
    if |s| == 0 {
      assert t == [c] + ext && t[1..] == ext;
      Functions.SplitPlain(ext, c, "");
      assert ext + "" == ext;
      assert Functions.Split("", c) == [""];
      assert Functions.Split(ext, c) == [ext];
    } else {
      assert t[0] == s[0] && t[1..] == s[1..] + [c] + ext;
      SplitLastPiece(s[1..], c, ext);
      var rest := Functions.Split(t[1..], c);
      if t[0] == c {
        assert Functions.Split(t, c) == [""] + rest;
      } else {
        assert Functions.Split(t, c) == [[t[0]] + rest[0]] + rest[1..];
      }
    }
  }

  /** A file named `name.ext`, with no dot in `ext`, has a MIME type exactly
      when `ext` is one of the five lower-case extensions. */
  lemma GetMimeOf(name: string, ext: string)
    requires '.' !in ext
    ensures GetMime(name + "." + ext) ==
      if ext == "jpg" || ext == "jpeg" then Some("image/jpeg")
      else if ext == "png" then Some("image/png")
      else if ext == "gif" then Some("image/gif")
      else if ext == "webp" then Some("image/webp")
      else None
  {
    SplitLastPiece(name, '.', ext);
    assert Extension(name + "." + ext) == ext;
    MimesGet(ext);
  }

  /** The table of `get_mime`, looked up by extension. */
  lemma MimesGet(ext: string)
    ensures Get(Mimes, ext) ==
      if ext == "jpg" || ext == "jpeg" then Some("image/jpeg")
      else if ext == "png" then Some("image/png")
      else if ext == "gif" then Some("image/gif")
      else if ext == "webp" then Some("image/webp")
      else None
  {
    var ks := Keys(Mimes);
    assert ks == ["jpg", "jpeg", "png", "gif", "webp"];
    if ext == "jpg" {
      IndexOfIs(ks, ext, 0);
    } else if ext == "jpeg" {
      IndexOfIs(ks, ext, 1);
    } else if ext == "png" {
      IndexOfIs(ks, ext, 2);
    } else if ext == "gif" {
      IndexOfIs(ks, ext, 3);
    } else if ext == "webp" {
      IndexOfIs(ks, ext, 4);
    } else {
      assert ext !in ks;
    }
  }

  /** An upper-case extension fails the lookup. */
  lemma GetMimeUpperCase()
    ensures GetMime("photo.JPG") == None
  {
    GetMimeOf("photo", "JPG");
    assert "photo" + "." + "JPG" == "photo.JPG";
  }
}
