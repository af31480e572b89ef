/** The JSON:API document builder: one mutable resource document (type, optional
    id, attributes, optional relationships container) and the mandatory
    attribute and relationship names a resource type checks before it is built. */
module Builder {
  import opened Wrappers
  import opened Json
  import opened Dicts

  /** `{"type": ..., "id": ...}`, one end of a relationship. */
  datatype ResourceRef = ResourceRef(resourceType: string, id: Value)

  /** The `data` of a relationship: one reference or an ordered list of them. */
  datatype Linkage = ToOne(ref: ResourceRef) | ToMany(refs: seq<ResourceRef>)

  /** What `build` serialises: the `data` object of the request body. A missing
      `id` or `relationships` key is `None`. */
  datatype Document = Document(
    resourceType: string,
    id: Option<Value>,
    attributes: Dict<Value>,
    relationships: Option<Dict<Linkage>>)

  /** The exceptions building can raise: the two ValueErrors of the mandatory
      check, a KeyError for a dict lookup of a missing key, and the TypeError
      of a `str.join` over an item that is not a str. */
  datatype BuildError =
    | MissingAttribute(name: string)
    | MissingRelationship(name: string)
    | KeyError(key: string)
    | TypeError(argument: string)

  /** What a Builder subclass passes to the base constructor. `None` is a
      subclass that declares no mandatory names of that kind. */
  datatype Spec = Spec(
    typeName: string,
    mandatoryAttributes: Option<seq<string>>,
    mandatoryRelationships: Option<seq<string>>)

  const ProductBuilder := Spec("products", Some(["name", "slug"]), Some(["categories"]))
  const CategoryBuilder := Spec("categories", Some(["name", "slug"]), None)
  const CustomerBuilder := Spec("customers",
    Some(["name", "lastname", "email", "address_address", "address_zipcode", "address_city", "address_country"]),
    None)
  const ProductAttributeBuilder := Spec("product-attributes", Some(["option_values_price"]),
    Some(["product", "product-option", "product-option-value"]))
  const ProductVariantBuilder := Spec("product-variants", None, Some(["product", "product-attributes"]))
  const ProductSpecialBuilder := Spec("product-specials", Some(["specials_price", "status"]), Some(["product"]))
  const ProductReviewBuilder := Spec("product-reviews", Some(["name", "rating", "review"]), Some(["product", "customer"]))
  const ProductOptionBuilder := Spec("product-options", Some(["name", "track_stock"]), None)
  const ProductSuboptionBuilder := Spec("product-suboptions", Some(["name"]), Some(["product-option"]))
  const ProductOptionValueBuilder := Spec("product-option-values", Some(["name"]), Some(["product-options"]))
  const ProductPropertyBuilder := Spec("product_properties", None,
    Some(["product", "product-property-option", "product-property-value"]))
  const ProductPropertyOptionBuilder := Spec("product-property-options", Some(["name", "language_code"]), None)
  const ProductPropertyValueBuilder := Spec("product-property-values", Some(["name", "language_code"]), None)
  const ProductTagBuilder := Spec("product-tags", Some(["key", "value"]), Some(["product"]))
  const CustomerGroupPriceBuilder := Spec("product-customer-group-prices", Some(["price"]),
    Some(["product", "customer-group"]))
  const AttributeCustomerGroupPriceBuilder := Spec("product-attribute-customer-group-prices",
    Some(["price", "price_prefix"]),
    Some(["product", "product-option", "product-option-value", "customer-group"]))
  const ManufacturerBuilder := Spec("manufacturers", Some(["name", "slug"]), None)
  const DiscountBuilder := Spec("discounts", Some(["name", "code", "value"]), None)
  const TaxClassBuilder := Spec("tax-classes", Some(["tax_rate", "title", "description"]), None)
  const RedirectBuilder := Spec("redirects", Some(["code", "scope", "redirect_from", "redirect_to"]), None)

  /** The customer builder's back-fill table: target attribute, then the
      attribute it copies when the target holds `None`. */
  const Replacements: seq<(string, string)> := [
    ("address_name", "name"),
    ("address_lastname", "lastname"),
    ("billing_address_name", "name"),
    ("billing_address_lastname", "lastname"),
    ("billing_address_company", "address_company"),
    ("billing_address_company_co", "address_company_co"),
    ("billing_address_company_number", "address_company_number"),
    ("billing_address_address", "address_address"),
    ("billing_address_zipcode", "address_zipcode"),
    ("billing_address_city", "address_city"),
    ("billing_address_country", "address_country")
  ]

  /** The list comprehension of `set_relationship_from_list`: one reference per id. */
  function Refs(relationshipType: string, ids: seq<Value>): seq<ResourceRef>
  {
    seq(|ids|, i requires 0 <= i < |ids| => ResourceRef(relationshipType, ids[i]))
  }

  function OrEmpty(relationships: Option<Dict<Linkage>>): Dict<Linkage>
  {
    if relationships.Some? then relationships.value else []
  }

  function SkipNames(skip: Option<seq<string>>): seq<string>
  {
    if skip.Some? then skip.value else []
  }

  /** The first of `names` that is not a key, in the order the check visits them. */
  function FirstMissing(names: seq<string>, keys: seq<string>): (r: Option<string>)
    ensures r.None? <==> forall n :: n in names ==> n in keys
    ensures r.Some? ==> r.value in names && r.value !in keys
  {
    if names == [] then None
    else if names[0] !in keys then Some(names[0])
    else FirstMissing(names[1..], keys)
  }

  /** The name reported is the first missing one: every name before it is a key. */
  lemma {:induction false} FirstMissingIsFirst(names: seq<string>, keys: seq<string>)
    requires FirstMissing(names, keys).Some?
    ensures forall j :: 0 <= j < IndexOf(names, FirstMissing(names, keys).value) ==> names[j] in keys
  {
    if names[0] in keys {
      var r := FirstMissing(names[1..], keys);
      FirstMissingIsFirst(names[1..], keys);
      assert names[1..][IndexOf(names[1..], r.value)] == r.value;
      IndexOfIs(names, r.value, 1 + IndexOf(names[1..], r.value));
      forall j | 0 < j < IndexOf(names, r.value)
        ensures names[j] in keys
      {
        assert names[j] == names[1..][j - 1];
      }
    }
  }

  /** One step of the check: the first missing name from position `i` on. */
  lemma FirstMissingStep(names: seq<string>, keys: seq<string>, i: nat)
    requires i < |names|
    ensures FirstMissing(names[i..], keys) ==
      if names[i] in keys then FirstMissing(names[i + 1..], keys) else Some(names[i])
  {
    assert names[i..][0] == names[i] && names[i..][1..] == names[i + 1..];
  }

  /** The mandatory check of `build`, as a value: the error it raises, if any.
      Attributes are checked first; only keys are looked at, never values. */
  function MandatoryFailure(
    mandatoryAttributes: Option<seq<string>>,
    mandatoryRelationships: Option<seq<string>>,
    attributes: Dict<Value>,
    relationships: Option<Dict<Linkage>>): (r: Option<BuildError>)
    ensures r.None? <==>
      && (mandatoryAttributes.Some? ==> forall n :: n in mandatoryAttributes.value ==> n in Keys(attributes))
      && (mandatoryRelationships.Some? ==>
            forall n :: n in mandatoryRelationships.value ==>
              relationships.Some? && n in Keys(relationships.value))
    ensures r.Some? && r.value.MissingAttribute? ==>
      mandatoryAttributes.Some? && r.value.name in mandatoryAttributes.value && r.value.name !in Keys(attributes)
    ensures r.Some? && !r.value.MissingAttribute? ==>
      mandatoryAttributes.Some? ==> forall n :: n in mandatoryAttributes.value ==> n in Keys(attributes)
    ensures r.Some? && r.value.KeyError? ==>
      r.value.key == "relationships" && relationships.None? && mandatoryRelationships.Some? && mandatoryRelationships.value != []
    ensures r.Some? && r.value.MissingRelationship? ==>
      mandatoryRelationships.Some? && r.value.name in mandatoryRelationships.value &&
      relationships.Some? && r.value.name !in Keys(relationships.value)
  {
    var attributeFailure := AttributeFailure(mandatoryAttributes, attributes);
    if attributeFailure.Some? then attributeFailure
    else
      if mandatoryRelationships.Some? && mandatoryRelationships.value != [] then
        assert mandatoryRelationships.value[0] in mandatoryRelationships.value;
        RelationshipFailure(mandatoryRelationships, relationships)
      else RelationshipFailure(mandatoryRelationships, relationships)
  }

  /** The first loop of the mandatory check. */
  function AttributeFailure(mandatoryAttributes: Option<seq<string>>, attributes: Dict<Value>): Option<BuildError>
  {
    if mandatoryAttributes.Some? && FirstMissing(mandatoryAttributes.value, Keys(attributes)).Some? then
      Some(MissingAttribute(FirstMissing(mandatoryAttributes.value, Keys(attributes)).value))
    else None
  }

  /** The second loop of the mandatory check. */
  function RelationshipFailure(mandatoryRelationships: Option<seq<string>>, relationships: Option<Dict<Linkage>>): Option<BuildError>
  {
    if mandatoryRelationships.Some? && mandatoryRelationships.value != [] && relationships.None? then
      Some(KeyError("relationships"))
    else if mandatoryRelationships.Some? && relationships.Some?
         && FirstMissing(mandatoryRelationships.value, Keys(relationships.value)).Some? then
      Some(MissingRelationship(FirstMissing(mandatoryRelationships.value, Keys(relationships.value)).value))
    else None
  }

  /** The result of the back-fill pass: the attributes as the pass left them,
      and the KeyError that stopped it, if one did. */
  datatype Filled = Filled(attributes: Dict<Value>, error: Option<BuildError>)

  /** The first pass of `validate_customer`: for each (target, source) pair in
      order, a target holding `None` receives the source's value. Looking up a
      missing target or source raises KeyError and leaves the earlier writes. */
  function BackFill(attributes: Dict<Value>, pairs: seq<(string, string)>): Filled
    decreases |pairs|
  {
    if pairs == [] then Filled(attributes, None)
    else
      var target := pairs[0].0;
      var source := pairs[0].1;
      match Get(attributes, target)
      case None => Filled(attributes, Some(KeyError(target)))
      case Some(v) =>
        if v != Null then BackFill(attributes, pairs[1..])
        else
          match Get(attributes, source)
          case None => Filled(attributes, Some(KeyError(source)))
          case Some(w) => BackFill(Put(attributes, target, w), pairs[1..])
  }

  /** The second pass of `validate_customer`'s conversion for one value: every
      value that is neither a str nor `None` becomes `str(value)`. */
  function Stringify(v: Value): Value
  {
    if v.Str? || v.Null? then v else Str(ToString(v))
  }

  function StringifyAll(attributes: Dict<Value>): Dict<Value>
  {
    seq(|attributes|, i requires 0 <= i < |attributes| => (attributes[i].0, Stringify(attributes[i].1)))
  }

  function SourceFor(pairs: seq<(string, string)>, target: string): Option<string>
  {
    if pairs == [] then None
    else if pairs[0].0 == target then Some(pairs[0].1)
    else SourceFor(pairs[1..], target)
  }

  predicate IsTarget(pairs: seq<(string, string)>, k: string)
  {
    exists i :: 0 <= i < |pairs| && pairs[i].0 == k
  }

  /** Each target appears once and no target is read as a source. */
  predicate WellFormedPairs(pairs: seq<(string, string)>)
  {
    && (forall i, j :: 0 <= i < j < |pairs| ==> pairs[i].0 != pairs[j].0)
    && (forall i, j :: 0 <= i < |pairs| && 0 <= j < |pairs| ==> pairs[i].1 != pairs[j].0)
  }

  const ReplacementTargets: seq<string> := ["address_name", "address_lastname", "billing_address_name",
    "billing_address_lastname", "billing_address_company", "billing_address_company_co",
    "billing_address_company_number", "billing_address_address", "billing_address_zipcode",
    "billing_address_city", "billing_address_country"]

  lemma ReplacementTargetsDistinct()
    ensures forall i, j :: 0 <= i < j < |Replacements| ==> Replacements[i].0 != Replacements[j].0
  {
    assert forall i :: 0 <= i < |Replacements| ==> Replacements[i].0 == ReplacementTargets[i];
    assert Unique(ReplacementTargets);
  }

  lemma ReplacementSourcesNotTargets()
    ensures forall i, j :: 0 <= i < |Replacements| && 0 <= j < |Replacements| ==> Replacements[i].1 != Replacements[j].0
  {
    var sources := ["name", "lastname", "address_company", "address_company_co", "address_company_number",
      "address_address", "address_zipcode", "address_city", "address_country"];
    assert forall i :: 0 <= i < |Replacements| ==> Replacements[i].0 in ReplacementTargets;
    assert forall i :: 0 <= i < |Replacements| ==> Replacements[i].1 in sources;
    assert forall s :: s in sources ==> s !in ReplacementTargets;
  }

  /** The customer table is well formed: eleven distinct targets, none of them a source. */
  lemma ReplacementsWellFormed()
    ensures WellFormedPairs(Replacements) && |Replacements| == 11
  {
    ReplacementTargetsDistinct();
    ReplacementSourcesNotTargets();
  }

  lemma {:induction false} BackFillKeys(attributes: Dict<Value>, pairs: seq<(string, string)>)
    ensures Keys(BackFill(attributes, pairs).attributes) == Keys(attributes)
    ensures IsDict(attributes) ==> IsDict(BackFill(attributes, pairs).attributes)
    decreases |pairs|
  {
    if pairs != [] {
      var target := pairs[0].0;
      var source := pairs[0].1;
      if Get(attributes, target).Some? {
        if Get(attributes, target).value != Null {
          BackFillKeys(attributes, pairs[1..]);
        } else if Get(attributes, source).Some? {
          BackFillKeys(Put(attributes, target, Get(attributes, source).value), pairs[1..]);
        }
      }
    }
  }

  /** The back-fill raises no KeyError when every target and every source is an attribute. */
  lemma {:induction false} BackFillSucceeds(attributes: Dict<Value>, pairs: seq<(string, string)>)
    requires forall i :: 0 <= i < |pairs| ==> pairs[i].0 in Keys(attributes) && pairs[i].1 in Keys(attributes)
    ensures BackFill(attributes, pairs).error.None?
    decreases |pairs|
  {
    if pairs != [] {
      var target := pairs[0].0;
      var source := pairs[0].1;
      assert pairs[0].0 in Keys(attributes) && pairs[0].1 in Keys(attributes);
      if Get(attributes, target).value != Null {
        BackFillSucceeds(attributes, pairs[1..]);
      } else {
        var next := Put(attributes, target, Get(attributes, source).value);
        assert Keys(next) == Keys(attributes);
        BackFillSucceeds(next, pairs[1..]);
      }
    }
  }

  /** What a successful back-fill leaves under each key: a target that held
      `None` holds its source's value, every other attribute is unchanged. */
  lemma {:induction false} BackFillGet(attributes: Dict<Value>, pairs: seq<(string, string)>, k: string)
    requires WellFormedPairs(pairs)
    requires BackFill(attributes, pairs).error.None?
    ensures Get(BackFill(attributes, pairs).attributes, k) ==
      match SourceFor(pairs, k)
      case None => Get(attributes, k)
      case Some(s) => if Get(attributes, k) == Some(Null) then Get(attributes, s) else Get(attributes, k)
    decreases |pairs|
  {
    if pairs != [] {
      var target := pairs[0].0;
      var source := pairs[0].1;
      var rest := pairs[1..];
      assert WellFormedPairs(rest);
      var v := Get(attributes, target).value;
      var next := if v != Null then attributes else Put(attributes, target, Get(attributes, source).value);
      BackFillGet(next, rest, k);
      if k == target {
        assert SourceFor(rest, k).None? by { SourceForAbsent(rest, k); }
      } else if SourceFor(rest, k).Some? {
        var s := SourceFor(rest, k).value;
        SourceForIsSource(rest, k);
        assert s != target by {
          var i :| 0 <= i < |rest| && rest[i] == (k, s);
          assert pairs[i + 1].1 != pairs[0].0;
        }
      }
    }
  }

  lemma {:induction false} SourceForAbsent(pairs: seq<(string, string)>, k: string)
    requires forall i :: 0 <= i < |pairs| ==> pairs[i].0 != k
    ensures SourceFor(pairs, k).None?
    decreases |pairs|
  {
    if pairs != [] {
      SourceForAbsent(pairs[1..], k);
    }
  }

  lemma {:induction false} SourceForIsSource(pairs: seq<(string, string)>, k: string)
    requires SourceFor(pairs, k).Some?
    ensures exists i :: 0 <= i < |pairs| && pairs[i] == (k, SourceFor(pairs, k).value)
    decreases |pairs|
  {
    if pairs[0].0 != k {
      SourceForIsSource(pairs[1..], k);
      var i :| 0 <= i < |pairs[1..]| && pairs[1..][i] == (k, SourceFor(pairs, k).value);
      assert pairs[i + 1] == (k, SourceFor(pairs, k).value);
    }
  }

  /** After the conversion pass every value is a str or `None`, strs and
      `None` are untouched, and each key keeps its position. */
  lemma StringifyAllGet(attributes: Dict<Value>, k: string)
    ensures Keys(StringifyAll(attributes)) == Keys(attributes)
    ensures Get(StringifyAll(attributes), k) ==
      if Get(attributes, k).Some? then Some(Stringify(Get(attributes, k).value)) else None
    ensures forall i :: 0 <= i < |attributes| ==>
      StringifyAll(attributes)[i].1.Str? || StringifyAll(attributes)[i].1.Null?
  {
    assert Keys(StringifyAll(attributes)) == Keys(attributes);
  }

  /** In a dict, assigning to a key that is present rewrites its own entry. */
  lemma PutAt(m: Dict<Value>, j: nat, v: Value)
    requires IsDict(m) && j < |m|
    ensures Put(m, m[j].0, v) == m[j := (m[j].0, v)]
  {
    IndexOfIs(Keys(m), m[j].0, j);
  }

  /** One entry of `set_all_attributes`: a skipped key changes nothing, any
      other key is upserted. */
  lemma SetAllStep(base: Dict<Value>, entries: Dict<Value>, skip: seq<string>, i: nat)
    requires i < |entries|
    ensures PutAll(base, Without(entries[..i + 1], skip)) ==
      if entries[i].0 in skip then PutAll(base, Without(entries[..i], skip))
      else Put(PutAll(base, Without(entries[..i], skip)), entries[i].0, entries[i].1)
  {
    var done := Without(entries[..i], skip);
    assert entries[..i + 1][..i] == entries[..i];
    if entries[i].0 !in skip {
      assert Without(entries[..i + 1], skip) == done + [entries[i]];
      assert (done + [entries[i]])[..|done|] == done;
    }
  }

  /** The loop both halves of `validate_mandatory_fields` run: the first
      name that is not a key. */
  method FindMissing(names: seq<string>, keys: seq<string>) returns (missing: Option<string>)
    ensures missing == FirstMissing(names, keys)
  {
    var i := 0;
    while i < |names|
      invariant 0 <= i <= |names|
      invariant FirstMissing(names, keys) == FirstMissing(names[i..], keys)
    {
      FirstMissingStep(names, keys, i);
      if names[i] !in keys {
        return Some(names[i]);
      }
      i := i + 1;
    }
    assert names[i..] == [];
    return None;
  }

  /** `Builder`, the base class every resource builder derives from. */
  class Builder {
    const typeName: string
    const mandatoryAttributes: Option<seq<string>>
    const mandatoryRelationships: Option<seq<string>>
    var id: Option<Value>
    var attributes: Dict<Value>
    var relationships: Option<Dict<Linkage>>

    ghost predicate Valid()
      reads this
    {
      IsDict(attributes) && (relationships.Some? ==> IsDict(relationships.value))
    }

    /** The document `build` would serialise now. */
    function Doc(): Document
      reads this
    {
      Document(typeName, id, attributes, relationships)
    }

    constructor (typeName: string, mandatoryAttributes: Option<seq<string>>, mandatoryRelationships: Option<seq<string>>)
      ensures Valid()
      ensures this.typeName == typeName
      ensures this.mandatoryAttributes == mandatoryAttributes
      ensures this.mandatoryRelationships == mandatoryRelationships
      ensures id == None && attributes == [] && relationships == None
    {
      this.typeName := typeName;
      this.mandatoryAttributes := mandatoryAttributes;
      this.mandatoryRelationships := mandatoryRelationships;
      id := None;
      attributes := [];
      relationships := None;
    }

    /** The constructor of a subclass, which fixes the type and the mandatory names. */
    constructor FromSpec(spec: Spec)
      ensures Valid()
      ensures typeName == spec.typeName
      ensures mandatoryAttributes == spec.mandatoryAttributes
      ensures mandatoryRelationships == spec.mandatoryRelationships
      ensures id == None && attributes == [] && relationships == None
    {
      typeName := spec.typeName;
      mandatoryAttributes := spec.mandatoryAttributes;
      mandatoryRelationships := spec.mandatoryRelationships;
      id := None;
      attributes := [];
      relationships := None;
    }

    /** `set_id`: `None` leaves the document as it is. */
    method SetId(itemId: Value)
      modifies this
      ensures id == if itemId == Null then old(id) else Some(itemId)
      ensures attributes == old(attributes) && relationships == old(relationships)
    {
      if itemId != Null {
        id := Some(itemId);
      }
    }

    /** `set_attribute`: an upsert, whatever the value (`None` included). */
    method SetAttribute(name: string, value: Value)
      requires Valid()
      modifies this
      ensures Valid()
      ensures attributes == Put(old(attributes), name, value)
      ensures id == old(id) && relationships == old(relationships)
    {
      attributes := Put(attributes, name, value);
    }

    /** `set_all_attributes`: upserts every entry whose key is not in `skip`,
        in the mapping's order. */
    method SetAllAttributes(entries: Dict<Value>, skip: Option<seq<string>>)
      requires Valid()
      modifies this
      ensures Valid()
      ensures attributes == PutAll(old(attributes), Without(entries, SkipNames(skip)))
      ensures id == old(id) && relationships == old(relationships)
    {
      ghost var base := attributes;
      var names := SkipNames(skip);
      var i := 0;
      while i < |entries|
        invariant 0 <= i <= |entries|
        invariant Valid()
        invariant attributes == PutAll(base, Without(entries[..i], names))
        invariant id == old(id) && relationships == old(relationships)
      {
        SetAllStep(base, entries, names, i);
        if entries[i].0 !in names {
          SetAttribute(entries[i].0, entries[i].1);
        }
        i := i + 1;
      }
      assert entries[..i] == entries;
    }

    /** `validate_relationships`: creates the container only when it is missing. */
    method ValidateRelationships()
      requires Valid()
      modifies this
      ensures Valid()
      ensures relationships == Some(OrEmpty(old(relationships)))
      ensures id == old(id) && attributes == old(attributes)
    {
      if relationships.None? {
        relationships := Some([]);
      }
    }

    /** `set_relationship`: stores one `{type, id}`; other relationships stay. */
    method SetRelationship(relationshipName: string, relationshipType: string, idValue: Value)
      requires Valid()
      modifies this
      ensures Valid()
      ensures relationships == Some(Put(OrEmpty(old(relationships)), relationshipName,
                                        ToOne(ResourceRef(relationshipType, idValue))))
      ensures id == old(id) && attributes == old(attributes)
    {
      ValidateRelationships();
      relationships := Some(Put(relationships.value, relationshipName, ToOne(ResourceRef(relationshipType, idValue))));
    }

    /** `set_relationship_from_list`: stores one `{type, id}` per id, in order,
        duplicates kept; other relationships stay. */
    method SetRelationshipFromList(relationshipName: string, relationshipType: string, ids: seq<Value>)
      requires Valid()
      modifies this
      ensures Valid()
      ensures relationships == Some(Put(OrEmpty(old(relationships)), relationshipName,
                                        ToMany(Refs(relationshipType, ids))))
      ensures id == old(id) && attributes == old(attributes)
    {
      ValidateRelationships();
      relationships := Some(Put(relationships.value, relationshipName, ToMany(Refs(relationshipType, ids))));
    }

    /** `validate_mandatory_fields`: the first missing name, attributes first.
        With mandatory relationships declared and no container, the lookup of
        the container itself raises KeyError. */
    method ValidateMandatoryFields() returns (failure: Option<BuildError>)
      ensures failure == MandatoryFailure(mandatoryAttributes, mandatoryRelationships, attributes, relationships)
    {
      failure := CheckMandatoryAttributes();
      if failure.None? {
        failure := CheckMandatoryRelationships();
      }
    }

    /** The attribute loop of `validate_mandatory_fields`. */
    method CheckMandatoryAttributes() returns (failure: Option<BuildError>)
      ensures failure == AttributeFailure(mandatoryAttributes, attributes)
    {
      failure := None;
      if mandatoryAttributes.Some? {
        var missing := FindMissing(mandatoryAttributes.value, Keys(attributes));
        if missing.Some? {
          failure := Some(MissingAttribute(missing.value));
        }
      }
    }

    /** The relationship half of `validate_mandatory_fields`. The container is
        looked up on the first pass of the loop, so a missing container raises
        only when the list of names is not empty. */
    method CheckMandatoryRelationships() returns (failure: Option<BuildError>)
      ensures failure == RelationshipFailure(mandatoryRelationships, relationships)
    {
      failure := None;
      if mandatoryRelationships.Some? && mandatoryRelationships.value != [] {
        if relationships.None? {
          failure := Some(KeyError("relationships"));
        } else {
          var missing := FindMissing(mandatoryRelationships.value, Keys(relationships.value));
          if missing.Some? {
            failure := Some(MissingRelationship(missing.value));
          }
        }
      }
    }

    /** `build`: the document, once every mandatory name is a key. */
    method Build() returns (r: Result<Document, BuildError>)
      ensures r.Success? <==> MandatoryFailure(mandatoryAttributes, mandatoryRelationships, attributes, relationships).None?
      ensures r.Success? ==> r.value == Doc()
      ensures r.Failure? ==> MandatoryFailure(mandatoryAttributes, mandatoryRelationships, attributes, relationships) == Some(r.error)
    {
      var failure := ValidateMandatoryFields();
      if failure.Some? {
        return Failure(failure.value);
      }
      return Success(Document(typeName, id, attributes, relationships));
    }

    /** `CustomerBuilder.validate_customer`: the back-fill pass over the
        replacement table, then the conversion of every non-str, non-`None`
        value to its str form. A KeyError in the first pass ends it early. */
    method ValidateCustomer() returns (failure: Option<BuildError>)
      requires Valid()
      modifies this
      ensures Valid()
      ensures failure == BackFill(old(attributes), Replacements).error
      ensures attributes ==
        if failure.Some? then BackFill(old(attributes), Replacements).attributes
        else StringifyAll(BackFill(old(attributes), Replacements).attributes)
      ensures id == old(id) && relationships == old(relationships)
    {
      failure := BackFillAttributes(Replacements);
      if failure.None? {
        StringifyAttributes();
      }
    }

    /** The back-fill loop of `validate_customer`, over any table of pairs. */
    method BackFillAttributes(pairs: seq<(string, string)>) returns (failure: Option<BuildError>)
      requires Valid()
      modifies this
      ensures Valid()
      ensures failure == BackFill(old(attributes), pairs).error
      ensures attributes == BackFill(old(attributes), pairs).attributes
      ensures id == old(id) && relationships == old(relationships)
    {
      var i := 0;
      while i < |pairs|
        invariant 0 <= i <= |pairs|
        invariant Valid()
        invariant BackFill(attributes, pairs[i..]) == BackFill(old(attributes), pairs)
        invariant id == old(id) && relationships == old(relationships)
      {
        var key := pairs[i].0;
        var source := pairs[i].1;
        assert pairs[i..][1..] == pairs[i + 1..];
        var current := Get(attributes, key);
        if current.None? {
          return Some(KeyError(key));
        }
        if current.value == Null {
          var value := Get(attributes, source);
          if value.None? {
            return Some(KeyError(source));
          }
          attributes := Put(attributes, key, value.value);
        }
        i := i + 1;
      }
      return None;
    }

    /** The conversion loop of `validate_customer`: each value that is
        neither a str nor `None` is replaced by its str form, in place. */
    method StringifyAttributes()
      requires Valid()
      modifies this
      ensures Valid()
      ensures attributes == StringifyAll(old(attributes))
      ensures id == old(id) && relationships == old(relationships)
    {
      var j := 0;
      while j < |attributes|
        invariant 0 <= j <= |attributes| && |attributes| == |old(attributes)|
        invariant Valid()
        invariant forall k :: 0 <= k < j ==> attributes[k] == (old(attributes)[k].0, Stringify(old(attributes)[k].1))
        invariant forall k :: j <= k < |attributes| ==> attributes[k] == old(attributes)[k]
        invariant id == old(id) && relationships == old(relationships)
      {
        var key := attributes[j].0;
        var value := attributes[j].1;
        if !value.Str? && value != Null {
          PutAt(attributes, j, Str(ToString(value)));
          attributes := Put(attributes, key, Str(ToString(value)));
        }
        j := j + 1;
      }
    }
  }

  /** `BatchBuilder`: an ordered list of built documents, serialised as one
      array. The class has no method that adds to it. */
  class BatchBuilder {
    var batch: seq<Value>

    constructor ()
      ensures batch == []
    {
      batch := [];
    }

    method Build() returns (r: Value)
      ensures r == Arr(batch)
    {
      r := Arr(batch);
    }
  }
}
